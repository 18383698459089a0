/** The coordinator may die at any step and be started again, any number of times: once it is left alone, the task comes to
    rest exactly as its inputs say, as if nothing had happened. */
module PipelineCrashes {
  import opened Wrappers
  import opened StateMachine
  import opened QualityGate
  import opened ReviewStore
  import opened Pipeline
  import opened Coordinator
  import opened PipelineReach
  import Decimal

  // ---- What a run may leave behind ------------------------------------------------------------------------------------

  predicate Bare(w: World) {
    w.patches == map[] && w.fix == NoFix && w.verify == NoVerify
  }

  predicate MayFix(x: Inputs) {
    !x.offline && x.fixable
  }

  function FirstCandidate(x: Inputs): Candidate {
    Candidate(1, HashOf(x))
  }

  /** The fix child and its patch, as far as the inputs let them get. */
  predicate FixSoFar(w: World, x: Inputs) {
    && w.verify == NoVerify
    && match w.fix
       case NoFix => w.patches == map[]
       case FixOpen => w.patches == map[] && !x.missing
       case FixEnded(code) => w.patches == map[] && !x.missing && x.fix == FixError(code)
       case FixDone(c) => HasPatch(x) && c == FirstCandidate(x) && (w.patches == map[] || w.patches == OnePatch(x))
  }

  /** The verify child, likewise. */
  predicate VerifySoFar(w: World, x: Inputs) {
    match w.verify
    case NoVerify => true
    case VerifyOpen(input) => input == FirstCandidate(x)
    case VerifyEnded(code) => x.verdict == VerifyError(code)
    case VerifyDone(e) => x.verdict.VerifyMeasured? && e == Evidence(x)
  }

  /** A task that nobody is at work on, somewhere on its way. */
  ghost predicate Staged(w: World, x: Inputs) {
    && w.actors == map[] && w.approvals == map[]
    && if w.h.row.status == Draft then w == Start("coordinator")
       else if w.h.row.status == Reviewing then Resting(w, Reviewing, {15}) && Bare(w)
       else if w.h.row.status == Reviewed then Resting(w, Reviewed, {15, 8}) && Bare(w)
       else if w.h.row.status == Fixing then Resting(w, Fixing, {15, 8, 12}) && MayFix(x) && FixSoFar(w, x)
       else if w.h.row.status == Testing then
         && Resting(w, Testing, {15, 8, 12, 16}) && HasPatch(x) && !x.drift && w.patches == OnePatch(x)
         && w.h.row.activePatch == Some(x.id) && VerifySoFar(w, x)
       else RestsAs(w, x)
  }

  /** What the error of a run comes with. */
  function Found(x: Inputs): Option<VerifyEvidence> {
    if IsMeasured(x) then Some(Evidence(x)) else None
  }

  /** A run at work on such a task, between its intents. */
  ghost predicate At(w: World, s: Actor, x: Inputs) {
    match s
    case Idle => true
    case RunGet(_) => true
    case ReviewWork(_) => w.h.row.status == Reviewing
    case FixGet => w.h.row.status == Reviewed || w.h.row.status == Fixing
    case FixExecute => w.h.row.status == Fixing
    case FixBuild => w.h.row.status == Fixing && w.fix == FixOpen
    case FixHandler(version) => w.h.row.status == Fixing && w.fix == FixOpen && version == 1
    case FixRecord(c) => w.h.row.status == Fixing && w.fix == FixDone(c)
    case FixFinish(id) => w.h.row.status == Fixing && w.fix.FixDone? && w.patches == OnePatch(x) && id == x.id && !x.drift
    case VerifyGet => w.h.row.status == Testing
    case VerifyHandler(id, input) => w.h.row.status == Testing && w.verify == VerifyOpen(input) && id == x.id
    case VerifyRecord(id, e) => w.h.row.status == Testing && w.verify == VerifyDone(e) && id == x.id
    case VerifyFinish(id, e) => w.h.row.status == Testing && w.verify == VerifyDone(e) && id == x.id && e.sufficient
    case ParkGet(code, found) =>
      && (w.h.row.status == Fixing || w.h.row.status == Testing) && Trouble(x) == Some(code) && found == Found(x)
      && (HasPatch(x) ==> w.patches == OnePatch(x))
    case _ => false
  }

  /** A run that goes on from the review to the fix by itself. */
  predicate Keen(s: Actor) {
    match s
    case RunGet(auto) => auto
    case ReviewWork(auto) => auto
    case Issue(_, _, next) => KeenNext(next)
    case Swapping(_, _, _, next) => KeenNext(next)
    case _ => true
  }

  predicate KeenNext(next: Next) {
    match next
    case Dispatch(auto) => auto
    case AfterReview(auto) => auto
    case _ => true
  }

  /** An intent that will go through, to a task on its way and a run at work on it. */
  ghost predicate LandsOn(w: World, cmd: Command, v: Values, next: Next, w': World, x: Inputs) {
    && Check(w.h, cmd) == Ready(v) && v == Derive(w.h.row, cmd.changes) && cmd.expected == w.h.row.version
    && w' == w.(h := Swap(w.h, cmd, v)) && (next.Dispatch? ==> w'.h.row.status == Reviewing)
    && Staged(w', x) && At(w', Onwards(next, w'.h.row.status), x)
    && (KeenNext(next) && Onwards(next, w'.h.row.status).Idle? ==> RestsAs(w', x))
  }

  ghost predicate IntentAt(w: World, cmd: Command, v: Values, next: Next, x: Inputs) {
    exists w': World :: LandsOn(w, cmd, v, next, w', x)
  }

  ghost predicate Working(w: World, s: Actor, x: Inputs) {
    && Staged(w, x)
    && if s.Issue? then s.effect == NoEffect && IntentAt(w, s.cmd, Derive(w.h.row, s.cmd.changes), s.next, x)
       else if s.Swapping? then s.effect == NoEffect && IntentAt(w, s.cmd, s.values, s.next, x)
       else At(w, s, x)
  }

  // ---- How far a run still has to go -------------------------------------------------------------------------------------

  function LeftAfter(next: Next): nat {
    match next
    case Dispatch(_) => 19
    case AfterReview(_) => 16
    case EnterFix => 13
    case AfterTesting => 6
    case Stop => 0
    case StopQuietly => 0
  }

  /** The steps left, at most. */
  function Left(s: Actor): nat {
    match s
    case RunGet(_) => 22
    case ReviewWork(_) => 19
    case FixGet => 16
    case FixExecute => 13
    case FixBuild => 12
    case FixHandler(_) => 11
    case FixRecord(_) => 10
    case FixFinish(_) => 9
    case VerifyGet => 6
    case VerifyHandler(_, _) => 5
    case VerifyRecord(_, _) => 4
    case VerifyFinish(_, _) => 3
    case ParkGet(_, _) => 3
    case Issue(_, _, next) => 2 + LeftAfter(next)
    case Swapping(_, _, _, next) => 1 + LeftAfter(next)
    case _ => 0
  }

  lemma OnwardsIsLess(next: Next, status: ParentStatus)
    ensures Left(Onwards(next, status)) <= LeftAfter(next)
  {
  }

  // ---- Intents -----------------------------------------------------------------------------------------------------------------

  lemma Lands(w: World, cmd: Command, next: Next, w': World, x: Inputs)
    requires Check(w.h, cmd) == Ready(Derive(w.h.row, cmd.changes)) && cmd.expected == w.h.row.version
    requires w' == w.(h := Swap(w.h, cmd, Derive(w.h.row, cmd.changes))) && Staged(w', x)
    requires next.Dispatch? ==> w'.h.row.status == Reviewing
    requires At(w', Onwards(next, w'.h.row.status), x)
    requires KeenNext(next) && Onwards(next, w'.h.row.status).Idle? ==> RestsAs(w', x)
    ensures IntentAt(w, cmd, Derive(w.h.row, cmd.changes), next, x)
  {
    var v := Derive(w.h.row, cmd.changes);
    assert LandsOn(w, cmd, v, next, w', x);
  }

  /** The seven intents of a run: each takes the task on, to a stage the run goes on from. */
  lemma EntersReviewing(w: World, auto: bool, x: Inputs) returns (cmd: Command)
    requires Staged(w, x) && w.h.row.status == Draft
    ensures cmd == Intend(w.h.row.version, To(Reviewing), "enter_reviewing")
    ensures IntentAt(w, cmd, Derive(w.h.row, cmd.changes), Dispatch(auto), x)
  {
    cmd := Intend(w.h.row.version, To(Reviewing), "enter_reviewing");
    var w' := RowAfter(w, Draft, {}, Reviewing, To(Reviewing), "enter_reviewing");
    assert {} + {15} == {15};
    Lands(w, cmd, Dispatch(auto), w', x);
  }

  lemma EntersReviewed(w: World, auto: bool, x: Inputs) returns (cmd: Command)
    requires Staged(w, x) && w.h.row.status == Reviewing
    ensures cmd == Intend(w.h.row.version, To(Reviewed).(summary := Some(Summary(None))), "reviewed")
    ensures IntentAt(w, cmd, Derive(w.h.row, cmd.changes), AfterReview(auto), x)
  {
    var changes := To(Reviewed).(summary := Some(Summary(None)));
    cmd := Intend(w.h.row.version, changes, "reviewed");
    var w' := RowAfter(w, Reviewing, {15}, Reviewed, changes, "reviewed");
    assert {15} + {8} == {15, 8};
    Lands(w, cmd, AfterReview(auto), w', x);
  }

  lemma GivesUp(w: World, key: Key, x: Inputs) returns (cmd: Command)
    requires Staged(w, x) && w.h.row.status == Reviewed && !MayFix(x)
    requires key == if x.offline then "offline_stop" else "no_fix"
    ensures cmd == Intend(w.h.row.version, To(Rejected), key)
    ensures IntentAt(w, cmd, Derive(w.h.row, cmd.changes), Stop, x)
  {
    cmd := Intend(w.h.row.version, To(Rejected), key);
    var w' := RowAfter(w, Reviewed, {15, 8}, Rejected, To(Rejected), key);
    Lands(w, cmd, Stop, w', x);
  }

  lemma EntersFixing(w: World, x: Inputs) returns (cmd: Command)
    requires Staged(w, x) && w.h.row.status == Reviewed && MayFix(x)
    ensures cmd == Intend(w.h.row.version, To(Fixing), "enter_fixing")
    ensures IntentAt(w, cmd, Derive(w.h.row, cmd.changes), EnterFix, x)
  {
    cmd := Intend(w.h.row.version, To(Fixing), "enter_fixing");
    var w' := RowAfter(w, Reviewed, {15, 8}, Fixing, To(Fixing), "enter_fixing");
    assert {15, 8} + {12} == {15, 8, 12};
    Lands(w, cmd, EnterFix, w', x);
  }

  lemma EntersTests(w: World, x: Inputs) returns (cmd: Command)
    requires Staged(w, x) && w.h.row.status == Fixing && w.fix.FixDone? && w.patches == OnePatch(x) && !x.drift
    ensures cmd == Intend(w.h.row.version, To(Testing).(activePatch := Some(x.id)), Tagged("enter_testing", 1))
    ensures IntentAt(w, cmd, Derive(w.h.row, cmd.changes), AfterTesting, x)
  {
    KeyLengths();
    var changes := To(Testing).(activePatch := Some(x.id));
    cmd := Intend(w.h.row.version, changes, Tagged("enter_testing", 1));
    var w' := RowAfter(w, Fixing, {15, 8, 12}, Testing, changes, Tagged("enter_testing", 1));
    assert {15, 8, 12} + {16} == {15, 8, 12, 16};
    Lands(w, cmd, AfterTesting, w', x);
  }

  lemma EntersGate(w: World, e: VerifyEvidence, x: Inputs) returns (cmd: Command)
    requires Staged(w, x) && w.h.row.status == Testing && w.verify == VerifyDone(e) && e.sufficient
    ensures cmd == Intend(w.h.row.version, GateChanges(e), Tagged("enter_pending_approval", 1))
    ensures IntentAt(w, cmd, Derive(w.h.row, cmd.changes), Stop, x)
  {
    KeyLengths();
    cmd := Intend(w.h.row.version, GateChanges(e), Tagged("enter_pending_approval", 1));
    var w' := RowAfter(w, Testing, {15, 8, 12, 16}, PendingApproval, GateChanges(e), Tagged("enter_pending_approval", 1));
    assert {15, 8, 12, 16} + {25} == {15, 8, 12, 16, 25};
    Lands(w, cmd, Stop, w', x);
  }

  lemma ParkedShows(before: Row, code: ErrorCode, found: Option<VerifyEvidence>, after: Row)
    requires Updated(before, ParkChanges(code, found), after)
    ensures Shows(after, code) && (found.Some? ==> after.summary == Summary(found))
  {
    assert "error_code" in ParkChanges(code, found).texts;
  }

  lemma TroubleRests(w: World, code: ErrorCode, x: Inputs)
    requires w.actors == map[] && w.approvals == map[] && (HasPatch(x) ==> w.patches == OnePatch(x))
    requires Trouble(x) == Some(code) && w.h.row.status == ErrorTarget(code) && Shows(w.h.row, code)
    requires Found(x).Some? ==> w.h.row.summary == Summary(Found(x))
    ensures Staged(w, x) && RestsAs(w, x)
  {
  }

  lemma ParkLands(w: World, from: ParentStatus, lengths: set<nat>, code: ErrorCode, changes: Changes, key: Key, x: Inputs)
    returns (cmd: Command)
    requires Resting(w, from, lengths) && (from == Fixing || from == Testing) && ParkKey(key)
    requires changes == ParkChanges(code, Found(x)) && changes.status == Some(ErrorTarget(code))
    requires w.approvals == map[] && Trouble(x) == Some(code) && (HasPatch(x) ==> w.patches == OnePatch(x))
    ensures cmd == Intend(w.h.row.version, changes, key)
    ensures IntentAt(w, cmd, Derive(w.h.row, cmd.changes), StopQuietly, x)
  {
    cmd := Intend(w.h.row.version, changes, key);
    var w' := RowAfter(w, from, lengths, ErrorTarget(code), changes, key);
    ParkedShows(w.h.row, code, Found(x), w'.h.row);
    TroubleRests(w', code, x);
    Lands(w, cmd, StopQuietly, w', x);
  }

  lemma EntersPark(w: World, code: ErrorCode, x: Inputs) returns (cmd: Command)
    requires Staged(w, x) && (w.h.row.status == Fixing || w.h.row.status == Testing)
    requires Trouble(x) == Some(code) && (HasPatch(x) ==> w.patches == OnePatch(x))
    ensures cmd == Intend(w.h.row.version, ParkChanges(code, Found(x)), "park:" + CodeText(code))
    ensures IntentAt(w, cmd, Derive(w.h.row, cmd.changes), StopQuietly, x)
  {
    var key, changes := "park:" + CodeText(code), ParkChanges(code, Found(x));
    assert key[0] == 'p';
    ParkTargets(code);
    cmd := ParkLands(w, w.h.row.status, if w.h.row.status == Fixing then {15, 8, 12} else {15, 8, 12, 16}, code, changes, key, x);
  }

  // ---- The steps of a run ----------------------------------------------------------------------------------------------------

  /** One step of a run takes it on, to a task on its way with less to do. */
  ghost predicate GoesTo(w: World, s: Actor, x: Inputs, w': World, s': Actor) {
    && LeadsTo(Set(w, ME, s), x, 1, Put(w', s'))
    && Working(w', s', x) && Left(s') < Left(s)
    && (Keen(s) ==> Keen(s') && (s'.Idle? ==> RestsAs(w', x)))
  }

  lemma Takes(w: World, s: Actor, x: Inputs, w': World, s': Actor)
    requires w.actors == map[] && w'.actors == map[] && Step(Set(w, ME, s), NextAction(s, x)) == Put(w', s')
    ensures LeadsTo(Set(w, ME, s), x, 1, Put(w', s'))
  {
    Moves(w, s, x, Put(w', s'));
  }

  lemma ReadDraftGoes(w: World, s: Actor, x: Inputs) returns (s': Actor)
    requires Working(w, s, x) && s.RunGet? && w.h.row.status == Draft
    ensures GoesTo(w, s, x, w, s')
  {
    var cmd := EntersReviewing(w, s.auto, x);
    s' := Issue(cmd, NoEffect, Dispatch(s.auto));
    ReadIssues(w, s.auto, x);
  }

  lemma ReadStep(w: World, s: Actor, x: Inputs, s': Actor)
    requires w.actors == map[] && s.RunGet? && w.h.row.status != Draft
    requires s' == match w.h.row.status
                   case Reviewing => ReviewWork(s.auto)
                   case Reviewed => FixGet
                   case Fixing => FixGet
                   case Testing => VerifyGet
                   case _ => Idle
    ensures LeadsTo(Set(w, ME, s), x, 1, Put(w, s'))
  {
    Gone(w, s);
    Resets(w, s, s');
    Takes(w, s, x, w, s');
  }

  lemma ReadGoes(w: World, s: Actor, x: Inputs) returns (s': Actor)
    requires Working(w, s, x) && s.RunGet?
    ensures GoesTo(w, s, x, w, s')
  {
    if w.h.row.status == Draft {
      s' := ReadDraftGoes(w, s, x);
    } else {
      s' := match w.h.row.status
            case Reviewing => ReviewWork(s.auto)
            case Reviewed => FixGet
            case Fixing => FixGet
            case Testing => VerifyGet
            case _ => Idle;
      ReadStep(w, s, x, s');
    }
  }

  lemma ReviewGoes(w: World, s: Actor, x: Inputs) returns (s': Actor)
    requires Working(w, s, x) && s.ReviewWork?
    ensures GoesTo(w, s, x, w, s')
  {
    var cmd := EntersReviewed(w, s.auto, x);
    s' := Issue(cmd, NoEffect, AfterReview(s.auto));
    FinishReviewIssues(w, s.auto, x);
  }

  lemma FixingStep(w: World, x: Inputs)
    requires w.actors == map[] && w.h.row.status == Fixing && MayFix(x)
    ensures LeadsTo(Set(w, ME, FixGet), x, 1, Set(w, ME, FixExecute))
  {
    Resets(w, FixGet, FixExecute);
    Moves(w, FixGet, x, Set(w, ME, FixExecute));
  }

  lemma FixGetGoes(w: World, s: Actor, x: Inputs) returns (s': Actor)
    requires Working(w, s, x) && s.FixGet?
    ensures GoesTo(w, s, x, w, s')
  {
    if !MayFix(x) {
      var key := if x.offline then "offline_stop" else "no_fix";
      var cmd := GivesUp(w, key, x);
      s' := Issue(cmd, NoEffect, Stop);
      BeginFixIssues(w, x, Rejected, key, Stop);
    } else if w.h.row.status == Reviewed {
      var cmd := EntersFixing(w, x);
      s' := Issue(cmd, NoEffect, EnterFix);
      BeginFixIssues(w, x, Fixing, "enter_fixing", EnterFix);
    } else {
      s' := FixExecute;
      FixingStep(w, x);
    }
  }

  lemma ExecuteStep(w: World, x: Inputs, w': World, s': Actor)
    requires w.actors == map[] && w' == if x.missing || w.fix.FixDone? || w.fix.FixEnded? then w else w.(fix := FixOpen)
    requires s' == if x.missing then ParkGet(ArtifactSchemaInvalid, None)
                   else match w.fix
                        case FixDone(c) => FixRecord(c)
                        case FixEnded(code) => ParkGet(code, None)
                        case _ => FixBuild
    ensures LeadsTo(Set(w, ME, FixExecute), x, 1, Put(w', s'))
  {
    Resets(w', FixExecute, s');
    Takes(w, FixExecute, x, w', s');
  }

  lemma ExecuteGoes(w: World, s: Actor, x: Inputs) returns (w': World, s': Actor)
    requires Working(w, s, x) && s.FixExecute?
    ensures GoesTo(w, s, x, w', s')
  {
    w' := if x.missing || w.fix.FixDone? || w.fix.FixEnded? then w else w.(fix := FixOpen);
    s' := if x.missing then ParkGet(ArtifactSchemaInvalid, None)
          else match w.fix
               case FixDone(c) => FixRecord(c)
               case FixEnded(code) => ParkGet(code, None)
               case _ => FixBuild;
    ExecuteStep(w, x, w', s');
  }

  lemma BuildGoes(w: World, s: Actor, x: Inputs) returns (s': Actor)
    requires Working(w, s, x) && s.FixBuild?
    ensures GoesTo(w, s, x, w, s')
  {
    s' := FixHandler(1);
    Builds(w, x);
  }

  lemma FixHandlerGoes(w: World, s: Actor, x: Inputs) returns (w': World, s': Actor)
    requires Working(w, s, x) && s.FixHandler?
    ensures GoesTo(w, s, x, w', s')
  {
    match x.fix {
      case FixProduced(hash) =>
        w' := w.(fix := FixDone(FirstCandidate(x)));
        s' := FixRecord(FirstCandidate(x));
        Produces(w, FirstCandidate(x), x);
      case FixError(code) =>
        w' := w.(fix := FixEnded(code));
        s' := ParkGet(code, None);
        FixErrs(w, 1, code, x);
    }
  }

  /** The patch of the fix child is created once; whoever records it again finds it. */
  lemma RecordStep(w: World, s: Actor, x: Inputs, w': World, s': Actor)
    requires w.actors == map[] && (w.patches == map[] || w.patches == OnePatch(x)) && s == FixRecord(FirstCandidate(x))
    requires w' == w.(patches := OnePatch(x)) && s' == if x.drift then ParkGet(ScopeDrift, None) else FixFinish(x.id)
    ensures LeadsTo(Set(w, ME, s), x, 1, Put(w', s'))
  {
    if w.patches != map[] {
      assert w.patches[x.id].key == FixKey(1);
      assert w.patches[x.id := w.patches[x.id].(scopeDrift := x.drift)] == OnePatch(x);
    }
    Resets(w', s, s');
    Takes(w, s, x, w', s');
  }

  lemma RecordGoes(w: World, s: Actor, x: Inputs) returns (w': World, s': Actor)
    requires Working(w, s, x) && s.FixRecord?
    ensures GoesTo(w, s, x, w', s')
  {
    w' := w.(patches := OnePatch(x));
    s' := if x.drift then ParkGet(ScopeDrift, None) else FixFinish(x.id);
    RecordStep(w, s, x, w', s');
  }

  lemma FixFinishGoes(w: World, s: Actor, x: Inputs) returns (s': Actor)
    requires Working(w, s, x) && s.FixFinish?
    ensures GoesTo(w, s, x, w, s')
  {
    var cmd := EntersTests(w, x);
    s' := Issue(cmd, NoEffect, AfterTesting);
    FinishFixIssues(w, x);
  }

  lemma VerifyGetStep(w: World, x: Inputs, w': World, s': Actor)
    requires w.actors == map[] && w.patches == OnePatch(x) && w.h.row.activePatch == Some(x.id) && VerifySoFar(w, x)
    requires w' == if w.verify.NoVerify? then w.(verify := VerifyOpen(FirstCandidate(x))) else w
    requires s' == match w.verify
                   case VerifyDone(e) => VerifyRecord(x.id, e)
                   case VerifyEnded(code) => ParkGet(code, None)
                   case _ => VerifyHandler(x.id, FirstCandidate(x))
    ensures LeadsTo(Set(w, ME, VerifyGet), x, 1, Put(w', s'))
  {
    Resets(w', VerifyGet, s');
    Takes(w, VerifyGet, x, w', s');
  }

  lemma VerifyGetGoes(w: World, s: Actor, x: Inputs) returns (w': World, s': Actor)
    requires Working(w, s, x) && s.VerifyGet?
    ensures GoesTo(w, s, x, w', s')
  {
    w' := if w.verify.NoVerify? then w.(verify := VerifyOpen(FirstCandidate(x))) else w;
    s' := match w.verify
          case VerifyDone(e) => VerifyRecord(x.id, e)
          case VerifyEnded(code) => ParkGet(code, None)
          case _ => VerifyHandler(x.id, FirstCandidate(x));
    VerifyGetStep(w, x, w', s');
  }

  lemma VerifyHandlerGoes(w: World, s: Actor, x: Inputs) returns (w': World, s': Actor)
    requires Working(w, s, x) && s.VerifyHandler?
    ensures GoesTo(w, s, x, w', s')
  {
    match x.verdict {
      case VerifyMeasured(_, _) =>
        w' := w.(verify := VerifyDone(Evidence(x)));
        s' := VerifyRecord(x.id, Evidence(x));
        Measures(w, FirstCandidate(x), Evidence(x), x);
      case VerifyError(code) =>
        w' := w.(verify := VerifyEnded(code));
        s' := ParkGet(code, None);
        VerifyErrs(w, FirstCandidate(x), code, x);
    }
  }

  lemma VerifyRecordGoes(w: World, s: Actor, x: Inputs) returns (s': Actor)
    requires Working(w, s, x) && s.VerifyRecord?
    ensures GoesTo(w, s, x, w, s')
  {
    var e := w.verify.evidence;
    s' := AfterEvidence(x.id, e);
    Records(w, e, x);
  }

  lemma VerifyFinishGoes(w: World, s: Actor, x: Inputs) returns (s': Actor)
    requires Working(w, s, x) && s.VerifyFinish?
    ensures GoesTo(w, s, x, w, s')
  {
    var e := w.verify.evidence;
    var cmd := EntersGate(w, e, x);
    s' := Issue(cmd, NoEffect, Stop);
    FinishVerifyIssues(w, x, e);
  }

  lemma ParkGoes(w: World, s: Actor, x: Inputs) returns (s': Actor)
    requires Working(w, s, x) && s.ParkGet?
    ensures GoesTo(w, s, x, w, s')
  {
    var cmd := EntersPark(w, s.code, x);
    s' := Issue(cmd, NoEffect, StopQuietly);
    ParkIssues(w, Found(x), s.code, x);
  }

  lemma IssueGoes(w: World, s: Actor, x: Inputs) returns (s': Actor)
    requires Working(w, s, x) && s.Issue?
    ensures GoesTo(w, s, x, w, s')
  {
    s' := Swapping(s.cmd, Derive(w.h.row, s.cmd.changes), NoEffect, s.next);
    var w' :| LandsOn(w, s.cmd, Derive(w.h.row, s.cmd.changes), s.next, w', x);
    FirstHalfMoves(w, s.cmd, s.next, x);
  }

  lemma SwapGoes(w: World, s: Actor, x: Inputs) returns (w': World, s': Actor)
    requires Working(w, s, x) && s.Swapping?
    ensures GoesTo(w, s, x, w', s')
  {
    w' :| LandsOn(w, s.cmd, s.values, s.next, w', x);
    s' := Onwards(s.next, w'.h.row.status);
    SecondHalfMoves(w, s.cmd, s.values, s.next, w', x);
    OnwardsIsLess(s.next, w'.h.row.status);
  }

  predicate EarlyWork(s: Actor) {
    s.RunGet? || s.ReviewWork? || s.FixGet? || s.Issue? || s.Swapping?
  }

  predicate FixWork(s: Actor) {
    s.FixExecute? || s.FixBuild? || s.FixHandler? || s.FixRecord? || s.FixFinish?
  }

  lemma EarlyGoes(w: World, s: Actor, x: Inputs) returns (w': World, s': Actor)
    requires Working(w, s, x) && EarlyWork(s)
    ensures GoesTo(w, s, x, w', s')
  {
    w' := w;
    match s {
      case RunGet(_) => s' := ReadGoes(w, s, x);
      case ReviewWork(_) => s' := ReviewGoes(w, s, x);
      case FixGet => s' := FixGetGoes(w, s, x);
      case Issue(_, _, _) => s' := IssueGoes(w, s, x);
      case _ => w', s' := SwapGoes(w, s, x);
    }
  }

  lemma FixGoes(w: World, s: Actor, x: Inputs) returns (w': World, s': Actor)
    requires Working(w, s, x) && FixWork(s)
    ensures GoesTo(w, s, x, w', s')
  {
    w' := w;
    match s {
      case FixExecute => w', s' := ExecuteGoes(w, s, x);
      case FixBuild => s' := BuildGoes(w, s, x);
      case FixHandler(_) => w', s' := FixHandlerGoes(w, s, x);
      case FixRecord(_) => w', s' := RecordGoes(w, s, x);
      case _ => s' := FixFinishGoes(w, s, x);
    }
  }

  lemma LateGoes(w: World, s: Actor, x: Inputs) returns (w': World, s': Actor)
    requires Working(w, s, x) && (s.VerifyGet? || s.VerifyHandler? || s.VerifyRecord? || s.VerifyFinish? || s.ParkGet?)
    ensures GoesTo(w, s, x, w', s')
  {
    w' := w;
    match s {
      case VerifyGet => w', s' := VerifyGetGoes(w, s, x);
      case VerifyHandler(_, _) => w', s' := VerifyHandlerGoes(w, s, x);
      case VerifyRecord(_, _) => s' := VerifyRecordGoes(w, s, x);
      case VerifyFinish(_, _) => s' := VerifyFinishGoes(w, s, x);
      case _ => s' := ParkGoes(w, s, x);
    }
  }

  lemma NobodyElse(w: World, s: Actor, x: Inputs)
    requires Working(w, s, x)
    ensures !s.Deciding? && !s.Merging?
  {
  }

  lemma WorkGoes(w: World, s: Actor, x: Inputs) returns (w': World, s': Actor)
    requires Working(w, s, x) && !s.Idle?
    ensures GoesTo(w, s, x, w', s')
  {
    NobodyElse(w, s, x);
    if EarlyWork(s) {
      w', s' := EarlyGoes(w, s, x);
    } else if FixWork(s) {
      w', s' := FixGoes(w, s, x);
    } else {
      w', s' := LateGoes(w, s, x);
    }
  }

  // ---- Whole runs -----------------------------------------------------------------------------------------------------------------

  /** Left alone for exactly k steps, the one world becomes the other. */
  ghost predicate Comes(w: World, x: Inputs, k: nat, w': World) {
    forall n: nat {:trigger Undisturbed(w, x, n)} :: n == k ==> Undisturbed(w, x, n) == w'
  }

  lemma ComesOn(w: World, x: Inputs, mid: World, k: nat, w': World)
    requires LeadsTo(w, x, 1, mid) && k > 0 && Comes(mid, x, k - 1, w')
    ensures Comes(w, x, k, w')
  {
    assert Undisturbed(w, x, k) == Undisturbed(mid, x, k - 1);
  }

  lemma StaysPut(w: World, s: Actor, x: Inputs, k: nat)
    requires Working(w, s, x) && (s.Idle? || k == 0)
    ensures Comes(Put(w, s), x, k, Put(w, s)) && (k >= Left(s) ==> s.Idle?)
  {
    if s.Idle? {
      AtRest(w, x, k);
    }
  }

  /** However far a run is left to go, the task is on its way, and a run that goes on by itself ends with the task at rest. */
  lemma {:induction false} RunsOn(w: World, s: Actor, x: Inputs, k: nat) returns (w': World, s': Actor)
    requires Working(w, s, x)
    ensures Comes(Put(w, s), x, k, Put(w', s')) && Working(w', s', x)
    ensures k >= Left(s) ==> s'.Idle?
    ensures s.Idle? ==> w' == w
    ensures Keen(s) && !s.Idle? && s'.Idle? ==> RestsAs(w', x)
    decreases k
  {
    if s.Idle? || k == 0 {
      w', s' := w, s;
      StaysPut(w, s, x, k);
    } else {
      var w1, s1 := WorkGoes(w, s, x);
      w', s' := RunsOn(w1, s1, x, k - 1);
      ComesOn(Put(w, s), x, Put(w1, s1), k, Put(w', s'));
    }
  }

  /** A start of the coordinator that is left alone for so many steps. */
  datatype Attempt = Attempt(auto: bool, steps: nat)

  /** What attempts come to that all end in a crash. */
  ghost function Attempted(w: World, x: Inputs, attempts: seq<Attempt>): World
    decreases |attempts|
  {
    if attempts == [] then w
    else Attempted(Step(Started(w, attempts[0].auto, x, attempts[0].steps), Crash(ME)), x, attempts[1..])
  }

  lemma CrashLeaves(w: World, s: Actor)
    requires w.actors == map[]
    ensures Step(Put(w, s), Crash(ME)) == w
  {
    if s.Idle? {
      assert w.actors - {ME} == map[];
    } else {
      Gone(w, s);
    }
  }

  lemma StartedRuns(w: World, auto: bool, x: Inputs, k: nat) returns (w': World, s': Actor)
    requires Staged(w, x)
    ensures Started(w, auto, x, k) == Put(w', s') && Working(w', s', x)
    ensures k >= 22 ==> s'.Idle?
    ensures auto && s'.Idle? ==> RestsAs(w', x)
  {
    Begins(w, auto, x, k);
    w', s' := RunsOn(w, RunGet(auto), x, k);
  }

  lemma {:induction false} AttemptsKeepTheWay(w: World, x: Inputs, attempts: seq<Attempt>)
    requires Staged(w, x)
    ensures Staged(Attempted(w, x, attempts), x)
    decreases |attempts|
  {
    if attempts != [] {
      var w', s' := StartedRuns(w, attempts[0].auto, x, attempts[0].steps);
      CrashLeaves(w', s');
      AttemptsKeepTheWay(w', x, attempts[1..]);
    }
  }

  /** For every mode, every answer of the agents and every measurement: after any number of starts that each die at any step,
      one more start that is left alone brings the task to rest within 22 steps, in the status the undisturbed run ends in, with
      the same patch, the same evidence and the code of the same error. */
  lemma CrashesDoNotMatter(x: Inputs, attempts: seq<Attempt>, n: nat)
    requires n >= 40
    ensures var w := Started(Attempted(Start("coordinator"), x, attempts), true, x, n);
            && w.actors == map[] && w.approvals == map[]
            && w.h.row.status == WholeRun(x, n).h.row.status
            && (HasPatch(x) ==> w.patches == WholeRun(x, n).patches == OnePatch(x))
            && (IsMeasured(x) ==> w.h.row.summary == WholeRun(x, n).h.row.summary == Summary(Some(Evidence(x))))
            && (Trouble(x).Some? ==> Shows(w.h.row, Trouble(x).value) && Shows(WholeRun(x, n).h.row, Trouble(x).value))
  {
    AttemptsKeepTheWay(Start("coordinator"), x, attempts);
    var w', s' := StartedRuns(Attempted(Start("coordinator"), x, attempts), true, x, n);
    var w := WholeRunRests(x, n);
  }
}
