/** What the pipeline does when nobody interferes: for every mode, patch and measurement the undisturbed run of a new
    task ends at the gate, parked or rejected, as its inputs say, and behind the gate an approval and a merge finish it. */
module PipelineReach {
  import opened Wrappers
  import opened StateMachine
  import opened QualityGate
  import opened ReviewStore
  import opened Pipeline
  import opened Coordinator
  import opened PipelineLimits
  import Decimal

  /** Every key of the log has one of these lengths. */
  predicate KeysWithin(log: seq<Entry>, lengths: set<nat>) {
    forall i :: 0 <= i < |log| ==> |log[i].key| in lengths
  }

  /** No key of the log is one under which a task is parked. */
  predicate ParkFree(log: seq<Entry>) {
    forall i :: 0 <= i < |log| ==> !ParkKey(log[i].key)
  }

  predicate ParkKey(key: Key) {
    key != "" && key[0] == 'p'
  }

  predicate NoResume(log: seq<Entry>) {
    forall i :: 0 <= i < |log| ==> !log[i].resume
  }

  /** A task of the coordinator that nobody is at work on. */
  ghost predicate Resting(w: World, status: ParentStatus, lengths: set<nat>) {
    && w.actors == map[] && w.h.row.status == status && w.h.row.owner == "coordinator"
    && KeysWithin(w.h.log, lengths) && ParkFree(w.h.log) && NoResume(w.h.log)
  }

  lemma Resets(w: World, s: Actor, t: Actor)
    requires w.actors == map[]
    ensures Set(Set(w, ME, s), ME, t) == Set(w, ME, t)
  {
    assert map[ME := s][ME := t] == map[ME := t];
  }

  /** Where a run goes on after an intent; Idle is the end of it. */
  function Onwards(next: Next, status: ParentStatus): Actor {
    match next
    case Dispatch(auto) => if status == Reviewing then ReviewWork(auto) else Idle
    case AfterReview(auto) => if auto && status == Reviewed then FixGet else Idle
    case EnterFix => FixExecute
    case AfterTesting => if status == Testing then VerifyGet else Idle
    case Stop => Idle
    case StopQuietly => Idle
  }

  function Put(w: World, s: Actor): World {
    if s.Idle? then w else Set(w, ME, s)
  }

  lemma GoesOn(w: World, s: Actor, next: Next)
    requires w.actors == map[] && (next.Dispatch? ==> w.h.row.status == Reviewing)
    ensures Continue(Set(w, ME, s), ME, next) == Put(w, Onwards(next, w.h.row.status))
  {
    Resets(w, s, Onwards(next, w.h.row.status));
    Gone(w, s);
  }

  /** A key that is new to a log: of another length than all of them, or one to park under. */
  predicate NewKey(lengths: set<nat>, key: Key) {
    |key| !in lengths || ParkKey(key)
  }

  /** The row and the log after an intent with a new key along an edge of the table. */
  lemma RowAfter(w: World, from: ParentStatus, lengths: set<nat>, to: ParentStatus, changes: Changes, key: Key)
    returns (w': World)
    requires Resting(w, from, lengths) && NewKey(lengths, key)
    requires changes.status == Some(to) && changes.owner.None? && changes.foreign == {} && ParentEdge(from, to)
    ensures var cmd := Intend(w.h.row.version, changes, key);
            && Check(w.h, cmd) == Ready(Derive(w.h.row, changes))
            && w' == w.(h := Swap(w.h, cmd, Derive(w.h.row, changes)))
    ensures w'.actors == map[] && w'.h.row.status == to && (!ParkKey(key) ==> Resting(w', to, lengths + {|key|}))
    ensures Updated(w.h.row, changes, w'.h.row)
  {
    assert !KeyUsed(w.h.log, key);
    WriteUpdates(w.h.row, changes);
    w' := w.(h := Swap(w.h, Intend(w.h.row.version, changes, key), Derive(w.h.row, changes)));
  }

  // ---- The undisturbed run ----------------------------------------------------------------------------------------

  /** What a run meets on its way: whether it goes on to the fix by itself, the mode, what there is to fix, whether the list of
      findings is missing, what the fix agent answers, whether its patch stays in scope, and what the verify agent answers. */
  datatype Inputs = Inputs(
    auto: bool, offline: bool, fixable: bool, missing: bool, fix: FixAnswer, drift: bool, id: PatchId, verdict: VerifyAnswer)

  /** The next step of a run that nothing disturbs. */
  function NextAction(s: Actor, x: Inputs): Action {
    match s
    case RunGet(_) => ReadTask(ME)
    case Issue(_, _, _) => CheckIntent(ME)
    case Swapping(_, _, _, _) => Update(ME)
    case ReviewWork(_) => FinishReview(ME)
    case FixGet => BeginFix(ME, x.offline, x.fixable)
    case FixExecute => ExecuteFix(ME, x.missing)
    case FixBuild => BuildFix(ME)
    case FixHandler(_) => AnswerFix(ME, x.fix)
    case FixRecord(_) => RecordPatch(ME, x.id, x.drift)
    case FixFinish(_) => FinishFix(ME)
    case VerifyGet => BeginVerify(ME, x.id)
    case VerifyHandler(_, _) => AnswerVerify(ME, x.verdict)
    case VerifyRecord(_, _) => RecordEvidence(ME)
    case VerifyFinish(_, _) => FinishVerify(ME)
    case ParkGet(_, _) => Park(ME)
    case Idle => Crash(ME)
    case Deciding(_, _, _) => Decide(ME)
    case Merging(_, _, _) => WriteBranch(ME, true)
  }

  /** A run led from step to step until it is over, for at most n steps. */
  ghost function Led(w: World, next: Actor -> Action, n: nat): World
    decreases n
  {
    if n == 0 || ME !in w.actors then w else Led(Step(w, next(w.actors[ME])), next, n - 1)
  }

  /** A run left to itself until it is over, for at most n steps. */
  ghost function Undisturbed(w: World, x: Inputs, n: nat): World {
    Led(w, (s: Actor) => NextAction(s, x), n)
  }

  /** A run that is started and left to itself. */
  ghost function Started(w: World, auto: bool, x: Inputs, n: nat): World {
    Undisturbed(Step(w, StartRun(ME, auto)), x, n)
  }

  /** The whole way of a new task: one run, or a second one for the fix when the first stops after the review. */
  ghost function WholeRun(x: Inputs, n: nat): World {
    var first := Started(Start("coordinator"), x.auto, x, n);
    if x.auto then first else Started(first, false, x, n)
  }

  lemma AtRest(w: World, x: Inputs, n: nat)
    requires w.actors == map[]
    ensures Undisturbed(w, x, n) == w
  {
  }

  /** In k of its steps the undisturbed run comes from the one world to the other. */
  ghost predicate LeadsTo(w: World, x: Inputs, k: nat, w': World) {
    forall n: nat {:trigger Undisturbed(w, x, n)} :: n >= k ==> Undisturbed(w, x, n) == Undisturbed(w', x, n - k)
  }

  lemma Moves(w: World, s: Actor, x: Inputs, w': World)
    requires w.actors == map[] && Step(Set(w, ME, s), NextAction(s, x)) == w'
    ensures LeadsTo(Set(w, ME, s), x, 1, w')
  {
    assert map[ME := s][ME] == s;
  }

  lemma Onto(w: World, x: Inputs, k: nat, mid: World, j: nat, w': World)
    requires LeadsTo(w, x, k, mid) && LeadsTo(mid, x, j, w')
    ensures LeadsTo(w, x, k + j, w')
  {
    forall n: nat | n >= k + j ensures Undisturbed(w, x, n) == Undisturbed(w', x, n - (k + j)) {
      assert Undisturbed(w, x, n) == Undisturbed(mid, x, n - k);
    }
  }

  lemma FirstHalfMoves(w: World, cmd: Command, next: Next, x: Inputs)
    requires w.actors == map[] && Check(w.h, cmd) == Ready(Derive(w.h.row, cmd.changes))
    ensures LeadsTo(Set(w, ME, Issue(cmd, NoEffect, next)), x, 1, Set(w, ME, Swapping(cmd, Derive(w.h.row, cmd.changes), NoEffect, next)))
  {
    var after := Swapping(cmd, Derive(w.h.row, cmd.changes), NoEffect, next);
    Resets(w, Issue(cmd, NoEffect, next), after);
    Moves(w, Issue(cmd, NoEffect, next), x, Set(w, ME, after));
  }

  lemma SecondHalfMoves(w: World, cmd: Command, v: Values, next: Next, w': World, x: Inputs)
    requires w.actors == map[] && cmd.expected == w.h.row.version
    requires w' == w.(h := Swap(w.h, cmd, v)) && (next.Dispatch? ==> w'.h.row.status == Reviewing)
    ensures LeadsTo(Set(w, ME, Swapping(cmd, v, NoEffect, next)), x, 1, Put(w', Onwards(next, w'.h.row.status)))
  {
    GoesOn(w', Swapping(cmd, v, NoEffect, next), next);
    Moves(w, Swapping(cmd, v, NoEffect, next), x, Put(w', Onwards(next, w'.h.row.status)));
  }

  /** A step that issues an intent with a new key along an edge of the table, and the two halves of the intent. */
  lemma Advances(w: World, state: Actor, x: Inputs, from: ParentStatus, lengths: set<nat>, to: ParentStatus,
                 changes: Changes, key: Key, next: Next)
    returns (w': World)
    requires Resting(w, from, lengths) && NewKey(lengths, key) && (next.Dispatch? ==> to == Reviewing)
    requires changes.status == Some(to) && changes.owner.None? && changes.foreign == {} && ParentEdge(from, to)
    requires LeadsTo(Set(w, ME, state), x, 1, Set(w, ME, Issue(Intend(w.h.row.version, changes, key), NoEffect, next)))
    ensures w'.actors == map[] && w'.h.row.status == to && w' == w.(h := w'.h)
    ensures !ParkKey(key) ==> Resting(w', to, lengths + {|key|})
    ensures Updated(w.h.row, changes, w'.h.row)
    ensures LeadsTo(Set(w, ME, state), x, 3, Put(w', Onwards(next, to)))
  {
    var cmd := Intend(w.h.row.version, changes, key);
    var v := Derive(w.h.row, changes);
    w' := RowAfter(w, from, lengths, to, changes, key);
    FirstHalfMoves(w, cmd, next, x);
    SecondHalfMoves(w, cmd, v, next, w', x);
    Onto(Set(w, ME, state), x, 1, Set(w, ME, Issue(cmd, NoEffect, next)), 1, Set(w, ME, Swapping(cmd, v, NoEffect, next)));
    Onto(Set(w, ME, state), x, 2, Set(w, ME, Swapping(cmd, v, NoEffect, next)), 1, Put(w', Onwards(next, to)));
  }

  // ---- The stages of a run ---------------------------------------------------------------------------------------

  lemma ReadIssues(w: World, auto: bool, x: Inputs)
    requires w.actors == map[] && w.h.row.status == Draft
    ensures LeadsTo(Set(w, ME, RunGet(auto)), x, 1,
                    Set(w, ME, Issue(Intend(w.h.row.version, To(Reviewing), "enter_reviewing"), NoEffect, Dispatch(auto))))
  {
    var issue := Issue(Intend(w.h.row.version, To(Reviewing), "enter_reviewing"), NoEffect, Dispatch(auto));
    Resets(w, RunGet(auto), issue);
    Moves(w, RunGet(auto), x, Set(w, ME, issue));
  }

  /** From DRAFT to the review. */
  lemma EntersReview(x: Inputs) returns (w: World)
    ensures LeadsTo(Set(Start("coordinator"), ME, RunGet(x.auto)), x, 3, Set(w, ME, ReviewWork(x.auto)))
    ensures Resting(w, Reviewing, {15}) && w == Start("coordinator").(h := w.h)
  {
    var w0 := Start("coordinator");
    ReadIssues(w0, x.auto, x);
    w := Advances(w0, RunGet(x.auto), x, Draft, {}, Reviewing, To(Reviewing), "enter_reviewing", Dispatch(x.auto));
  }

  lemma FinishReviewIssues(w: World, auto: bool, x: Inputs)
    requires w.actors == map[]
    ensures LeadsTo(Set(w, ME, ReviewWork(auto)), x, 1,
                    Set(w, ME, Issue(Intend(w.h.row.version, To(Reviewed).(summary := Some(Summary(None))), "reviewed"),
                                     NoEffect, AfterReview(auto))))
  {
    var issue := Issue(Intend(w.h.row.version, To(Reviewed).(summary := Some(Summary(None))), "reviewed"), NoEffect, AfterReview(auto));
    Resets(w, ReviewWork(auto), issue);
    Moves(w, ReviewWork(auto), x, Set(w, ME, issue));
  }

  /** From the review to the fix, or to the end of the first run. */
  lemma FinishesReview(w: World, x: Inputs) returns (w': World)
    requires Resting(w, Reviewing, {15})
    ensures LeadsTo(Set(w, ME, ReviewWork(x.auto)), x, 3, if x.auto then Set(w', ME, FixGet) else w')
    ensures Resting(w', Reviewed, {15, 8}) && w' == w.(h := w'.h)
  {
    FinishReviewIssues(w, x.auto, x);
    w' := Advances(w, ReviewWork(x.auto), x, Reviewing, {15}, Reviewed,
                   To(Reviewed).(summary := Some(Summary(None))), "reviewed", AfterReview(x.auto));
  }

  lemma Begins(w: World, auto: bool, x: Inputs, n: nat)
    requires w.actors == map[]
    ensures Started(w, auto, x, n) == Undisturbed(Set(w, ME, RunGet(auto)), x, n)
  {
    assert Step(w, StartRun(ME, auto)) == Set(w, ME, RunGet(auto));
  }

  /** The first run reaches the fix or rests behind the review. */
  lemma FirstRun(x: Inputs) returns (w: World)
    ensures Resting(w, Reviewed, {15, 8}) && w == Start("coordinator").(h := w.h)
    ensures LeadsTo(Set(Start("coordinator"), ME, RunGet(x.auto)), x, 6, if x.auto then Set(w, ME, FixGet) else w)
  {
    var w1 := EntersReview(x);
    w := FinishesReview(w1, x);
    Onto(Set(Start("coordinator"), ME, RunGet(x.auto)), x, 3, Set(w1, ME, ReviewWork(x.auto)), 3, if x.auto then Set(w, ME, FixGet) else w);
  }

  lemma ReadsReviewed(w: World, x: Inputs)
    requires w.actors == map[] && w.h.row.status == Reviewed
    ensures LeadsTo(Set(w, ME, RunGet(false)), x, 1, Set(w, ME, FixGet))
  {
    Resets(w, RunGet(false), FixGet);
    Moves(w, RunGet(false), x, Set(w, ME, FixGet));
  }

  lemma Goes(w: World, x: Inputs, k: nat, w': World, n: nat)
    requires LeadsTo(w, x, k, w') && n >= k
    ensures Undisturbed(w, x, n) == Undisturbed(w', x, n - k)
  {
  }

  lemma StartedGoes(w: World, auto: bool, x: Inputs, k: nat, w': World, n: nat)
    requires w.actors == map[] && LeadsTo(Set(w, ME, RunGet(auto)), x, k, w') && n >= k
    ensures Started(w, auto, x, n) == Undisturbed(w', x, n - k)
  {
    Begins(w, auto, x, n);
    Goes(Set(w, ME, RunGet(auto)), x, k, w', n);
  }

  lemma StartedRests(w: World, auto: bool, x: Inputs, k: nat, w': World, n: nat)
    requires w.actors == map[] && LeadsTo(Set(w, ME, RunGet(auto)), x, k, w') && n >= k && w'.actors == map[]
    ensures Started(w, auto, x, n) == w'
  {
    StartedGoes(w, auto, x, k, w', n);
    AtRest(w', x, n - k);
  }

  lemma BeginFixIssues(w: World, x: Inputs, to: ParentStatus, key: Key, next: Next)
    requires w.actors == map[] && w.h.row.status == Reviewed
    requires if x.offline then to == Rejected && key == "offline_stop" && next == Stop
             else if !x.fixable then to == Rejected && key == "no_fix" && next == Stop
             else to == Fixing && key == "enter_fixing" && next == EnterFix
    ensures LeadsTo(Set(w, ME, FixGet), x, 1, Set(w, ME, Issue(Intend(w.h.row.version, To(to), key), NoEffect, next)))
  {
    var issue := Issue(Intend(w.h.row.version, To(to), key), NoEffect, next);
    Resets(w, FixGet, issue);
    Moves(w, FixGet, x, Set(w, ME, issue));
  }

  /** Nothing may or can be fixed: the task is rejected. */
  lemma Rejects(w: World, x: Inputs) returns (w': World)
    requires Resting(w, Reviewed, {15, 8}) && (x.offline || !x.fixable)
    ensures LeadsTo(Set(w, ME, FixGet), x, 3, w')
    ensures w'.actors == map[] && w'.h.row.status == Rejected && w' == w.(h := w'.h)
  {
    var key := if x.offline then "offline_stop" else "no_fix";
    BeginFixIssues(w, x, Rejected, key, Stop);
    w' := Advances(w, FixGet, x, Reviewed, {15, 8}, Rejected, To(Rejected), key, Stop);
  }

  /** The fix is begun. */
  lemma BeginsFix(w: World, x: Inputs) returns (w': World)
    requires Resting(w, Reviewed, {15, 8}) && !x.offline && x.fixable
    ensures LeadsTo(Set(w, ME, FixGet), x, 3, Set(w', ME, FixExecute))
    ensures Resting(w', Fixing, {15, 8, 12}) && w' == w.(h := w'.h)
  {
    BeginFixIssues(w, x, Fixing, "enter_fixing", EnterFix);
    w' := Advances(w, FixGet, x, Reviewed, {15, 8}, Fixing, To(Fixing), "enter_fixing", EnterFix);
  }

  /** The hash of the patch the fix agent produced. */
  function HashOf(x: Inputs): string {
    match x.fix
    case FixProduced(hash) => hash
    case FixError(_) => ""
  }

  function OnePatch(x: Inputs): map<PatchId, PatchRow> {
    map[x.id := PatchRow(1, HashOf(x), FixKey(1), x.drift, false)]
  }

  lemma Executes(w: World, x: Inputs)
    requires w.actors == map[] && w.fix == NoFix && !x.missing
    ensures LeadsTo(Set(w, ME, FixExecute), x, 1, Set(w.(fix := FixOpen), ME, FixBuild))
  {
    Resets(w.(fix := FixOpen), FixExecute, FixBuild);
    Moves(w, FixExecute, x, Set(w.(fix := FixOpen), ME, FixBuild));
  }

  lemma FirstVersion(n: nat)
    ensures IsNextVersion(map[], n) <==> n == 1
  {
  }

  lemma Builds(w: World, x: Inputs)
    requires w.actors == map[] && w.patches == map[]
    ensures LeadsTo(Set(w, ME, FixBuild), x, 1, Set(w, ME, FixHandler(1)))
  {
    FirstVersion(1);
    forall n: nat | IsNextVersion(w.patches, n) ensures n == 1 {
      FirstVersion(n);
    }
    Resets(w, FixBuild, FixHandler(1));
    Moves(w, FixBuild, x, Set(w, ME, FixHandler(1)));
  }

  lemma Produces(w: World, c: Candidate, x: Inputs)
    requires w.actors == map[] && w.fix == FixOpen && x.fix == FixProduced(c.hash)
    ensures LeadsTo(Set(w, ME, FixHandler(c.version)), x, 1, Set(w.(fix := FixDone(c)), ME, FixRecord(c)))
  {
    Resets(w.(fix := FixDone(c)), FixHandler(c.version), FixRecord(c));
    Moves(w, FixHandler(c.version), x, Set(w.(fix := FixDone(c)), ME, FixRecord(c)));
  }

  lemma FixAnswered(w: World, x: Inputs) returns (w': World)
    requires w.actors == map[] && w.patches == map[] && w.fix == NoFix && !x.missing && x.fix.FixProduced?
    ensures w' == w.(fix := FixDone(Candidate(1, HashOf(x))))
    ensures LeadsTo(Set(w, ME, FixExecute), x, 3, Set(w', ME, FixRecord(Candidate(1, HashOf(x)))))
  {
    var w1, c := w.(fix := FixOpen), Candidate(1, HashOf(x));
    w' := w.(fix := FixDone(c));
    Executes(w, x);
    Builds(w1, x);
    Produces(w1, c, x);
    Onto(Set(w, ME, FixExecute), x, 1, Set(w1, ME, FixBuild), 1, Set(w1, ME, FixHandler(1)));
    Onto(Set(w, ME, FixExecute), x, 2, Set(w1, ME, FixHandler(1)), 1, Set(w', ME, FixRecord(c)));
  }

  lemma FixErrs(w: World, version: nat, code: ErrorCode, x: Inputs)
    requires w.actors == map[] && w.fix == FixOpen && x.fix == FixError(code)
    ensures LeadsTo(Set(w, ME, FixHandler(version)), x, 1, Set(w.(fix := FixEnded(code)), ME, ParkGet(code, None)))
  {
    Resets(w.(fix := FixEnded(code)), FixHandler(version), ParkGet(code, None));
    Moves(w, FixHandler(version), x, Set(w.(fix := FixEnded(code)), ME, ParkGet(code, None)));
  }

  /** The fix agent fails, and its error is what the task will be parked for. */
  lemma FixFails(w: World, x: Inputs) returns (w': World)
    requires w.actors == map[] && w.patches == map[] && w.fix == NoFix && !x.missing && x.fix.FixError?
    ensures w' == w.(fix := FixEnded(x.fix.code))
    ensures LeadsTo(Set(w, ME, FixExecute), x, 3, Set(w', ME, ParkGet(x.fix.code, None)))
  {
    var w1 := w.(fix := FixOpen);
    w' := w.(fix := FixEnded(x.fix.code));
    Executes(w, x);
    Builds(w1, x);
    FixErrs(w1, 1, x.fix.code, x);
    Onto(Set(w, ME, FixExecute), x, 1, Set(w1, ME, FixBuild), 1, Set(w1, ME, FixHandler(1)));
    Onto(Set(w, ME, FixExecute), x, 2, Set(w1, ME, FixHandler(1)), 1, Set(w', ME, ParkGet(x.fix.code, None)));
  }

  lemma FindsNothingListed(w: World, x: Inputs)
    requires w.actors == map[] && x.missing
    ensures LeadsTo(Set(w, ME, FixExecute), x, 1, Set(w, ME, ParkGet(ArtifactSchemaInvalid, None)))
  {
    Resets(w, FixExecute, ParkGet(ArtifactSchemaInvalid, None));
    Moves(w, FixExecute, x, Set(w, ME, ParkGet(ArtifactSchemaInvalid, None)));
  }

  /** The candidate becomes the task's patch; one that drifts parks the task. */
  lemma RecordsPatch(w: World, x: Inputs) returns (w': World)
    requires w.actors == map[] && w.patches == map[]
    ensures w' == w.(patches := OnePatch(x))
    ensures LeadsTo(Set(w, ME, FixRecord(Candidate(1, HashOf(x)))), x, 1,
                    Set(w', ME, if x.drift then ParkGet(ScopeDrift, None) else FixFinish(x.id)))
  {
    w' := w.(patches := OnePatch(x));
    var after := if x.drift then ParkGet(ScopeDrift, None) else FixFinish(x.id);
    Resets(w', FixRecord(Candidate(1, HashOf(x))), after);
    Moves(w, FixRecord(Candidate(1, HashOf(x))), x, Set(w', ME, after));
  }

  /** The lengths of the keys that carry the patch version. */
  lemma KeyLengths()
    ensures |Tagged("enter_testing", 1)| == 16 && |Tagged("enter_pending_approval", 1)| == 25 && |Tagged("merged", 1)| == 9
  {
    assert |Decimal.Print(1)| == 1;
  }

  lemma FinishFixIssues(w: World, x: Inputs)
    requires w.actors == map[] && w.h.row.status == Fixing && w.patches == OnePatch(x)
    ensures LeadsTo(Set(w, ME, FixFinish(x.id)), x, 1,
                    Set(w, ME, Issue(Intend(w.h.row.version, To(Testing).(activePatch := Some(x.id)), Tagged("enter_testing", 1)),
                                     NoEffect, AfterTesting)))
  {
    var issue := Issue(Intend(w.h.row.version, To(Testing).(activePatch := Some(x.id)), Tagged("enter_testing", 1)), NoEffect, AfterTesting);
    Resets(w, FixFinish(x.id), issue);
    Moves(w, FixFinish(x.id), x, Set(w, ME, issue));
  }

  /** The patch goes to the tests. */
  lemma EntersTesting(w: World, x: Inputs) returns (w': World)
    requires Resting(w, Fixing, {15, 8, 12}) && w.patches == OnePatch(x)
    ensures LeadsTo(Set(w, ME, FixFinish(x.id)), x, 3, Set(w', ME, VerifyGet))
    ensures Resting(w', Testing, {15, 8, 12, 16}) && w' == w.(h := w'.h) && w'.h.row.activePatch == Some(x.id)
  {
    KeyLengths();
    FinishFixIssues(w, x);
    w' := Advances(w, FixFinish(x.id), x, Fixing, {15, 8, 12}, Testing,
                   To(Testing).(activePatch := Some(x.id)), Tagged("enter_testing", 1), AfterTesting);
  }

  function Evidence(x: Inputs): VerifyEvidence
    requires x.verdict.VerifyMeasured?
  {
    Assess(1, HashOf(x), x.verdict.preScanOk, x.verdict.measured)
  }

  lemma Submits(w: World, x: Inputs)
    requires w.actors == map[] && w.patches == OnePatch(x) && w.verify == NoVerify && w.h.row.activePatch == Some(x.id)
    ensures LeadsTo(Set(w, ME, VerifyGet), x, 1,
                    Set(w.(verify := VerifyOpen(Candidate(1, HashOf(x)))), ME, VerifyHandler(x.id, Candidate(1, HashOf(x)))))
  {
    var input := Candidate(1, HashOf(x));
    Resets(w.(verify := VerifyOpen(input)), VerifyGet, VerifyHandler(x.id, input));
    Moves(w, VerifyGet, x, Set(w.(verify := VerifyOpen(input)), ME, VerifyHandler(x.id, input)));
  }

  lemma Measures(w: World, input: Candidate, e: VerifyEvidence, x: Inputs)
    requires w.actors == map[] && w.verify.VerifyOpen? && x.verdict.VerifyMeasured?
    requires e == Assess(input.version, input.hash, x.verdict.preScanOk, x.verdict.measured)
    ensures LeadsTo(Set(w, ME, VerifyHandler(x.id, input)), x, 1, Set(w.(verify := VerifyDone(e)), ME, VerifyRecord(x.id, e)))
  {
    Resets(w.(verify := VerifyDone(e)), VerifyHandler(x.id, input), VerifyRecord(x.id, e));
    Moves(w, VerifyHandler(x.id, input), x, Set(w.(verify := VerifyDone(e)), ME, VerifyRecord(x.id, e)));
  }

  function AfterEvidence(id: PatchId, e: VerifyEvidence): Actor {
    if e.sufficient then VerifyFinish(id, e) else ParkGet(GateFailure(e), Some(e))
  }

  lemma Records(w: World, e: VerifyEvidence, x: Inputs)
    requires w.actors == map[] && w.patches == OnePatch(x) && !x.drift
    ensures LeadsTo(Set(w, ME, VerifyRecord(x.id, e)), x, 1, Set(w, ME, AfterEvidence(x.id, e)))
  {
    Resets(w, VerifyRecord(x.id, e), AfterEvidence(x.id, e));
    assert w.patches[x.id := w.patches[x.id].(scopeDrift := false)] == w.patches;
    Moves(w, VerifyRecord(x.id, e), x, Set(w, ME, AfterEvidence(x.id, e)));
  }

  /** The verify agent measures the patch, and the evidence is on record. */
  lemma RecordsEvidence(w: World, x: Inputs) returns (w': World)
    requires w.actors == map[] && w.patches == OnePatch(x) && !x.drift && x.verdict.VerifyMeasured?
    requires w.verify == NoVerify && w.h.row.activePatch == Some(x.id)
    ensures w' == w.(verify := VerifyDone(Evidence(x)))
    ensures LeadsTo(Set(w, ME, VerifyGet), x, 3, Set(w', ME, AfterEvidence(x.id, Evidence(x))))
  {
    var e, input := Evidence(x), Candidate(1, HashOf(x));
    var w1 := w.(verify := VerifyOpen(input));
    w' := w.(verify := VerifyDone(e));
    Submits(w, x);
    Measures(w1, input, e, x);
    Records(w', e, x);
    Onto(Set(w, ME, VerifyGet), x, 1, Set(w1, ME, VerifyHandler(x.id, input)), 1, Set(w', ME, VerifyRecord(x.id, e)));
    Onto(Set(w, ME, VerifyGet), x, 2, Set(w', ME, VerifyRecord(x.id, e)), 1, Set(w', ME, AfterEvidence(x.id, e)));
  }

  lemma FinishVerifyIssues(w: World, x: Inputs, e: VerifyEvidence)
    requires w.actors == map[] && w.h.row.status == Testing && w.patches == OnePatch(x)
    ensures LeadsTo(Set(w, ME, VerifyFinish(x.id, e)), x, 1,
                    Set(w, ME, Issue(Intend(w.h.row.version, GateChanges(e),
                                            Tagged("enter_pending_approval", 1)), NoEffect, Stop)))
  {
    var issue := Issue(Intend(w.h.row.version, GateChanges(e),
                              Tagged("enter_pending_approval", 1)), NoEffect, Stop);
    Resets(w, VerifyFinish(x.id, e), issue);
    Moves(w, VerifyFinish(x.id, e), x, Set(w, ME, issue));
  }

  /** Sufficient evidence opens the gate. */
  lemma OpensGate(w: World, x: Inputs, e: VerifyEvidence) returns (w': World)
    requires Resting(w, Testing, {15, 8, 12, 16}) && w.patches == OnePatch(x)
    ensures LeadsTo(Set(w, ME, VerifyFinish(x.id, e)), x, 3, w')
    ensures Resting(w', PendingApproval, {15, 8, 12, 16, 25}) && w' == w.(h := w'.h)
    ensures w'.h.row.summary == Summary(Some(e))
  {
    KeyLengths();
    FinishVerifyIssues(w, x, e);
    w' := Advances(w, VerifyFinish(x.id, e), x, Testing, {15, 8, 12, 16}, PendingApproval,
                   GateChanges(e), Tagged("enter_pending_approval", 1), Stop);
  }

  function GateChanges(e: VerifyEvidence): Changes {
    To(PendingApproval).(summary := Some(Summary(Some(e))))
  }

  lemma VerifyErrs(w: World, input: Candidate, code: ErrorCode, x: Inputs)
    requires w.actors == map[] && w.verify.VerifyOpen? && x.verdict == VerifyError(code)
    ensures LeadsTo(Set(w, ME, VerifyHandler(x.id, input)), x, 1, Set(w.(verify := VerifyEnded(code)), ME, ParkGet(code, None)))
  {
    Resets(w.(verify := VerifyEnded(code)), VerifyHandler(x.id, input), ParkGet(code, None));
    Moves(w, VerifyHandler(x.id, input), x, Set(w.(verify := VerifyEnded(code)), ME, ParkGet(code, None)));
  }

  /** The verify agent fails, and its error is what the task will be parked for. */
  lemma VerifyFails(w: World, x: Inputs) returns (w': World)
    requires w.actors == map[] && w.patches == OnePatch(x) && x.verdict.VerifyError?
    requires w.verify == NoVerify && w.h.row.activePatch == Some(x.id)
    ensures w' == w.(verify := VerifyEnded(x.verdict.code))
    ensures LeadsTo(Set(w, ME, VerifyGet), x, 2, Set(w', ME, ParkGet(x.verdict.code, None)))
  {
    var input := Candidate(1, HashOf(x));
    var w1 := w.(verify := VerifyOpen(input));
    w' := w.(verify := VerifyEnded(x.verdict.code));
    Submits(w, x);
    VerifyErrs(w1, input, x.verdict.code, x);
    Onto(Set(w, ME, VerifyGet), x, 1, Set(w1, ME, VerifyHandler(x.id, input)), 1, Set(w', ME, ParkGet(x.verdict.code, None)));
  }

  lemma ParkIssues(w: World, found: Option<VerifyEvidence>, code: ErrorCode, x: Inputs)
    requires w.actors == map[]
    ensures LeadsTo(Set(w, ME, ParkGet(code, found)), x, 1,
                    Set(w, ME, Issue(Intend(w.h.row.version, ParkChanges(code, found), "park:" + CodeText(code)), NoEffect, StopQuietly)))
  {
    var issue := Issue(Intend(w.h.row.version, ParkChanges(code, found), "park:" + CodeText(code)), NoEffect, StopQuietly);
    Resets(w, ParkGet(code, found), issue);
    Moves(w, ParkGet(code, found), x, Set(w, ME, issue));
  }

  /** Invalid input fails a task; any other error sends it to a person. */
  function ErrorTarget(code: ErrorCode): ParentStatus {
    if code == InvalidInput then Failed else NeedsHuman
  }

  /** The row carries the code of the error. */
  predicate Shows(row: Row, code: ErrorCode) {
    "error_code" in row.texts && row.texts["error_code"] == CodeText(code)
  }

  /** An error parks the task, with the evidence if there is any. */
  lemma Parks(w: World, from: ParentStatus, lengths: set<nat>, code: ErrorCode, found: Option<VerifyEvidence>, x: Inputs)
    returns (w': World)
    requires Resting(w, from, lengths) && ParentEdge(from, NeedsHuman) && ParentEdge(from, Failed)
    ensures LeadsTo(Set(w, ME, ParkGet(code, found)), x, 3, w')
    ensures w'.actors == map[] && w'.h.row.status == ErrorTarget(code) && Shows(w'.h.row, code) && w' == w.(h := w'.h)
    ensures found.Some? ==> w'.h.row.summary == Summary(found)
  {
    ParkIssues(w, found, code, x);
    ParkTargets(code);
    var key := "park:" + CodeText(code);
    assert key[0] == 'p';
    w' := Advances(w, ParkGet(code, found), x, from, lengths, ErrorTarget(code), ParkChanges(code, found), key, StopQuietly);
  }

  // ---- What the inputs decide ---------------------------------------------------------------------------------------

  /** The error a run ends with, if it ends with one: nothing listed, what the fix agent fails with, a patch out of scope, what
      the verify agent fails with, or the gate. */
  function Trouble(x: Inputs): Option<ErrorCode> {
    if x.offline || !x.fixable then None
    else if x.missing then Some(ArtifactSchemaInvalid)
    else
      match x.fix
      case FixError(code) => Some(code)
      case FixProduced(_) =>
        if x.drift then Some(ScopeDrift)
        else
          match x.verdict
          case VerifyError(code) => Some(code)
          case VerifyMeasured(_, _) => if Evidence(x).sufficient then None
            else Some(if !Evidence(x).preScanOk then SandboxViolation else if Evidence(x).testGap then TestGap else QualityGateFailed)
  }

  function Outcome(x: Inputs): ParentStatus {
    if x.offline || !x.fixable then Rejected
    else
      match Trouble(x)
      case None => PendingApproval
      case Some(code) => ErrorTarget(code)
  }

  predicate HasPatch(x: Inputs) {
    !x.offline && x.fixable && !x.missing && x.fix.FixProduced?
  }

  predicate IsMeasured(x: Inputs) {
    HasPatch(x) && !x.drift && x.verdict.VerifyMeasured?
  }

  /** How a run rests. */
  ghost predicate RestsAs(w: World, x: Inputs) {
    && w.actors == map[] && w.approvals == map[] && w.h.row.status == Outcome(x)
    && (HasPatch(x) ==> w.patches == OnePatch(x))
    && (IsMeasured(x) ==> w.h.row.summary == Summary(Some(Evidence(x))))
    && (Trouble(x).Some? ==> Shows(w.h.row, Trouble(x).value))
    && (Outcome(x) == PendingApproval ==> Resting(w, PendingApproval, {15, 8, 12, 16, 25}))
  }

  /** From the tests on. */
  lemma GateDecides(w: World, x: Inputs) returns (w': World, k: nat)
    requires Resting(w, Testing, {15, 8, 12, 16}) && w.patches == OnePatch(x) && HasPatch(x) && !x.drift
    requires w.verify == NoVerify && w.h.row.activePatch == Some(x.id) && w.approvals == map[]
    ensures k <= 6 && LeadsTo(Set(w, ME, VerifyGet), x, k, w') && RestsAs(w', x)
  {
    if x.verdict.VerifyError? {
      k := 5;
      var w1 := VerifyFails(w, x);
      w' := Parks(w1, Testing, {15, 8, 12, 16}, x.verdict.code, None, x);
      Onto(Set(w, ME, VerifyGet), x, 2, Set(w1, ME, ParkGet(x.verdict.code, None)), 3, w');
    } else {
      k := 6;
      var e := Evidence(x);
      var w1 := RecordsEvidence(w, x);
      if e.sufficient {
        w' := OpensGate(w1, x, e);
      } else {
        w' := Parks(w1, Testing, {15, 8, 12, 16}, GateFailure(e), Some(e), x);
      }
      Onto(Set(w, ME, VerifyGet), x, 3, Set(w1, ME, AfterEvidence(x.id, e)), 3, w');
    }
  }

  /** From the fix agent's patch on. */
  lemma PatchDecides(w: World, x: Inputs) returns (w': World, k: nat)
    requires Resting(w, Fixing, {15, 8, 12}) && w.patches == OnePatch(x) && HasPatch(x)
    requires w.verify == NoVerify && w.approvals == map[]
    ensures k <= 9 && LeadsTo(Set(w, ME, if x.drift then ParkGet(ScopeDrift, None) else FixFinish(x.id)), x, k, w')
    ensures RestsAs(w', x)
  {
    if x.drift {
      k := 3;
      w' := Parks(w, Fixing, {15, 8, 12}, ScopeDrift, None, x);
    } else {
      var j;
      var w1 := EntersTesting(w, x);
      w', j := GateDecides(w1, x);
      k := 3 + j;
      Onto(Set(w, ME, FixFinish(x.id)), x, 3, Set(w1, ME, VerifyGet), j, w');
    }
  }

  /** From the fix agent's answer on. */
  lemma AnswerDecides(w: World, x: Inputs) returns (w': World, k: nat)
    requires Resting(w, Fixing, {15, 8, 12}) && w == Start("coordinator").(h := w.h) && !x.offline && x.fixable && !x.missing
    ensures k <= 13 && LeadsTo(Set(w, ME, FixExecute), x, k, w') && RestsAs(w', x)
  {
    if x.fix.FixError? {
      k := 6;
      var w1 := FixFails(w, x);
      w' := Parks(w1, Fixing, {15, 8, 12}, x.fix.code, None, x);
      Onto(Set(w, ME, FixExecute), x, 3, Set(w1, ME, ParkGet(x.fix.code, None)), 3, w');
    } else {
      var c := Candidate(1, HashOf(x));
      var w1 := FixAnswered(w, x);
      var w2 := RecordsPatch(w1, x);
      var after := if x.drift then ParkGet(ScopeDrift, None) else FixFinish(x.id);
      var j;
      Onto(Set(w, ME, FixExecute), x, 3, Set(w1, ME, FixRecord(c)), 1, Set(w2, ME, after));
      w', j := PatchDecides(w2, x);
      k := 4 + j;
      Onto(Set(w, ME, FixExecute), x, 4, Set(w2, ME, after), j, w');
    }
  }

  lemma ListDecides(w: World, x: Inputs) returns (w': World, k: nat)
    requires Resting(w, Fixing, {15, 8, 12}) && w == Start("coordinator").(h := w.h) && !x.offline && x.fixable
    ensures k <= 13 && LeadsTo(Set(w, ME, FixExecute), x, k, w') && RestsAs(w', x)
  {
    if x.missing {
      k := 4;
      FindsNothingListed(w, x);
      w' := Parks(w, Fixing, {15, 8, 12}, ArtifactSchemaInvalid, None, x);
      Onto(Set(w, ME, FixExecute), x, 1, Set(w, ME, ParkGet(ArtifactSchemaInvalid, None)), 3, w');
    } else {
      w', k := AnswerDecides(w, x);
    }
  }

  /** From the fix on. */
  lemma FixDecides(w: World, x: Inputs) returns (w': World, k: nat)
    requires Resting(w, Reviewed, {15, 8}) && w == Start("coordinator").(h := w.h)
    ensures k <= 16 && LeadsTo(Set(w, ME, FixGet), x, k, w') && RestsAs(w', x)
  {
    if x.offline || !x.fixable {
      k := 3;
      w' := Rejects(w, x);
    } else {
      var j;
      var w1 := BeginsFix(w, x);
      w', j := ListDecides(w1, x);
      k := 3 + j;
      Onto(Set(w, ME, FixGet), x, 3, Set(w1, ME, FixExecute), j, w');
    }
  }

  lemma WholeRunIs(x: Inputs, n: nat, first: World, w: World)
    requires Started(Start("coordinator"), x.auto, x, n) == first
    requires if x.auto then w == first else Started(first, false, x, n) == w
    ensures WholeRun(x, n) == w
  {
  }

  /** The first run goes all the way. */
  lemma FirstRunRests(x: Inputs, n: nat) returns (w': World)
    requires x.auto && n >= 40
    ensures Started(Start("coordinator"), true, x, n) == w' && RestsAs(w', x)
  {
    var w := FirstRun(x);
    var k;
    w', k := FixDecides(w, x);
    Onto(Set(Start("coordinator"), ME, RunGet(true)), x, 6, Set(w, ME, FixGet), k, w');
    StartedRests(Start("coordinator"), true, x, 6 + k, w', n);
  }

  /** The first run stops behind the review. */
  lemma ReviewRests(x: Inputs, n: nat) returns (w: World)
    requires !x.auto && n >= 40
    ensures Started(Start("coordinator"), false, x, n) == w
    ensures Resting(w, Reviewed, {15, 8}) && w == Start("coordinator").(h := w.h)
  {
    w := FirstRun(x);
    StartedRests(Start("coordinator"), false, x, 6, w, n);
  }

  lemma SecondRunRests(w: World, x: Inputs, n: nat) returns (w': World)
    requires Resting(w, Reviewed, {15, 8}) && w == Start("coordinator").(h := w.h) && n >= 40
    ensures Started(w, false, x, n) == w' && RestsAs(w', x)
  {
    var k;
    w', k := FixDecides(w, x);
    ReadsReviewed(w, x);
    Onto(Set(w, ME, RunGet(false)), x, 1, Set(w, ME, FixGet), k, w');
    StartedRests(w, false, x, 1 + k, w', n);
  }

  lemma WholeRunRests(x: Inputs, n: nat) returns (w: World)
    requires n >= 40
    ensures WholeRun(x, n) == w && RestsAs(w, x)
  {
    if x.auto {
      w := FirstRunRests(x, n);
      WholeRunIs(x, n, w, w);
    } else {
      var first := ReviewRests(x, n);
      w := SecondRunRests(first, x, n);
      WholeRunIs(x, n, first, w);
    }
  }

  /** For every mode, every answer of the agents and every measurement, the undisturbed run of a new task comes to rest
      within 40 steps. It waits at PENDING_APPROVAL exactly when it may fix, has something to fix, both agents answer, the patch
      stays in scope and the evidence is sufficient; it is rejected exactly when it may not or cannot fix; otherwise it failed
      for invalid input or waits for a person, and shows the code of the error that stopped it. Once measured, the evidence is
      in its summary. */
  lemma InputsDecide(x: Inputs, n: nat)
    requires n >= 40
    ensures var w := WholeRun(x, n);
            && w.actors == map[] && w.approvals == map[]
            && (w.h.row.status == Rejected <==> x.offline || !x.fixable)
            && (w.h.row.status == PendingApproval <==>
                  !x.offline && x.fixable && !x.missing && x.fix.FixProduced? && !x.drift && x.verdict.VerifyMeasured?
                  && Evidence(x).sufficient)
            && (w.h.row.status == Failed <==> Trouble(x) == Some(InvalidInput))
            && (w.h.row.status == NeedsHuman <==> Trouble(x).Some? && Trouble(x) != Some(InvalidInput))
            && (Trouble(x).Some? ==> Shows(w.h.row, Trouble(x).value))
            && (HasPatch(x) ==> w.patches == OnePatch(x))
            && (IsMeasured(x) ==> w.h.row.summary == Summary(Some(Evidence(x))))
    ensures RestsAs(WholeRun(x, n), x)
  {
    var w := WholeRunRests(x, n);
  }

  // ---- A task resumed to the tests without a patch ------------------------------------------------------------------------

  lemma FindsNoPatch(w: World, auto: bool, x: Inputs)
    requires w.actors == map[] && w.h.row.status == Testing && w.h.row.activePatch.None? && w.patches == map[]
    ensures LeadsTo(Set(w, ME, RunGet(auto)), x, 2, Set(w, ME, ParkGet(PatchInvalid, None)))
  {
    Resets(w, RunGet(auto), VerifyGet);
    Moves(w, RunGet(auto), x, Set(w, ME, VerifyGet));
    Resets(w, VerifyGet, ParkGet(PatchInvalid, None));
    Moves(w, VerifyGet, x, Set(w, ME, ParkGet(PatchInvalid, None)));
    Onto(Set(w, ME, RunGet(auto)), x, 1, Set(w, ME, VerifyGet), 1, Set(w, ME, ParkGet(PatchInvalid, None)));
  }

  lemma ParksAnywhere(w: World, code: ErrorCode, changes: Changes, key: Key, x: Inputs) returns (w': World)
    requires w.actors == map[] && w.h.row.owner == "coordinator" && !KeyUsed(w.h.log, key) && key == "park:" + CodeText(code)
    requires changes == ParkChanges(code, None) && ParentEdge(w.h.row.status, ParkTarget(code))
    ensures LeadsTo(Set(w, ME, ParkGet(code, None)), x, 3, w')
    ensures w'.actors == map[] && Updated(w.h.row, changes, w'.h.row)
  {
    var cmd, v := Intend(w.h.row.version, changes, key), Derive(w.h.row, changes);
    w' := w.(h := Swap(w.h, cmd, v));
    WriteUpdates(w.h.row, changes);
    ParkIssues(w, None, code, x);
    FirstHalfMoves(w, cmd, StopQuietly, x);
    SecondHalfMoves(w, cmd, v, StopQuietly, w', x);
    Onto(Set(w, ME, ParkGet(code, None)), x, 1, Set(w, ME, Issue(cmd, NoEffect, StopQuietly)), 1,
         Set(w, ME, Swapping(cmd, v, NoEffect, StopQuietly)));
    Onto(Set(w, ME, ParkGet(code, None)), x, 2, Set(w, ME, Swapping(cmd, v, NoEffect, StopQuietly)), 1, w');
  }

  /** A run that finds a task in the tests without any patch parks it with PATCH_INVALID, whatever came before. */
  lemma NothingToTest(w: World, auto: bool, x: Inputs, n: nat)
    requires w.actors == map[] && w.h.row.status == Testing && w.h.row.activePatch.None? && w.patches == map[]
    requires w.h.row.owner == "coordinator" && !KeyUsed(w.h.log, "park:" + CodeText(PatchInvalid)) && n >= 5
    ensures var w' := Started(w, auto, x, n);
            w'.actors == map[] && w'.h.row.status == NeedsHuman && Shows(w'.h.row, PatchInvalid)
  {
    var changes := ParkChanges(PatchInvalid, None);
    FindsNoPatch(w, auto, x);
    var w' := ParksAnywhere(w, PatchInvalid, changes, "park:" + CodeText(PatchInvalid), x);
    Onto(Set(w, ME, RunGet(auto)), x, 2, Set(w, ME, ParkGet(PatchInvalid, None)), 3, w');
    StartedRests(w, auto, x, 5, w', n);
    assert "error_code" in changes.texts;
  }

  // ---- Behind the gate ------------------------------------------------------------------------------------------------

  /** The approval of a patch that waits for it. */
  lemma Approves(w: World, x: Inputs) returns (w': World)
    requires w.actors == map[] && w.h.row.status == PendingApproval && w.patches == OnePatch(x) && !x.drift && w.approvals == map[]
    ensures w' == w.(approvals := map[ApprovalRef(x.id, 1) := Approval(true, HashOf(x), "approver")])
    ensures Becomes(w, ToApprove(x.id, 1), w')
  {
    ApprovalRuns(w, x.id, 1, true, "approver", true, true);
    w' := w.(approvals := map[ApprovalRef(x.id, 1) := Approval(true, HashOf(x), "approver")]);
  }

  lemma MergeKeyIsFree(log: seq<Entry>)
    requires KeysWithin(log, {15, 8, 12, 16, 25})
    ensures !KeyUsed(log, Tagged("merged", 1))
  {
    KeyLengths();
  }

  lemma NoResumeAppended(log: seq<Entry>, later: seq<Entry>)
    requires NoResume(log) && log <= later && |later| == |log| + 1 && !later[|log|].resume
    ensures NoResume(later)
  {
    assert forall i :: 0 <= i < |log| ==> later[i] == log[i];
  }

  /** The merge of an approved patch. */
  lemma Merges(w: World, x: Inputs) returns (w': World)
    requires Resting(w, PendingApproval, {15, 8, 12, 16, 25}) && w.patches == OnePatch(x) && Approved(w, x.id, 1)
    ensures Becomes(w, ToMerge(x.id, 1), w')
    ensures w'.h.row.status == Merged && NoResume(w'.h.log)
    ensures w'.patches.Keys == {x.id} && w'.patches[x.id].applied && w'.patches[x.id].hash == HashOf(x)
  {
    MergeKeyIsFree(w.h.log);
    w' := MergeGoes(w, x.id);
    NoResumeAppended(w.h.log, w'.h.log);
  }

  lemma {:induction false} RunBecomes(w: World, actions: seq<Action>)
    ensures Becomes(w, actions, Run(w, actions))
  {
    forall rest: seq<Action> ensures Run(w, actions + rest) == Run(Run(w, actions), rest) {
      RunAppend(w, actions, rest);
    }
  }

  lemma {:induction false} RunAppend(w: World, first: seq<Action>, second: seq<Action>)
    ensures Run(w, first + second) == Run(Run(w, first), second)
    decreases |first|
  {
    if first == [] {
      assert first + second == second;
    } else {
      assert (first + second)[0] == first[0] && (first + second)[1..] == first[1..] + second;
      RunAppend(Step(w, first[0]), first[1..], second);
    }
  }

  lemma RunStarts(w: World, a: Action, rest: seq<Action>)
    ensures Run(w, [a] + rest) == Run(Step(w, a), rest)
  {
    assert ([a] + rest)[1..] == rest;
  }

  /** What a led run does. */
  ghost function Deeds(w: World, next: Actor -> Action, n: nat): seq<Action>
    decreases n
  {
    if n == 0 || ME !in w.actors then []
    else [next(w.actors[ME])] + Deeds(Step(w, next(w.actors[ME])), next, n - 1)
  }

  lemma {:induction false} LedIsRun(w: World, next: Actor -> Action, n: nat)
    ensures Run(w, Deeds(w, next, n)) == Led(w, next, n)
    decreases n
  {
    if n > 0 && ME in w.actors {
      var a := next(w.actors[ME]);
      LedIsRun(Step(w, a), next, n - 1);
      RunStarts(w, a, Deeds(Step(w, a), next, n - 1));
    }
  }

  /** An undisturbed run is one of the pipeline's runs. */
  lemma UndisturbedIsRun(w: World, x: Inputs, n: nat) returns (actions: seq<Action>)
    ensures Run(w, actions) == Undisturbed(w, x, n)
  {
    actions := Deeds(w, (s: Actor) => NextAction(s, x), n);
    LedIsRun(w, (s: Actor) => NextAction(s, x), n);
  }

  lemma StartedIsRun(w: World, auto: bool, x: Inputs, n: nat) returns (actions: seq<Action>)
    ensures Becomes(w, actions, Started(w, auto, x, n))
  {
    var w1 := Step(w, StartRun(ME, auto));
    var rest := UndisturbedIsRun(w1, x, n);
    actions := [StartRun(ME, auto)] + rest;
    RunStarts(w, StartRun(ME, auto), rest);
    RunBecomes(w, actions);
  }

  lemma WholeRunIsRun(x: Inputs, n: nat) returns (actions: seq<Action>)
    ensures Becomes(Start("coordinator"), actions, WholeRun(x, n))
  {
    var w0 := Start("coordinator");
    var w1 := Started(w0, x.auto, x, n);
    actions := StartedIsRun(w0, x.auto, x, n);
    if !x.auto {
      var second := StartedIsRun(w1, false, x, n);
      Then(w0, actions, w1, second, WholeRun(x, n));
      actions := actions + second;
    }
  }

  /** Every patch in scope whose evidence is sufficient can be merged, with no resume on the way: the conditions that a
      merged task is known to meet are not only necessary. */
  lemma EverySufficientPatchCanMerge(x: Inputs) returns (actions: seq<Action>)
    requires HasPatch(x) && !x.drift && x.verdict.VerifyMeasured? && Evidence(x).sufficient
    ensures var w := Run(Start("coordinator"), actions);
            && w.h.row.status == Merged && NoResume(w.h.log)
            && w.patches.Keys == {x.id} && w.patches[x.id].applied && w.patches[x.id].hash == HashOf(x)
  {
    var w0, w := Start("coordinator"), WholeRun(x, 40);
    var before := WholeRunIsRun(x, 40);
    InputsDecide(x, 40);
    var w1 := Approves(w, x);
    var w2 := Merges(w1, x);
    Then(w0, before, w, ToApprove(x.id, 1), w1);
    Then(w0, before + ToApprove(x.id, 1), w1, ToMerge(x.id, 1), w2);
    actions := before + ToApprove(x.id, 1) + ToMerge(x.id, 1);
    Comes(w0, actions, w2);
  }
}
