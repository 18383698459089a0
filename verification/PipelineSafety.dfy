/** What holds of the pipeline in every reachable state: nothing is merged without the one approval of the
    one patch, and without a human resume nothing is merged whose evidence was not sufficient. */
module PipelineSafety {
  import opened Wrappers
  import opened StateMachine
  import opened QualityGate
  import opened ReviewStore
  import opened Pipeline

  /** The status after the first n log entries. */
  function StatusAfter(first: ParentStatus, log: seq<Entry>, n: nat): ParentStatus
    requires n <= |log|
  {
    if n == 0 then first
    else if log[n - 1].changes.status.Some? then log[n - 1].changes.status.value
    else StatusAfter(first, log, n - 1)
  }

  lemma {:induction false} StatusAfterPrefix(first: ParentStatus, log: seq<Entry>, later: seq<Entry>, n: nat)
    requires log <= later && n <= |log|
    ensures StatusAfter(first, later, n) == StatusAfter(first, log, n)
  {
    if n > 0 {
      assert later[n - 1] == log[n - 1];
      StatusAfterPrefix(first, log, later, n - 1);
    }
  }

  /** Sufficient evidence about exactly this candidate. */
  ghost predicate Proves(e: VerifyEvidence, fix: FixChild) {
    e.sufficient && Assessed(e) && fix.FixDone? && e.patchHash == fix.candidate.hash && e.patchVersion == fix.candidate.version
  }

  ghost predicate CarriesProof(c: Changes, fix: FixChild) {
    c.summary.Some? && c.summary.value.evidence.Some? && Proves(c.summary.value.evidence.value, fix)
  }

  predicate WasPending(h: History, version: nat) {
    1 <= version <= |h.log| + 1 && StatusAfter(h.first.status, h.log, version - 1) == PendingApproval
  }

  // ---- Invariant -----------------------------------------------------------------------------------

  /** Entries of the log: the gate is passed with proof or by a resume, the merge starts from the gate. */
  ghost predicate EntryOk(w: World, i: nat)
    requires i < |w.h.log|
  {
    var e := w.h.log[i];
    && (e.changes.status == Some(PendingApproval) && !e.resume ==> CarriesProof(e.changes, w.fix))
    && (e.changes.status == Some(Merged) ==> !e.resume && WasPending(w.h, i + 1))
  }

  ghost predicate HistoryOk(w: World) {
    && w.h.first.status == Draft
    && w.h.row.version == |w.h.log| + 1
    && w.h.row.status == StatusAfter(w.h.first.status, w.h.log, |w.h.log|)
    && (forall i :: 0 <= i < |w.h.log| ==> EntryOk(w, i))
  }

  /** At most one patch, and it is version 1 of what the fix child completed with. */
  ghost predicate PatchesOk(w: World) {
    && (forall p, q :: p in w.patches && q in w.patches ==> p == q)
    && (w.patches != map[] ==> w.fix.FixDone?)
    && (w.fix.FixDone? ==> w.fix.candidate.version == 1)
    && (forall p :: p in w.patches ==>
          w.patches[p].version == 1 && w.patches[p].hash == w.fix.candidate.hash && w.patches[p].key == FixKey(1))
    && (w.verify.VerifyOpen? ==> w.fix.FixDone? && w.verify.input == w.fix.candidate)
    && (w.verify.VerifyDone? ==> EvidenceOk(w, w.verify.evidence))
  }

  ghost predicate EvidenceOk(w: World, e: VerifyEvidence) {
    Assessed(e) && w.fix.FixDone? && e.patchHash == w.fix.candidate.hash && e.patchVersion == w.fix.candidate.version
  }

  predicate RefOk(w: World, ref: ApprovalRef, hash: string) {
    ref.patch in w.patches && ref.version == w.patches[ref.patch].version && hash == w.patches[ref.patch].hash
  }

  ghost predicate ApprovalsOk(w: World) {
    && (forall r :: r in w.approvals ==> RefOk(w, r, w.approvals[r].hash))
    && (forall p :: p in w.patches && w.patches[p].applied ==> Approved(w, p, w.patches[p].version))
    && (w.h.row.status == Merged ==> exists p :: p in w.patches && w.patches[p].applied)
  }

  ghost predicate CommandOk(w: World, cmd: Command, effect: Effect) {
    var target := cmd.changes.status;
    && (target == Some(Merged) ==> !cmd.resume && effect.MarkApplied? && WasPending(w.h, cmd.expected))
    && (target == Some(PendingApproval) && !cmd.resume ==> CarriesProof(cmd.changes, w.fix))
    && (effect.MarkApplied? ==> target == Some(Merged) && effect.patch in w.patches
                                && Approved(w, effect.patch, w.patches[effect.patch].version))
    && (effect.Insert? ==> RefOk(w, effect.ref, effect.approval.hash))
  }

  ghost predicate ActorOk(w: World, a: Actor) {
    match a
    case Issue(cmd, effect, _) => CommandOk(w, cmd, effect)
    case Swapping(cmd, v, effect, _) => CommandOk(w, cmd, effect) && v.changes.status == cmd.changes.status
    case FixHandler(v) => v == 1 || w.fix.FixDone?
    case FixRecord(c) => w.fix == FixDone(c)
    case FixFinish(p) => p in w.patches
    case VerifyHandler(p, c) => p in w.patches && w.fix == FixDone(c)
    case VerifyRecord(p, e) => p in w.patches && EvidenceOk(w, e)
    case VerifyFinish(p, e) => p in w.patches && Proves(e, w.fix)
    case Deciding(ref, approval, _) => RefOk(w, ref, approval.hash)
    case Merging(p, v, seen) => Approved(w, p, v) && WasPending(w.h, seen)
    case _ => true
  }

  ghost predicate ActorsOk(w: World) {
    forall a :: a in w.actors ==> ActorOk(w, w.actors[a])
  }

  ghost predicate Inv(w: World) {
    HistoryOk(w) && PatchesOk(w) && ApprovalsOk(w) && ActorsOk(w)
  }

  // ---- What a step may do to the tables ---------------------------------------------------------------

  predicate SamePatch(p: PatchRow, q: PatchRow) {
    p.version == q.version && p.hash == q.hash && p.key == q.key
  }

  /** Tables only grow: the log is appended to, patches keep their identity, approvals and artifacts stay. */
  ghost predicate Grows(w: World, w': World) {
    && w'.h.first == w.h.first && w.h.log <= w'.h.log
    && (forall p :: p in w.patches ==> p in w'.patches && SamePatch(w.patches[p], w'.patches[p]))
    && (forall r :: r in w.approvals ==> r in w'.approvals && w'.approvals[r] == w.approvals[r])
    && (w.fix.FixDone? ==> w'.fix == w.fix)
  }

  lemma WasPendingStays(h: History, h': History, version: nat)
    requires h'.first == h.first && h.log <= h'.log && WasPending(h, version)
    ensures WasPending(h', version)
  {
    StatusAfterPrefix(h.first.status, h.log, h'.log, version - 1);
  }

  lemma CommandStays(w: World, w': World, cmd: Command, effect: Effect)
    requires Grows(w, w') && CommandOk(w, cmd, effect)
    ensures CommandOk(w', cmd, effect)
  {
    if WasPending(w.h, cmd.expected) {
      WasPendingStays(w.h, w'.h, cmd.expected);
    }
  }

  lemma ActorStays(w: World, w': World, a: Actor)
    requires Grows(w, w') && ActorOk(w, a)
    ensures ActorOk(w', a)
  {
    match a
    case Issue(cmd, effect, _) => CommandStays(w, w', cmd, effect);
    case Swapping(cmd, _, effect, _) => CommandStays(w, w', cmd, effect);
    case Merging(_, _, seen) => WasPendingStays(w.h, w'.h, seen);
    case _ =>
  }

  /** All actors but one keep their state, and that one ends in a state that is accounted for. */
  ghost predicate OneMoves(w: World, w': World, actor: ActorId) {
    && (forall a :: a in w'.actors && a != actor ==> a in w.actors && w'.actors[a] == w.actors[a])
    && (actor in w'.actors ==> ActorOk(w', w'.actors[actor]))
  }

  lemma ActorsStay(w: World, w': World, actor: ActorId)
    requires ActorsOk(w) && Grows(w, w') && OneMoves(w, w', actor)
    ensures ActorsOk(w')
  {
    forall a | a in w'.actors ensures ActorOk(w', w'.actors[a]) {
      if a != actor {
        ActorStays(w, w', w.actors[a]);
      }
    }
  }

  /** A step that leaves every table alone only has to answer for its own actor. */
  lemma OnlyActorMoves(w: World, w': World, actor: ActorId)
    requires Inv(w)
    requires w' == w.(actors := w'.actors) && OneMoves(w, w', actor)
    ensures Inv(w')
  {
    ActorsStay(w, w', actor);
    forall i | 0 <= i < |w'.h.log| ensures EntryOk(w', i) {
      assert EntryOk(w, i);
    }
    forall p | p in w'.patches && w'.patches[p].applied ensures Approved(w', p, w'.patches[p].version) {
      assert Approved(w, p, w.patches[p].version);
    }
    forall r | r in w'.approvals ensures RefOk(w', r, w'.approvals[r].hash) {
      assert RefOk(w, r, w.approvals[r].hash);
    }
  }

  // ---- Steps that only move their actor ------------------------------------------------------------------

  lemma SetKeeps(w: World, actor: ActorId, state: Actor)
    requires Inv(w) && ActorOk(w, state)
    ensures Inv(Set(w, actor, state))
  {
    assert ActorOk(Set(w, actor, state), state) by {
      ActorStays(w, Set(w, actor, state), state);
    }
    OnlyActorMoves(w, Set(w, actor, state), actor);
  }

  lemma EndKeeps(w: World, actor: ActorId)
    requires Inv(w)
    ensures Inv(End(w, actor))
  {
    OnlyActorMoves(w, End(w, actor), actor);
  }

  lemma FailKeeps(w: World, actor: ActorId, state: Actor, code: ErrorCode)
    requires Inv(w)
    ensures Inv(Fail(w, actor, state, code))
  {
    EndKeeps(w, actor);
    SetKeeps(w, actor, ParkGet(code, None));
  }

  lemma DispatchKeeps(w: World, actor: ActorId, status: ParentStatus, auto: bool)
    requires Inv(w)
    ensures Inv(DispatchOn(w, actor, status, auto))
  {
    match status
    case Reviewing => SetKeeps(w, actor, ReviewWork(auto));
    case Reviewed => SetKeeps(w, actor, FixGet);
    case Fixing => SetKeeps(w, actor, FixGet);
    case Testing => SetKeeps(w, actor, VerifyGet);
    case _ => EndKeeps(w, actor);
  }

  lemma ContinueKeeps(w: World, actor: ActorId, next: Next)
    requires Inv(w)
    ensures Inv(Continue(w, actor, next))
  {
    match next
    case Dispatch(auto) => DispatchKeeps(w, actor, w.h.row.status, auto);
    case AfterReview(_) => EndKeeps(w, actor); SetKeeps(w, actor, FixGet);
    case EnterFix => SetKeeps(w, actor, FixExecute);
    case AfterTesting => EndKeeps(w, actor); SetKeeps(w, actor, VerifyGet);
    case _ => EndKeeps(w, actor);
  }

  /** An ordinary intent of the coordinator: not towards the gate, not towards MERGED. */
  lemma IssueKeeps(w: World, actor: ActorId, cmd: Command, next: Next)
    requires Inv(w) && cmd.changes.status != Some(Merged)
    requires cmd.changes.status == Some(PendingApproval) && !cmd.resume ==> CarriesProof(cmd.changes, w.fix)
    ensures Inv(Set(w, actor, Issue(cmd, NoEffect, next)))
  {
    SetKeeps(w, actor, Issue(cmd, NoEffect, next));
  }

  lemma ReadTaskKeeps(w: World, actor: ActorId, auto: bool)
    requires Inv(w)
    ensures Inv(DoReadTask(w, actor, auto))
  {
    DispatchKeeps(w, actor, w.h.row.status, auto);
    IssueKeeps(w, actor, Intend(w.h.row.version, To(Reviewing), "enter_reviewing"), Dispatch(auto));
  }

  lemma FinishReviewKeeps(w: World, actor: ActorId, auto: bool)
    requires Inv(w)
    ensures Inv(DoFinishReview(w, actor, auto))
  {
    var changes := To(Reviewed).(summary := Some(Summary(None)));
    IssueKeeps(w, actor, Intend(w.h.row.version, changes, "reviewed"), AfterReview(auto));
  }

  lemma BeginFixKeeps(w: World, actor: ActorId, offline: bool, fixable: bool)
    requires Inv(w)
    ensures Inv(DoBeginFix(w, actor, offline, fixable))
  {
    var v := w.h.row.version;
    IssueKeeps(w, actor, Intend(v, To(Rejected), "offline_stop"), Stop);
    IssueKeeps(w, actor, Intend(v, To(Rejected), "no_fix"), Stop);
    IssueKeeps(w, actor, Intend(v, To(Fixing), "enter_fixing"), EnterFix);
    SetKeeps(w, actor, FixExecute);
  }

  lemma FinishFixKeeps(w: World, actor: ActorId, patch: PatchId)
    requires Inv(w)
    ensures Inv(DoFinishFix(w, actor, patch))
  {
    EndKeeps(w, actor);
    SetKeeps(w, actor, VerifyGet);
    if patch in w.patches {
      var changes := To(Testing).(activePatch := Some(patch));
      IssueKeeps(w, actor, Intend(w.h.row.version, changes, Tagged("enter_testing", w.patches[patch].version)), AfterTesting);
    }
  }

  lemma FinishVerifyKeeps(w: World, actor: ActorId, patch: PatchId, e: VerifyEvidence)
    requires Inv(w) && Proves(e, w.fix)
    ensures Inv(DoFinishVerify(w, actor, patch, e))
  {
    EndKeeps(w, actor);
    if patch in w.patches {
      var changes := To(PendingApproval).(summary := Some(Summary(Some(e))));
      IssueKeeps(w, actor, Intend(w.h.row.version, changes, Tagged("enter_pending_approval", w.patches[patch].version)), Stop);
    }
  }

  lemma ParkKeeps(w: World, actor: ActorId, code: ErrorCode, found: Option<VerifyEvidence>)
    requires Inv(w)
    ensures Inv(DoPark(w, actor, code, found))
  {
    var changes := ParkChanges(code, found);
    IssueKeeps(w, actor, Intend(w.h.row.version, changes, "park:" + CodeText(code)), StopQuietly);
  }

  lemma ApproveKeeps(w: World, actor: ActorId, patch: PatchId, version: nat, accept: bool, decidedBy: string,
                     approver: bool, reasonBlank: bool)
    requires Inv(w)
    ensures Inv(DoApprove(w, actor, patch, version, accept, decidedBy, approver, reasonBlank))
  {
    if patch in w.patches && version == w.patches[patch].version {
      SetKeeps(w, actor, Deciding(ApprovalRef(patch, version), Approval(accept, w.patches[patch].hash, decidedBy),
                                  w.h.row.version));
    }
  }

  lemma MergeKeeps(w: World, actor: ActorId, patch: PatchId, version: nat)
    requires Inv(w)
    ensures Inv(DoMerge(w, actor, patch, version))
  {
    if Approved(w, patch, version) && w.h.row.status == PendingApproval {
      SetKeeps(w, actor, Merging(patch, version, w.h.row.version));
    }
  }

  lemma WriteBranchKeeps(w: World, actor: ActorId, patch: PatchId, version: nat, seen: nat, ok: bool)
    requires Inv(w) && Approved(w, patch, version) && WasPending(w.h, seen)
    ensures Inv(DoWriteBranch(w, actor, patch, version, seen, ok))
  {
    EndKeeps(w, actor);
    SetKeeps(w, actor, Issue(Intend(seen, To(Merged), Tagged("merged", version)), MarkApplied(patch), StopQuietly));
  }

  lemma ResumeKeeps(w: World, actor: ActorId, target: ParentStatus, expected: nat, key: Key, blank: bool)
    requires Inv(w)
    ensures Inv(DoResume(w, actor, target, expected, key, blank))
  {
    if CanHumanResume(w.h.row.status, target) {
      IssueKeeps(w, actor, ResumeCommand(w.h.row, target, expected, key), StopQuietly);
    }
  }

  // ---- Steps that write a table ------------------------------------------------------------------------------

  /** The part of the invariant that a change of the patch, approval and child tables can touch. */
  lemma TablesChange(w: World, w': World)
    requires Inv(w) && Grows(w, w') && w'.h == w.h && w'.actors == w.actors
    requires PatchesOk(w') && ApprovalsOk(w')
    ensures Inv(w')
  {
    forall i | 0 <= i < |w'.h.log| ensures EntryOk(w', i) {
      assert EntryOk(w, i);
    }
    forall a | a in w'.actors ensures ActorOk(w', w'.actors[a]) {
      ActorStays(w, w', w.actors[a]);
    }
  }

  lemma ChildrenChange(w: World, fix: FixChild, verify: VerifyChild)
    requires Inv(w) && (w.fix.FixDone? ==> fix == w.fix)
    requires PatchesOk(w.(fix := fix, verify := verify))
    ensures Inv(w.(fix := fix, verify := verify))
  {
    var w' := w.(fix := fix, verify := verify);
    forall p | p in w'.patches && w'.patches[p].applied ensures Approved(w', p, w'.patches[p].version) {
      assert Approved(w, p, w.patches[p].version);
    }
    forall r | r in w'.approvals ensures RefOk(w', r, w'.approvals[r].hash) {
      assert RefOk(w, r, w.approvals[r].hash);
    }
    TablesChange(w, w');
  }

  lemma NoPatchYet(w: World, n: nat)
    requires PatchesOk(w) && !w.fix.FixDone? && IsNextVersion(w.patches, n)
    ensures n == 1
  {
  }

  lemma ExecuteFixKeeps(w: World, actor: ActorId, missing: bool)
    requires Inv(w)
    ensures Inv(DoExecuteFix(w, actor, missing))
  {
    if missing {
      SetKeeps(w, actor, ParkGet(ArtifactSchemaInvalid, None));
    } else {
      match w.fix
      case FixDone(c) => SetKeeps(w, actor, FixRecord(c));
      case FixEnded(code) => SetKeeps(w, actor, ParkGet(code, None));
      case _ =>
        ChildrenChange(w, FixOpen, w.verify);
        SetKeeps(w.(fix := FixOpen), actor, FixBuild);
    }
  }

  lemma BuildFixKeeps(w: World, actor: ActorId)
    requires Inv(w)
    ensures Inv(DoBuildFix(w, actor))
  {
    if exists n: nat :: IsNextVersion(w.patches, n) {
      var n: nat :| IsNextVersion(w.patches, n) && DoBuildFix(w, actor) == Set(w, actor, FixHandler(n));
      if !w.fix.FixDone? {
        NoPatchYet(w, n);
      }
      SetKeeps(w, actor, FixHandler(n));
    }
  }

  lemma AnswerFixKeeps(w: World, actor: ActorId, version: nat, answer: FixAnswer)
    requires Inv(w) && (version == 1 || w.fix.FixDone?)
    ensures Inv(DoAnswerFix(w, actor, version, answer))
  {
    match w.fix
    case FixOpen =>
      if answer.FixProduced? {
        var c := Candidate(1, answer.hash);
        ChildrenChange(w, FixDone(c), w.verify);
        SetKeeps(w.(fix := FixDone(c)), actor, FixRecord(c));
      } else {
        ChildrenChange(w, FixEnded(answer.code), w.verify);
        SetKeeps(w.(fix := FixEnded(answer.code)), actor, ParkGet(answer.code, None));
      }
    case FixDone(c) =>
      SetKeeps(w, actor, ParkGet(StateVersionConflict, None));
      SetKeeps(w, actor, FixRecord(c));
    case FixEnded(code) =>
      SetKeeps(w, actor, ParkGet(StateVersionConflict, None));
      SetKeeps(w, actor, ParkGet(code, None));
    case NoFix => SetKeeps(w, actor, ParkGet(ResourceNotFound, None));
  }

  /** Flags of a patch row may change, its identity may not. */
  lemma PatchFlags(w: World, p: PatchId, row: PatchRow)
    requires Inv(w) && p in w.patches && SamePatch(w.patches[p], row) && row.applied == w.patches[p].applied
    ensures Inv(w.(patches := w.patches[p := row]))
  {
    var w' := w.(patches := w.patches[p := row]);
    forall q | q in w'.patches && w'.patches[q].applied ensures Approved(w', q, w'.patches[q].version) {
      assert Approved(w, q, w.patches[q].version);
    }
    forall r | r in w'.approvals ensures RefOk(w', r, w'.approvals[r].hash) {
      assert RefOk(w, r, w.approvals[r].hash);
    }
    if w.h.row.status == Merged {
      var q :| q in w.patches && w.patches[q].applied;
      assert q in w'.patches && w'.patches[q].applied;
    }
    TablesChange(w, w');
  }

  lemma FirstPatch(w: World, p: PatchId, row: PatchRow)
    requires Inv(w) && w.patches == map[] && w.fix.FixDone?
    requires row.version == 1 && row.hash == w.fix.candidate.hash && row.key == FixKey(1) && !row.applied
    ensures Inv(w.(patches := w.patches[p := row]))
  {
    var w' := w.(patches := w.patches[p := row]);
    forall r | r in w'.approvals ensures RefOk(w', r, w'.approvals[r].hash) {
      assert RefOk(w, r, w.approvals[r].hash);
    }
    TablesChange(w, w');
  }

  lemma RecordPatchKeeps(w: World, actor: ActorId, newId: PatchId, drift: bool)
    requires Inv(w) && w.fix.FixDone?
    ensures Inv(DoRecordPatch(w, actor, w.fix.candidate, newId, drift))
  {
    var c := w.fix.candidate;
    if exists p :: p in w.patches && w.patches[p].key == FixKey(c.version) {
      var p :| p in w.patches && w.patches[p].key == FixKey(c.version);
      var row := w.patches[p].(scopeDrift := drift);
      PatchFlags(w, p, row);
      SetKeeps(w.(patches := w.patches[p := row]), actor, if drift then ParkGet(ScopeDrift, None) else FixFinish(p));
    } else if w.patches == map[] {
      var row := PatchRow(c.version, c.hash, FixKey(c.version), drift, false);
      FirstPatch(w, newId, row);
      SetKeeps(w.(patches := w.patches[newId := row]), actor, if drift then ParkGet(ScopeDrift, None) else FixFinish(newId));
    }
  }

  lemma BeginVerifyKeeps(w: World, actor: ActorId, latest: PatchId)
    requires Inv(w)
    ensures Inv(DoBeginVerify(w, actor, latest))
  {
    SetKeeps(w, actor, ParkGet(PatchInvalid, None));
    FailKeeps(w, actor, VerifyGet, ResourceNotFound);
    var id := if w.h.row.activePatch.Some? then w.h.row.activePatch.value else latest;
    if id in w.patches {
      match w.verify
      case VerifyDone(e) => SetKeeps(w, actor, VerifyRecord(id, e));
      case VerifyEnded(code) => SetKeeps(w, actor, ParkGet(code, None));
      case VerifyOpen(input) => SetKeeps(w, actor, VerifyHandler(id, input));
      case NoVerify =>
        var input := Candidate(w.patches[id].version, w.patches[id].hash);
        ChildrenChange(w, w.fix, VerifyOpen(input));
        SetKeeps(w.(verify := VerifyOpen(input)), actor, VerifyHandler(id, input));
    }
  }

  lemma AnswerVerifyKeeps(w: World, actor: ActorId, patch: PatchId, input: Candidate, verdict: VerifyAnswer)
    requires Inv(w) && patch in w.patches && w.fix == FixDone(input)
    ensures Inv(DoAnswerVerify(w, actor, patch, input, verdict))
  {
    match w.verify
    case VerifyOpen(_) =>
      if verdict.VerifyMeasured? {
        var e := Assess(input.version, input.hash, verdict.preScanOk, verdict.measured);
        ChildrenChange(w, w.fix, VerifyDone(e));
        SetKeeps(w.(verify := VerifyDone(e)), actor, VerifyRecord(patch, e));
      } else {
        ChildrenChange(w, w.fix, VerifyEnded(verdict.code));
        SetKeeps(w.(verify := VerifyEnded(verdict.code)), actor, ParkGet(verdict.code, None));
      }
    case VerifyDone(e) =>
      SetKeeps(w, actor, ParkGet(StateVersionConflict, None));
      SetKeeps(w, actor, VerifyRecord(patch, e));
    case VerifyEnded(code) =>
      SetKeeps(w, actor, ParkGet(StateVersionConflict, None));
      SetKeeps(w, actor, ParkGet(code, None));
    case NoVerify => SetKeeps(w, actor, ParkGet(ResourceNotFound, None));
  }

  lemma RecordEvidenceKeeps(w: World, actor: ActorId, patch: PatchId, e: VerifyEvidence)
    requires Inv(w) && patch in w.patches && EvidenceOk(w, e)
    ensures Inv(DoRecordEvidence(w, actor, patch, e))
  {
    var row := w.patches[patch].(scopeDrift := false);
    var w' := w.(patches := w.patches[patch := row]);
    PatchFlags(w, patch, row);
    if e.sufficient {
      SetKeeps(w', actor, VerifyFinish(patch, e));
    } else {
      SetKeeps(w', actor, ParkGet(GateFailure(e), Some(e)));
    }
  }

  lemma InsertKeeps(w: World, ref: ApprovalRef, approval: Approval)
    requires Inv(w) && ref !in w.approvals && RefOk(w, ref, approval.hash)
    ensures Inv(w.(approvals := w.approvals[ref := approval]))
  {
    var w' := w.(approvals := w.approvals[ref := approval]);
    forall p, v | Approved(w, p, v) ensures Approved(w', p, v) {
    }
    forall r | r in w'.approvals ensures RefOk(w', r, w'.approvals[r].hash) {
    }
    TablesChange(w, w');
  }

  lemma MarkKeeps(w: World, p: PatchId)
    requires Inv(w) && p in w.patches && Approved(w, p, w.patches[p].version)
    ensures Inv(w.(patches := w.patches[p := w.patches[p].(applied := true)]))
  {
    var w' := w.(patches := w.patches[p := w.patches[p].(applied := true)]);
    forall q | q in w'.patches && w'.patches[q].applied ensures Approved(w', q, w'.patches[q].version) {
      assert Approved(w, p, w.patches[p].version);
    }
    forall r | r in w'.approvals ensures RefOk(w', r, w'.approvals[r].hash) {
      assert RefOk(w, r, w.approvals[r].hash);
    }
    if w.h.row.status == Merged {
      assert p in w'.patches && w'.patches[p].applied;
    }
    TablesChange(w, w');
  }

  lemma EffectKeeps(w: World, cmd: Command, effect: Effect)
    requires Inv(w) && CommandOk(w, cmd, effect) && EffectPossible(w, effect)
    ensures Inv(ApplyEffect(w, effect)) && ApplyEffect(w, effect).h == w.h
    ensures Grows(w, ApplyEffect(w, effect))
  {
    match effect
    case NoEffect =>
    case MarkApplied(p) => MarkKeeps(w, p);
    case Insert(ref, approval) => InsertKeeps(w, ref, approval);
  }

  lemma DecideKeeps(w: World, actor: ActorId, ref: ApprovalRef, approval: Approval, seen: nat)
    requires Inv(w) && RefOk(w, ref, approval.hash)
    ensures Inv(DoDecide(w, actor, ref, approval, seen))
  {
    EndKeeps(w, actor);
    var cmd := Intend(seen, To(Rejected), Tagged("rejected", ref.version));
    if ref in w.approvals {
      SetKeeps(w, actor, Issue(cmd, NoEffect, StopQuietly));
    } else {
      InsertKeeps(w, ref, approval);
      EndKeeps(ApplyEffect(w, Insert(ref, approval)), actor);
      SetKeeps(w, actor, Issue(cmd, Insert(ref, approval), StopQuietly));
    }
  }

  lemma ReadyStatus(h: History, cmd: Command)
    ensures Check(h, cmd).Ready? ==> Check(h, cmd).values.changes.status == cmd.changes.status
  {
  }

  lemma ReplayKeeps(w: World, actor: ActorId, cmd: Command, effect: Effect, next: Next)
    requires Inv(w) && CommandOk(w, cmd, effect) && EffectPossible(w, effect)
    ensures Inv(Continue(ApplyEffect(w, effect), actor, next))
  {
    EffectKeeps(w, cmd, effect);
    ContinueKeeps(ApplyEffect(w, effect), actor, next);
  }

  lemma ReadyKeeps(w: World, actor: ActorId, cmd: Command, v: Values, effect: Effect, next: Next)
    requires Inv(w) && CommandOk(w, cmd, effect) && v.changes.status == cmd.changes.status
    ensures Inv(Set(w, actor, Swapping(cmd, v, effect, next)))
  {
    SetKeeps(w, actor, Swapping(cmd, v, effect, next));
  }

  lemma CheckKeeps(w: World, actor: ActorId, cmd: Command, effect: Effect, next: Next)
    requires Inv(w) && CommandOk(w, cmd, effect)
    ensures Inv(DoCheck(w, actor, cmd, effect, next))
  {
    ReadyStatus(w.h, cmd);
    var verdict := Check(w.h, cmd);
    match verdict
    case Refused(code) => FailKeeps(w, actor, Issue(cmd, effect, next), code);
    case Replayed =>
      EndKeeps(w, actor);
      if EffectPossible(w, effect) {
        ReplayKeeps(w, actor, cmd, effect, next);
      }
    case Ready(v) => ReadyKeeps(w, actor, cmd, v, effect, next);
  }

  /** The log entry of a swap that went through. */
  lemma SwapKeeps(w: World, cmd: Command, v: Values)
    requires Inv(w) && w.h.row.version == cmd.expected && v.changes.status == cmd.changes.status
    requires cmd.changes.status == Some(Merged) ==>
               !cmd.resume && WasPending(w.h, cmd.expected) && exists p :: p in w.patches && w.patches[p].applied
    requires cmd.changes.status == Some(PendingApproval) && !cmd.resume ==> CarriesProof(cmd.changes, w.fix)
    ensures Inv(w.(h := Swap(w.h, cmd, v)))
  {
    var w' := w.(h := Swap(w.h, cmd, v));
    var n := |w.h.log|;
    StatusAfterPrefix(w.h.first.status, w.h.log, w'.h.log, n);
    assert w'.h.log[n].changes == cmd.changes && w'.h.log[n].resume == cmd.resume;
    forall i | 0 <= i < |w'.h.log| ensures EntryOk(w', i) {
      if i < n {
        assert EntryOk(w, i) && w'.h.log[i] == w.h.log[i];
        if w.h.log[i].changes.status == Some(Merged) {
          WasPendingStays(w.h, w'.h, i + 1);
        }
      } else if cmd.changes.status == Some(Merged) {
        WasPendingStays(w.h, w'.h, cmd.expected);
      }
    }
    forall p | p in w'.patches && w'.patches[p].applied ensures Approved(w', p, w'.patches[p].version) {
      assert Approved(w, p, w.patches[p].version);
    }
    forall r | r in w'.approvals ensures RefOk(w', r, w'.approvals[r].hash) {
      assert RefOk(w, r, w.approvals[r].hash);
    }
    forall a | a in w'.actors ensures ActorOk(w', w'.actors[a]) {
      ActorStays(w, w', w.actors[a]);
    }
  }

  lemma UpdateKeeps(w: World, actor: ActorId, cmd: Command, v: Values, effect: Effect, next: Next)
    requires Inv(w) && CommandOk(w, cmd, effect) && v.changes.status == cmd.changes.status
    ensures Inv(DoUpdate(w, actor, cmd, v, effect, next))
  {
    if w.h.row.version != cmd.expected {
      FailKeeps(w, actor, Swapping(cmd, v, effect, next), StateVersionConflict);
    } else if !EffectPossible(w, effect) {
      EndKeeps(w, actor);
    } else {
      EffectKeeps(w, cmd, effect);
      var mid := ApplyEffect(w, effect);
      CommandStays(w, mid, cmd, effect);
      if effect.MarkApplied? {
        assert effect.patch in mid.patches && mid.patches[effect.patch].applied;
      }
      SwapKeeps(mid, cmd, v);
      ContinueKeeps(mid.(h := Swap(w.h, cmd, v)), actor, next);
    }
  }

  // ---- Every run ----------------------------------------------------------------------------------------------

  lemma RunStepKeeps(w: World, a: Action)
    requires Inv(w)
    requires a.StartRun? || a.ReadTask? || a.FinishReview? || a.BeginFix? || a.ExecuteFix? || a.BuildFix? || a.AnswerFix?
             || a.RecordPatch? || a.FinishFix?
    ensures Inv(Step(w, a))
  {
    var me := StateOf(w, a.actor);
    match a
    case StartRun(actor, auto) => SetKeeps(w, actor, RunGet(auto));
    case ReadTask(actor) => if me.RunGet? { ReadTaskKeeps(w, actor, me.auto); }
    case FinishReview(actor) => if me.ReviewWork? { FinishReviewKeeps(w, actor, me.auto); }
    case BeginFix(actor, offline, fixable) => BeginFixKeeps(w, actor, offline, fixable);
    case ExecuteFix(actor, missing) => ExecuteFixKeeps(w, actor, missing);
    case BuildFix(actor) => BuildFixKeeps(w, actor);
    case AnswerFix(actor, answer) => if me.FixHandler? { AnswerFixKeeps(w, actor, me.version, answer); }
    case RecordPatch(actor, id, drift) => if me.FixRecord? { RecordPatchKeeps(w, actor, id, drift); }
    case FinishFix(actor) => if me.FixFinish? { FinishFixKeeps(w, actor, me.patch); }
  }

  lemma VerifyStepKeeps(w: World, a: Action)
    requires Inv(w)
    requires a.BeginVerify? || a.AnswerVerify? || a.RecordEvidence? || a.FinishVerify? || a.RaiseError? || a.Park?
    ensures Inv(Step(w, a))
  {
    var me := StateOf(w, a.actor);
    match a
    case BeginVerify(actor, latest) => BeginVerifyKeeps(w, actor, latest);
    case AnswerVerify(actor, verdict) =>
      if me.VerifyHandler? { AnswerVerifyKeeps(w, actor, me.patch, me.input, verdict); }
    case RecordEvidence(actor) => if me.VerifyRecord? { RecordEvidenceKeeps(w, actor, me.patch, me.evidence); }
    case FinishVerify(actor) => if me.VerifyFinish? { FinishVerifyKeeps(w, actor, me.patch, me.evidence); }
    case RaiseError(actor, code) => FailKeeps(w, actor, me, code);
    case Park(actor) => if me.ParkGet? { ParkKeeps(w, actor, me.code, me.found); }
  }

  lemma PeopleStepKeeps(w: World, a: Action)
    requires Inv(w)
    requires a.Approve? || a.Decide? || a.Merge? || a.WriteBranch? || a.Resume? || a.CheckIntent? || a.Update? || a.Crash?
    ensures Inv(Step(w, a))
  {
    var me := StateOf(w, a.actor);
    match a
    case Approve(actor, p, v, accept, decidedBy, approver, blank) =>
      ApproveKeeps(w, actor, p, v, accept, decidedBy, approver, blank);
    case Decide(actor) => if me.Deciding? { DecideKeeps(w, actor, me.ref, me.approval, me.seen); }
    case Merge(actor, p, v) => MergeKeeps(w, actor, p, v);
    case WriteBranch(actor, ok) => if me.Merging? { WriteBranchKeeps(w, actor, me.target, me.version, me.seen, ok); }
    case Resume(actor, target, expected, key, blank) => ResumeKeeps(w, actor, target, expected, key, blank);
    case CheckIntent(actor) => if me.Issue? { CheckKeeps(w, actor, me.cmd, me.effect, me.next); }
    case Update(actor) => if me.Swapping? { UpdateKeeps(w, actor, me.cmd, me.values, me.effect, me.next); }
    case Crash(actor) => EndKeeps(w, actor);
  }

  lemma StepKeeps(w: World, a: Action)
    requires Inv(w)
    ensures Inv(Step(w, a))
  {
    if a.StartRun? || a.ReadTask? || a.FinishReview? || a.BeginFix? || a.ExecuteFix? || a.BuildFix? || a.AnswerFix?
       || a.RecordPatch? || a.FinishFix? {
      RunStepKeeps(w, a);
    } else if a.BeginVerify? || a.AnswerVerify? || a.RecordEvidence? || a.FinishVerify? || a.RaiseError? || a.Park? {
      VerifyStepKeeps(w, a);
    } else {
      PeopleStepKeeps(w, a);
    }
  }

  lemma {:induction false} RunKeeps(w: World, actions: seq<Action>)
    requires Inv(w)
    ensures Inv(Run(w, actions))
    decreases |actions|
  {
    if actions != [] {
      StepKeeps(w, actions[0]);
      RunKeeps(Step(w, actions[0]), actions[1..]);
    }
  }

  // ---- What it comes to -------------------------------------------------------------------------------------------

  /** Some entry that opened the gate carried the evidence of a sound measurement of the patch. */
  ghost predicate GateOpenedWithProof(w: World, patch: PatchId)
    requires patch in w.patches
  {
    exists i, m :: 0 <= i < |w.h.log| && GateMeasured(w.h.log[i], w.patches[patch].hash, m)
  }

  ghost predicate GateEntry(e: Entry, hash: string) {
    && e.changes.status == Some(PendingApproval) && !e.resume
    && e.changes.summary.Some? && e.changes.summary.value.evidence.Some?
    && e.changes.summary.value.evidence.value.sufficient && e.changes.summary.value.evidence.value.patchHash == hash
  }

  /** The entry that last wrote the status a task has at position n. */
  lemma {:induction false} WriterOf(w: World, n: nat) returns (i: nat)
    requires HistoryOk(w) && n <= |w.h.log| && StatusAfter(w.h.first.status, w.h.log, n) != Draft
    ensures i < n && w.h.log[i].changes.status == Some(StatusAfter(w.h.first.status, w.h.log, n))
  {
    if w.h.log[n - 1].changes.status.Some? {
      i := n - 1;
    } else {
      i := WriterOf(w, n - 1);
    }
  }

  /** An entry that opened the gate goes back to a measurement of the patch that was sound. */
  ghost predicate GateMeasured(e: Entry, hash: string, m: Measured) {
    GateEntry(e, hash) && e.changes.summary.value.evidence.value == Assess(1, hash, true, m) && Sound(m)
  }

  lemma GateEntryMeasured(e: Entry, hash: string, fix: FixChild) returns (m: Measured)
    requires e.changes.status == Some(PendingApproval) && !e.resume && CarriesProof(e.changes, fix)
    requires fix.FixDone? && fix.candidate == Candidate(1, hash)
    ensures GateMeasured(e, hash, m)
  {
    var evidence := e.changes.summary.value.evidence.value;
    var ok: bool, measured: Measured :| evidence == Assess(1, hash, ok, measured);
    OpenGateMeans(1, hash, ok, measured);
    m := measured;
  }

  /** In every reachable state, merged or not: whenever a task was moved to PENDING_APPROVAL other than by a resume, the
      patch it has now had been measured, the tests had run and none had failed, and coverage had held. */
  lemma EveryGateEntryIsMeasured(owner: string, actions: seq<Action>, i: nat) returns (hash: string, m: Measured)
    requires var w := Run(Start(owner), actions);
             i < |w.h.log| && w.h.log[i].changes.status == Some(PendingApproval) && !w.h.log[i].resume
    ensures var w := Run(Start(owner), actions);
            GateMeasured(w.h.log[i], hash, m) && forall p :: p in w.patches ==> w.patches[p].hash == hash
  {
    RunKeeps(Start(owner), actions);
    var w := Run(Start(owner), actions);
    assert EntryOk(w, i);
    hash := w.fix.candidate.hash;
    m := GateEntryMeasured(w.h.log[i], hash, w.fix);
  }

  /** Main result of the pipeline. In every reachable state a MERGED task has exactly one patch, it is applied,
      and its table of approvals is one row: the approval of that version with that hash. Unless a person
      resumed the task, the gate had been opened by evidence about the same hash, measured with the tests run, none
      failed, and coverage held. */
  lemma MergedMeansApprovedAndProved(owner: string, actions: seq<Action>) returns (patch: PatchId)
    requires Run(Start(owner), actions).h.row.status == Merged
    ensures var w := Run(Start(owner), actions);
            && w.patches.Keys == {patch} && w.patches[patch].applied
            && w.approvals.Keys == {ApprovalRef(patch, w.patches[patch].version)}
            && w.approvals[ApprovalRef(patch, w.patches[patch].version)].approve
            && w.approvals[ApprovalRef(patch, w.patches[patch].version)].hash == w.patches[patch].hash
            && ((forall i :: 0 <= i < |w.h.log| ==> !w.h.log[i].resume) ==> GateOpenedWithProof(w, patch))
  {
    RunKeeps(Start(owner), actions);
    var w := Run(Start(owner), actions);
    patch :| patch in w.patches && w.patches[patch].applied;
    assert Approved(w, patch, w.patches[patch].version);
    forall r | r in w.approvals ensures r == ApprovalRef(patch, w.patches[patch].version) {
      assert RefOk(w, r, w.approvals[r].hash);
    }
    var merge := WriterOf(w, |w.h.log|);
    assert EntryOk(w, merge) && WasPending(w.h, merge + 1);
    var gate := WriterOf(w, merge);
    assert EntryOk(w, gate);
    assert w.patches[patch].hash == w.fix.candidate.hash;
    if !w.h.log[gate].resume {
      var m := GateEntryMeasured(w.h.log[gate], w.patches[patch].hash, w.fix);
    }
  }

  /** In every reachable state, merged or not, the task has at most one patch and at most one approval row. */
  lemma OnePatchOneApproval(owner: string, actions: seq<Action>)
    ensures var w := Run(Start(owner), actions);
            && |w.patches| <= 1 && |w.approvals| <= 1
            && (forall p :: p in w.patches ==> w.patches[p].version == 1)
            && (forall r :: r in w.approvals ==> r.patch in w.patches && w.approvals[r].hash == w.patches[r.patch].hash)
  {
    RunKeeps(Start(owner), actions);
    var w := Run(Start(owner), actions);
    if p :| p in w.patches {
      assert w.patches.Keys == {p};
      assert |w.patches| == |w.patches.Keys|;
      forall r | r in w.approvals ensures r == ApprovalRef(p, 1) {
        assert RefOk(w, r, w.approvals[r].hash);
      }
      assert w.approvals.Keys <= {ApprovalRef(p, 1)};
      SubsetSize(w.approvals.Keys, {ApprovalRef(p, 1)});
    } else {
      assert w.patches == map[];
      assert w.approvals.Keys == {};
    }
    assert |w.approvals| == |w.approvals.Keys|;
  }
}
