/** What a decision leaves behind in every reachable state: nobody is on record as having rejected a patch unless the task
    was sent to REJECTED for it. */
module PipelineDecisions {
  import opened Wrappers
  import opened StateMachine
  import opened QualityGate
  import opened ReviewStore
  import opened Pipeline
  import Decimal

  /** What every key of a rejection starts with. */
  const REJECTED: string := "rejected:v"

  predicate RejectionKey(key: Key) {
    REJECTED <= key
  }

  lemma RejectedIsRejectionKey(version: nat)
    ensures RejectionKey(Tagged("rejected", version))
  {
    assert Tagged("rejected", version) == REJECTED + Decimal.Print(version);
  }

  /** No other key of the coordinator's does. */
  lemma OtherKeys(key: Key)
    requires |key| < 3 || key[0] != 'r' || key[2] != 'j'
    ensures !RejectionKey(key)
  {
    assert REJECTED[0] == 'r' && REJECTED[2] == 'j';
  }

  lemma TaggedKeys(name: string, version: nat)
    requires |name| > 2 && (name[0] != 'r' || name[2] != 'j')
    ensures !RejectionKey(Tagged(name, version))
  {
    assert Tagged(name, version)[0] == name[0] && Tagged(name, version)[2] == name[2];
    OtherKeys(Tagged(name, version));
  }

  // ---- Invariant ---------------------------------------------------------------------------------------------------

  /** An entry under a rejection's key went to REJECTED, unless a person resumed the task under that very key. */
  predicate EntryTells(e: Entry) {
    RejectionKey(e.key) ==> e.resume || e.changes.status == Some(Rejected)
  }

  predicate LogTells(log: seq<Entry>) {
    forall i :: 0 <= i < |log| ==> EntryTells(log[i])
  }

  ghost predicate DecisionsTell(w: World) {
    forall r :: r in w.approvals && !w.approvals[r].approve ==> KeyUsed(w.h.log, Tagged("rejected", r.version))
  }

  predicate CommandTells(cmd: Command, effect: Effect) {
    && (RejectionKey(cmd.key) ==> cmd.resume || cmd.changes.status == Some(Rejected))
    && (effect.Insert? && !effect.approval.approve ==> cmd.key == Tagged("rejected", effect.ref.version))
  }

  predicate ActorTells(a: Actor) {
    match a
    case Issue(cmd, effect, _) => CommandTells(cmd, effect)
    case Swapping(cmd, _, effect, _) => CommandTells(cmd, effect)
    case _ => true
  }

  ghost predicate ActorsTell(w: World) {
    forall a :: a in w.actors ==> ActorTells(w.actors[a])
  }

  ghost predicate Tells(w: World) {
    LogTells(w.h.log) && DecisionsTell(w) && ActorsTell(w)
  }

  // ---- Every step keeps it --------------------------------------------------------------------------------------------

  /** Log and approvals stay, one actor moves to a state that is accounted for, or leaves. */
  ghost predicate Quiet(w: World, w': World, actor: ActorId) {
    && w'.h == w.h && w'.approvals == w.approvals
    && (forall a :: a in w'.actors && a != actor ==> a in w.actors && w'.actors[a] == w.actors[a])
    && (actor in w'.actors ==> ActorTells(w'.actors[actor]))
  }

  lemma QuietKeeps(w: World, w': World, actor: ActorId)
    requires Tells(w) && Quiet(w, w', actor)
    ensures Tells(w')
  {
  }

  lemma IntendTells(w: World, w': World, actor: ActorId, cmd: Command, next: Next)
    requires Tells(w) && !RejectionKey(cmd.key) && w' == Set(w, actor, Issue(cmd, NoEffect, next))
    ensures Tells(w')
  {
    QuietKeeps(w, w', actor);
  }

  lemma SetTells(w: World, actor: ActorId, state: Actor)
    requires Tells(w) && ActorTells(state)
    ensures Tells(Set(w, actor, state))
  {
    QuietKeeps(w, Set(w, actor, state), actor);
  }

  lemma EndTells(w: World, actor: ActorId)
    requires Tells(w)
    ensures Tells(End(w, actor))
  {
    QuietKeeps(w, End(w, actor), actor);
  }

  lemma FailTells(w: World, actor: ActorId, state: Actor, code: ErrorCode)
    requires Tells(w)
    ensures Tells(Fail(w, actor, state, code))
  {
    EndTells(w, actor);
    SetTells(w, actor, ParkGet(code, None));
  }

  lemma ContinueTells(w: World, actor: ActorId, next: Next)
    requires Tells(w)
    ensures Tells(Continue(w, actor, next))
  {
    EndTells(w, actor);
    SetTells(w, actor, FixGet);
    SetTells(w, actor, FixExecute);
    SetTells(w, actor, VerifyGet);
    match next
    case Dispatch(auto) => SetTells(w, actor, ReviewWork(auto));
    case _ =>
  }

  lemma ReadTaskTells(w: World, actor: ActorId, auto: bool)
    requires Tells(w)
    ensures Tells(DoReadTask(w, actor, auto))
  {
    OtherKeys("enter_reviewing");
    SetTells(w, actor, Issue(Intend(w.h.row.version, To(Reviewing), "enter_reviewing"), NoEffect, Dispatch(auto)));
    ContinueTells(w, actor, Dispatch(auto));
  }

  lemma FinishReviewTells(w: World, actor: ActorId, auto: bool)
    requires Tells(w)
    ensures Tells(DoFinishReview(w, actor, auto))
  {
    OtherKeys("reviewed");
    QuietKeeps(w, DoFinishReview(w, actor, auto), actor);
  }

  lemma BeginFixTells(w: World, actor: ActorId, offline: bool, fixable: bool)
    requires Tells(w)
    ensures Tells(DoBeginFix(w, actor, offline, fixable))
  {
    OtherKeys("offline_stop");
    OtherKeys("no_fix");
    OtherKeys("enter_fixing");
    QuietKeeps(w, DoBeginFix(w, actor, offline, fixable), actor);
  }

  lemma FinishFixTells(w: World, actor: ActorId, patch: PatchId)
    requires Tells(w)
    ensures Tells(DoFinishFix(w, actor, patch))
  {
    if patch in w.patches {
      TaggedKeys("enter_testing", w.patches[patch].version);
    }
    QuietKeeps(w, DoFinishFix(w, actor, patch), actor);
  }

  lemma FinishVerifyTells(w: World, actor: ActorId, patch: PatchId, e: VerifyEvidence)
    requires Tells(w)
    ensures Tells(DoFinishVerify(w, actor, patch, e))
  {
    if patch in w.patches {
      TaggedKeys("enter_pending_approval", w.patches[patch].version);
    }
    QuietKeeps(w, DoFinishVerify(w, actor, patch, e), actor);
  }

  lemma ParkTells(w: World, actor: ActorId, code: ErrorCode, found: Option<VerifyEvidence>)
    requires Tells(w)
    ensures Tells(DoPark(w, actor, code, found))
  {
    var key := "park:" + CodeText(code);
    assert key[0] == 'p';
    OtherKeys(key);
    QuietKeeps(w, DoPark(w, actor, code, found), actor);
  }

  lemma WriteBranchTells(w: World, actor: ActorId, patch: PatchId, version: nat, seen: nat, ok: bool)
    requires Tells(w)
    ensures Tells(DoWriteBranch(w, actor, patch, version, seen, ok))
  {
    TaggedKeys("merged", version);
    QuietKeeps(w, DoWriteBranch(w, actor, patch, version, seen, ok), actor);
  }

  lemma InsertTells(w: World, ref: ApprovalRef, approval: Approval)
    requires Tells(w) && ref !in w.approvals
    requires approval.approve || KeyUsed(w.h.log, Tagged("rejected", ref.version))
    ensures Tells(w.(approvals := w.approvals[ref := approval]))
  {
  }

  lemma DecideTells(w: World, actor: ActorId, ref: ApprovalRef, approval: Approval, seen: nat)
    requires Tells(w)
    ensures Tells(DoDecide(w, actor, ref, approval, seen))
  {
    RejectedIsRejectionKey(ref.version);
    if ref !in w.approvals && approval.approve {
      InsertTells(w, ref, approval);
      EndTells(ApplyEffect(w, Insert(ref, approval)), actor);
    } else {
      QuietKeeps(w, DoDecide(w, actor, ref, approval, seen), actor);
    }
  }

  lemma EffectTells(w: World, cmd: Command, effect: Effect)
    requires Tells(w) && CommandTells(cmd, effect) && KeyUsed(w.h.log, cmd.key) && EffectPossible(w, effect)
    ensures Tells(ApplyEffect(w, effect))
  {
    match effect
    case NoEffect =>
    case MarkApplied(_) =>
    case Insert(ref, approval) => InsertTells(w, ref, approval);
  }

  lemma CheckTells(w: World, actor: ActorId, cmd: Command, effect: Effect, next: Next)
    requires Tells(w) && CommandTells(cmd, effect)
    ensures Tells(DoCheck(w, actor, cmd, effect, next))
  {
    match Check(w.h, cmd)
    case Refused(code) => FailTells(w, actor, Issue(cmd, effect, next), code);
    case Replayed =>
      EndTells(w, actor);
      if EffectPossible(w, effect) {
        EffectTells(w, cmd, effect);
        ContinueTells(ApplyEffect(w, effect), actor, next);
      }
    case Ready(v) => SetTells(w, actor, Swapping(cmd, v, effect, next));
  }

  lemma SwapTells(w: World, cmd: Command, v: Values, effect: Effect)
    requires Tells(w) && CommandTells(cmd, effect) && w.h.row.version == cmd.expected
    ensures Tells(w.(h := Swap(w.h, cmd, v))) && KeyUsed(Swap(w.h, cmd, v).log, cmd.key)
  {
    var h' := Swap(w.h, cmd, v);
    assert h'.log[|w.h.log|].key == cmd.key && w.h.log <= h'.log;
    forall k | KeyUsed(w.h.log, k) ensures KeyUsed(h'.log, k) {
      var i :| 0 <= i < |w.h.log| && w.h.log[i].key == k;
      assert h'.log[i] == w.h.log[i];
    }
  }

  lemma UpdateTells(w: World, actor: ActorId, cmd: Command, v: Values, effect: Effect, next: Next)
    requires Tells(w) && CommandTells(cmd, effect)
    ensures Tells(DoUpdate(w, actor, cmd, v, effect, next))
  {
    if w.h.row.version != cmd.expected {
      FailTells(w, actor, Swapping(cmd, v, effect, next), StateVersionConflict);
    } else if !EffectPossible(w, effect) {
      EndTells(w, actor);
    } else {
      var mid := w.(h := Swap(w.h, cmd, v));
      SwapTells(w, cmd, v, effect);
      EffectTells(mid, cmd, effect);
      assert ApplyEffect(mid, effect) == ApplyEffect(w, effect).(h := Swap(w.h, cmd, v));
      ContinueTells(ApplyEffect(mid, effect), actor, next);
    }
  }

  lemma ResumeTells(w: World, actor: ActorId, target: ParentStatus, expected: nat, key: Key, blank: bool)
    requires Tells(w)
    ensures Tells(DoResume(w, actor, target, expected, key, blank))
  {
    if CanHumanResume(w.h.row.status, target) && !blank {
      SetTells(w, actor, Issue(ResumeCommand(w.h.row, target, expected, key), NoEffect, StopQuietly));
    }
  }

  lemma ExecuteFixTells(w: World, a: Action)
    requires Tells(w) && (a.ExecuteFix? || a.BuildFix?)
    ensures Tells(Step(w, a))
  {
    QuietKeeps(w, Step(w, a), a.actor);
  }

  lemma FixStepTells(w: World, a: Action)
    requires Tells(w) && (a.AnswerFix? || a.RecordPatch?)
    ensures Tells(Step(w, a))
  {
    QuietKeeps(w, Step(w, a), a.actor);
  }

  lemma BeginVerifyTells(w: World, a: Action)
    requires Tells(w) && a.BeginVerify?
    ensures Tells(Step(w, a))
  {
    QuietKeeps(w, Step(w, a), a.actor);
  }

  lemma VerifyStepTells(w: World, a: Action)
    requires Tells(w) && (a.AnswerVerify? || a.RecordEvidence?)
    ensures Tells(Step(w, a))
  {
    QuietKeeps(w, Step(w, a), a.actor);
  }

  lemma PeopleTell(w: World, a: Action)
    requires Tells(w) && (a.Approve? || a.Merge? || a.StartRun? || a.Crash?)
    ensures Tells(Step(w, a))
  {
    QuietKeeps(w, Step(w, a), a.actor);
  }

  lemma StepTells(w: World, a: Action)
    requires Tells(w)
    ensures Tells(Step(w, a))
  {
    var me := StateOf(w, a.actor);
    match a
    case ReadTask(actor) => if me.RunGet? { ReadTaskTells(w, actor, me.auto); }
    case FinishReview(actor) => if me.ReviewWork? { FinishReviewTells(w, actor, me.auto); }
    case BeginFix(actor, offline, fixable) => BeginFixTells(w, actor, offline, fixable);
    case FinishFix(actor) => if me.FixFinish? { FinishFixTells(w, actor, me.patch); }
    case FinishVerify(actor) => if me.VerifyFinish? { FinishVerifyTells(w, actor, me.patch, me.evidence); }
    case RaiseError(actor, code) => FailTells(w, actor, me, code);
    case Park(actor) => if me.ParkGet? { ParkTells(w, actor, me.code, me.found); }
    case Decide(actor) => if me.Deciding? { DecideTells(w, actor, me.ref, me.approval, me.seen); }
    case WriteBranch(actor, ok) => if me.Merging? { WriteBranchTells(w, actor, me.target, me.version, me.seen, ok); }
    case Resume(actor, target, expected, key, blank) => ResumeTells(w, actor, target, expected, key, blank);
    case CheckIntent(actor) => if me.Issue? { CheckTells(w, actor, me.cmd, me.effect, me.next); }
    case Update(actor) => if me.Swapping? { UpdateTells(w, actor, me.cmd, me.values, me.effect, me.next); }
    case ExecuteFix(_, _) => ExecuteFixTells(w, a);
    case BuildFix(_) => ExecuteFixTells(w, a);
    case AnswerFix(_, _) => FixStepTells(w, a);
    case RecordPatch(_, _, _) => FixStepTells(w, a);
    case BeginVerify(_, _) => BeginVerifyTells(w, a);
    case AnswerVerify(_, _) => VerifyStepTells(w, a);
    case RecordEvidence(_) => VerifyStepTells(w, a);
    case Approve(_, _, _, _, _, _, _) => PeopleTell(w, a);
    case Merge(_, _, _) => PeopleTell(w, a);
    case StartRun(_, _) => PeopleTell(w, a);
    case Crash(_) => PeopleTell(w, a);
  }

  lemma {:induction false} RunTells(w: World, actions: seq<Action>)
    requires Tells(w)
    ensures Tells(Run(w, actions))
    decreases |actions|
  {
    if actions != [] {
      StepTells(w, actions[0]);
      RunTells(Step(w, actions[0]), actions[1..]);
    }
  }

  /** In every reachable state: for every rejection on record the log has an entry under its key, and that entry took the
      task to REJECTED, unless a person had used the very key for a resume before. */
  lemma RejectionMeansRejected(owner: string, actions: seq<Action>, ref: ApprovalRef) returns (i: nat)
    requires ref in Run(Start(owner), actions).approvals && !Run(Start(owner), actions).approvals[ref].approve
    ensures var log := Run(Start(owner), actions).h.log;
            && i < |log| && log[i].key == Tagged("rejected", ref.version)
            && (log[i].changes.status == Some(Rejected) || log[i].resume)
  {
    RunTells(Start(owner), actions);
    RejectedIsRejectionKey(ref.version);
    var log := Run(Start(owner), actions).h.log;
    i :| 0 <= i < |log| && log[i].key == Tagged("rejected", ref.version);
    assert EntryTells(log[i]);
  }
}
