/** Where the pipeline's guarantee stops: a person who resumes a parked task to PENDING_APPROVAL can have a
    patch merged whose evidence was never sufficient. */
module PipelineLimits {
  import opened Wrappers
  import opened StateMachine
  import opened ReviewStore
  import opened Pipeline
  import opened Coordinator

  /** An approver accepts the patch in one go. */
  function ToApprove(patch: PatchId, version: nat): seq<Action> {
    [Approve(ME, patch, version, true, "approver", true, true), Decide(ME), CheckIntent(ME), Update(ME)]
  }

  /** A merge in one go. */
  function ToMerge(patch: PatchId, version: nat): seq<Action> {
    [Merge(ME, patch, version), WriteBranch(ME, true), CheckIntent(ME), Update(ME)]
  }

  /** An intent whose checks pass and whose version is current. */
  lemma IntentGoes(w: World, cmd: Command, effect: Effect)
    requires Check(w.h, cmd).Ready? && w.h.row.version == cmd.expected && EffectPossible(w, effect)
    ensures Written(w, cmd, effect) == ApplyEffect(w, effect).(h := Swap(w.h, cmd, Derive(w.h.row, cmd.changes)))
    ensures var log := Swap(w.h, cmd, Derive(w.h.row, cmd.changes)).log;
            w.h.log <= log && |log| == |w.h.log| + 1 && log[|w.h.log|].key == cmd.key
            && log[|w.h.log|].changes == cmd.changes && log[|w.h.log|].resume == cmd.resume
  {
  }

  lemma KeyStaysFree(log: seq<Entry>, later: seq<Entry>, key: Key)
    requires !KeyUsed(log, key) && log <= later && |later| == |log| + 1 && later[|log|].key != key
    ensures !KeyUsed(later, key)
  {
    assert forall i :: 0 <= i < |log| ==> later[i] == log[i];
  }

  /** A parked task with a patch on file, nobody at work on it and no decision recorded yet. */
  ghost predicate Parked(w: World, patch: PatchId) {
    && w.h.row.status == NeedsHuman && w.h.row.owner == "coordinator" && w.actors == map[]
    && patch in w.patches && !w.patches[patch].applied && !w.patches[patch].scopeDrift
    && ApprovalRef(patch, w.patches[patch].version) !in w.approvals
    && !KeyUsed(w.h.log, Tagged("merged", w.patches[patch].version))
  }

  lemma ResumeGoes(w: World, key: Key) returns (w': World)
    requires w.h.row.status == NeedsHuman && w.actors == map[] && !KeyUsed(w.h.log, key)
    ensures Becomes(w, [Resume(ME, PendingApproval, w.h.row.version, key, false)] + [CheckIntent(ME), Update(ME)], w')
    ensures w'.h.row.status == PendingApproval && w'.h.row.owner == w.h.row.owner
    ensures w' == w.(h := w'.h) && w.h.log <= w'.h.log && |w'.h.log| == |w.h.log| + 1
    ensures w'.h.log[|w.h.log|].resume && w'.h.log[|w.h.log|].key == key
  {
    var cmd := ResumeCommand(w.h.row, PendingApproval, w.h.row.version, key);
    var resume := Resume(ME, PendingApproval, w.h.row.version, key, false);
    w' := Written(w, cmd, NoEffect);
    OneStep(w, resume, Set(w, ME, Issue(cmd, NoEffect, StopQuietly)));
    IntentRuns(w, cmd, NoEffect);
    Then(w, [resume], Set(w, ME, Issue(cmd, NoEffect, StopQuietly)), [CheckIntent(ME), Update(ME)], w');
    IntentGoes(w, cmd, NoEffect);
  }

  lemma MergeGoes(w: World, patch: PatchId) returns (w': World)
    requires w.h.row.status == PendingApproval && w.h.row.owner == "coordinator" && w.actors == map[]
    requires patch in w.patches && !w.patches[patch].applied && Approved(w, patch, w.patches[patch].version)
    requires !KeyUsed(w.h.log, Tagged("merged", w.patches[patch].version))
    ensures Becomes(w, ToMerge(patch, w.patches[patch].version), w')
    ensures w'.h.row.status == Merged && w.h.log <= w'.h.log && |w'.h.log| == |w.h.log| + 1
    ensures w'.h.log[|w.h.log|].changes.status == Some(Merged) && !w'.h.log[|w.h.log|].resume
    ensures w'.patches == w.patches[patch := w.patches[patch].(applied := true)]
  {
    var v := w.patches[patch].version;
    var cmd := Intend(w.h.row.version, To(Merged), Tagged("merged", v));
    MergeRuns(w, patch, v, true);
    IntentGoes(w, cmd, MarkApplied(patch));
    w' := Written(w, cmd, MarkApplied(patch));
  }

  /** From every parked task an administrator, an approver and a merge suffice: the only two new log entries are
      the resume and the merge, and neither carries evidence. */
  lemma ResumeBypassesTheGate(w: World, patch: PatchId, key: Key) returns (actions: seq<Action>)
    requires Parked(w, patch) && !KeyUsed(w.h.log, key) && key != Tagged("merged", w.patches[patch].version)
    ensures var w' := Run(w, actions);
            && w'.h.row.status == Merged && w.h.log <= w'.h.log && |w'.h.log| == |w.h.log| + 2
            && w'.h.log[|w.h.log|].resume && w'.h.log[|w.h.log| + 1].changes.status == Some(Merged)
  {
    var v := w.patches[patch].version;
    var resume := [Resume(ME, PendingApproval, w.h.row.version, key, false)] + [CheckIntent(ME), Update(ME)];
    var w1 := ResumeGoes(w, key);
    KeyStaysFree(w.h.log, w1.h.log, Tagged("merged", v));
    ApprovalRuns(w1, patch, v, true, "approver", true, true);
    var w2 := ApplyEffect(w1, Insert(ApprovalRef(patch, v), Approval(true, w1.patches[patch].hash, "approver")));
    var w3 := MergeGoes(w2, patch);
    Then(w, resume, w1, ToApprove(patch, v), w2);
    Then(w, resume + ToApprove(patch, v), w2, ToMerge(patch, v), w3);
    actions := resume + ToApprove(patch, v) + ToMerge(patch, v);
    Comes(w, actions, w3);
  }

  /** A rejection can be on record with the task left where it was: a person has resumed the task under the key the
      rejection of this version will carry, so that the rejection's intent counts as done. */
  lemma ResumeKeyHidesRejection(w: World, patch: PatchId) returns (actions: seq<Action>)
    requires Parked(w, patch) && !KeyUsed(w.h.log, Tagged("rejected", w.patches[patch].version))
    ensures var w', ref := Run(w, actions), ApprovalRef(patch, w.patches[patch].version);
            && w'.h.row.status == PendingApproval && |w'.h.log| == |w.h.log| + 1 && w'.h.log[|w.h.log|].resume
            && ref in w'.approvals && !w'.approvals[ref].approve
  {
    var v := w.patches[patch].version;
    var key := Tagged("rejected", v);
    var resume := [Resume(ME, PendingApproval, w.h.row.version, key, false)] + [CheckIntent(ME), Update(ME)];
    var reject := [Approve(ME, patch, v, false, "approver", true, false), Decide(ME), CheckIntent(ME), Update(ME)];
    var w1 := ResumeGoes(w, key);
    assert KeyUsed(w1.h.log, key);
    ApprovalRuns(w1, patch, v, false, "approver", true, false);
    var w2 := ApplyEffect(w1, Insert(ApprovalRef(patch, v), Approval(false, w1.patches[patch].hash, "approver")));
    Then(w, resume, w1, reject, w2);
    actions := resume + reject;
    Comes(w, actions, w2);
  }
}
