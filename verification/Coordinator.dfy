/** The coordinator's transactions for one task, each run without interruption: what the pipeline's single steps come
    to when nobody else is about. */
module Coordinator {
  import opened Wrappers
  import opened StateMachine
  import opened QualityGate
  import opened ReviewStore
  import opened Pipeline

  const ME: ActorId := "me"

  // ---- Runs end to end ------------------------------------------------------------------------------------------

  /** These actions take the one world to the other, whatever is done afterwards. */
  ghost predicate Becomes(w: World, actions: seq<Action>, w': World) {
    forall rest: seq<Action> {:trigger Run(w, actions + rest)} :: Run(w, actions + rest) == Run(w', rest)
  }

  lemma OneStep(w: World, a: Action, w': World)
    requires Step(w, a) == w'
    ensures Becomes(w, [a], w')
  {
    forall rest: seq<Action> ensures Run(w, [a] + rest) == Run(w', rest) {
      assert ([a] + rest)[1..] == rest;
    }
  }

  lemma Then(w: World, first: seq<Action>, mid: World, second: seq<Action>, w': World)
    requires Becomes(w, first, mid) && Becomes(mid, second, w')
    ensures Becomes(w, first + second, w')
  {
    forall rest: seq<Action> ensures Run(w, first + second + rest) == Run(w', rest) {
      assert first + second + rest == first + (second + rest);
    }
  }

  lemma Comes(w: World, actions: seq<Action>, w': World)
    requires Becomes(w, actions, w')
    ensures Run(w, actions) == w'
  {
    assert actions + [] == actions && Run(w', []) == w';
  }

  /** The world after an intent is checked and written in one go by an actor who then leaves. */
  function Written(w: World, cmd: Command, effect: Effect): World {
    match Check(w.h, cmd)
    case Refused(_) => w
    case Replayed => if EffectPossible(w, effect) then ApplyEffect(w, effect) else w
    case Ready(v) =>
      if w.h.row.version != cmd.expected || !EffectPossible(w, effect) then w
      else ApplyEffect(w, effect).(h := Swap(w.h, cmd, v))
  }

  lemma Gone(w: World, state: Actor)
    requires w.actors == map[]
    ensures End(Set(w, ME, state), ME) == w
  {
    assert map[ME := state] - {ME} == map[];
  }

  /** The world between the two halves of an intent. */
  function HalfWritten(w: World, cmd: Command, effect: Effect): World {
    match Check(w.h, cmd)
    case Refused(_) => w
    case Replayed => if EffectPossible(w, effect) then ApplyEffect(w, effect) else w
    case Ready(v) => Set(w, ME, Swapping(cmd, v, effect, StopQuietly))
  }

  lemma FirstHalf(w: World, cmd: Command, effect: Effect)
    requires w.actors == map[]
    ensures Becomes(Set(w, ME, Issue(cmd, effect, StopQuietly)), [CheckIntent(ME)], HalfWritten(w, cmd, effect))
  {
    var state := Issue(cmd, effect, StopQuietly);
    Gone(w, state);
    Gone(if EffectPossible(w, effect) then ApplyEffect(w, effect) else w, state);
    OneStep(Set(w, ME, state), CheckIntent(ME), HalfWritten(w, cmd, effect));
  }

  lemma SecondHalf(w: World, cmd: Command, v: Values, effect: Effect)
    requires w.actors == map[] && Check(w.h, cmd) == Ready(v)
    ensures Becomes(Set(w, ME, Swapping(cmd, v, effect, StopQuietly)), [Update(ME)], Written(w, cmd, effect))
  {
    var state := Swapping(cmd, v, effect, StopQuietly);
    Gone(w, state);
    Gone(Written(w, cmd, effect), state);
    OneStep(Set(w, ME, state), Update(ME), Written(w, cmd, effect));
  }

  lemma Nobody(w: World, a: Action)
    requires w.actors == map[] && a.actor == ME && (a.Decide? || a.WriteBranch? || a.CheckIntent? || a.Update?)
    ensures Becomes(w, [a], w)
  {
    OneStep(w, a, w);
  }

  /** Both halves of an intent, with nobody in between. */
  lemma IntentRuns(w: World, cmd: Command, effect: Effect)
    requires w.actors == map[]
    ensures Becomes(Set(w, ME, Issue(cmd, effect, StopQuietly)), [CheckIntent(ME), Update(ME)], Written(w, cmd, effect))
  {
    FirstHalf(w, cmd, effect);
    match Check(w.h, cmd) {
      case Ready(v) => SecondHalf(w, cmd, v, effect);
      case _ => Nobody(HalfWritten(w, cmd, effect), Update(ME));
    }
    Then(Set(w, ME, Issue(cmd, effect, StopQuietly)), [CheckIntent(ME)], HalfWritten(w, cmd, effect), [Update(ME)],
         Written(w, cmd, effect));
    assert [CheckIntent(ME)] + [Update(ME)] == [CheckIntent(ME), Update(ME)];
  }

  lemma NobodyTwice(w: World)
    requires w.actors == map[]
    ensures Becomes(w, [CheckIntent(ME), Update(ME)], w)
  {
    Nobody(w, CheckIntent(ME));
    Nobody(w, Update(ME));
    Then(w, [CheckIntent(ME)], w, [Update(ME)], w);
    assert [CheckIntent(ME)] + [Update(ME)] == [CheckIntent(ME), Update(ME)];
  }

  /** An intent that went through: the task is in the new status by one more entry, under this key, and no resume. */
  ghost predicate MovedNow(before: History, after: History, to: ParentStatus, key: Key) {
    && after.row.status == to && after.row.version == before.row.version + 1 && after.first == before.first
    && |after.log| == |before.log| + 1 && before.log <= after.log
    && after.log[|before.log|].key == key
    && after.log[|before.log|].changes.status == Some(to) && !after.log[|before.log|].resume
  }

  /** What an intent of the coordinator answers: the row must be its own, and the edge in the table or the key used before. */
  ghost predicate IntentSays(before: History, to: ParentStatus, key: Key, error: Option<ErrorCode>) {
    if before.row.owner != "coordinator" then error == Some(PermissionDenied)
    else if KeyUsed(before.log, key) || before.row.status == to || ParentEdge(before.row.status, to) then error == None
    else error == Some(IllegalStateTransition)
  }

  /** What recording a decision answers: a second one must repeat the first, by the same person. */
  ghost predicate DecisionSays(before: History, approvals: map<ApprovalRef, Approval>, ref: ApprovalRef, approve: bool,
                               decidedBy: string, error: Option<ErrorCode>) {
    if ref in approvals && (approvals[ref].approve != approve || approvals[ref].decidedBy != decidedBy)
    then error == Some(Conflict)
    else if approve then error == None
    else IntentSays(before, Rejected, Tagged("rejected", ref.version), error)
  }

  /** What an intent of the coordinator at the current version comes to: nothing when it is refused, only what commits with
      it when its key was used, and otherwise the change, one entry and what commits with it. */
  lemma WrittenSays(w: World, changes: Changes, to: ParentStatus, key: Key, effect: Effect)
    requires EffectPossible(w, effect) && changes.status == Some(to) && changes.foreign == {}
    ensures var cmd := Intend(w.h.row.version, changes, key);
            var w', w1 := Written(w, cmd, effect), ApplyEffect(w, effect);
            && (Check(w.h, cmd).Refused? <==> w.h.row.owner != "coordinator"
                                              || !(KeyUsed(w.h.log, key) || w.h.row.status == to || ParentEdge(w.h.row.status, to)))
            && IntentSays(w.h, to, key, match Check(w.h, cmd) case Refused(code) => Some(code) case _ => None)
            && (Check(w.h, cmd).Refused? ==> w' == w)
            && (Check(w.h, cmd).Replayed? ==> w' == w1)
            && (Check(w.h, cmd).Ready? ==>
                  && MovedNow(w.h, w'.h, to, key) && Updated(w.h.row, changes, w'.h.row) && w' == w1.(h := w'.h))
            && (Check(w.h, cmd).Ready? ==> !KeyUsed(w.h.log, key))
  {
    WriteUpdates(w.h.row, changes);
  }

  lemma ParkTargets(code: ErrorCode)
    ensures ParkTarget(code) == if code == InvalidInput then Failed else NeedsHuman
  {
  }

  lemma ParkSays(w: World, changes: Changes, to: ParentStatus, key: Key, text: string, found: Option<VerifyEvidence>)
    requires changes.status == Some(to) && changes.foreign == {} && changes.texts == map["error_code" := text]
    requires changes.summary == if found.Some? then Some(Summary(found)) else None
    ensures var cmd := Intend(w.h.row.version, changes, key);
            var w' := Written(w, cmd, NoEffect);
            && IntentSays(w.h, to, key, match Check(w.h, cmd) case Refused(code) => Some(code) case _ => None)
            && w' == w.(h := w'.h)
            && (Check(w.h, cmd).Ready? <==> !Check(w.h, cmd).Refused? && !KeyUsed(w.h.log, key))
            && (!Check(w.h, cmd).Ready? ==> w' == w)
            && (Check(w.h, cmd).Ready? ==> MovedNow(w.h, w'.h, to, key) && ShowsError(w.h.row, w'.h.row, text, found))
  {
    WrittenSays(w, changes, to, key, NoEffect);
  }

  /** A parked task shows the code of its error, and the evidence that failed the gate if there is any. */
  predicate ShowsError(before: Row, after: Row, text: string, found: Option<VerifyEvidence>) {
    && "error_code" in after.texts && after.texts["error_code"] == text
    && after.summary == if found.Some? then Summary(found) else before.summary
  }

  class Coordinator {
    var h: History
    var patches: map<PatchId, PatchRow>
    var approvals: map<ApprovalRef, Approval>
    var fix: FixChild
    var verify: VerifyChild

    constructor (owner: string)
      ensures AsWorld() == Start(owner)
    {
      h, patches, approvals, fix, verify := Fresh(owner), map[], map[], NoFix, NoVerify;
    }

    function AsWorld(): World
      reads this
    {
      World(h, patches, approvals, fix, verify, map[])
    }

    /** apply_intent and whatever belongs to its transaction; an error rolls everything back. */
    method Apply(cmd: Command, effect: Effect) returns (error: Option<ErrorCode>)
      requires EffectPossible(AsWorld(), effect)
      modifies this
      ensures AsWorld() == Written(old(AsWorld()), cmd, effect)
      ensures error == match Check(old(h), cmd)
                       case Refused(code) => Some(code)
                       case Replayed => None
                       case Ready(_) => if old(h).row.version == cmd.expected then None else Some(StateVersionConflict)
    {
      if cmd.changes.foreign != {} {
        return Some(PermissionDenied);
      }
      if cmd.requireOwner && h.row.owner != cmd.owner {
        return Some(PermissionDenied);
      }
      var replayed := FindKey(h.log, cmd.key);
      if !replayed {
        if cmd.changes.status.Some? && !EdgeAllowed(h.row.status, cmd.changes.status.value, cmd.resume) {
          return Some(IllegalStateTransition);
        }
        if h.row.version != cmd.expected {
          return Some(StateVersionConflict);
        }
        h := History(h.first, Write(h.row, Derive(h.row, cmd.changes)),
                     h.log + [Entry(cmd.expected + 1, cmd.key, cmd.changes, cmd.resume)]);
      }
      match effect {
        case NoEffect =>
        case MarkApplied(p) => patches := patches[p := patches[p].(applied := true)];
        case Insert(ref, approval) => approvals := approvals[ref := approval];
      }
      error := None;
    }

    /** ApprovalStore.record: one row per patch version; the same person may repeat the same decision. */
    method RecordDecision(ref: ApprovalRef, approval: Approval) returns (error: Option<ErrorCode>)
      modifies this
      ensures AsWorld() == Decided(old(AsWorld()), ref, approval)
      ensures error.None? ==> ref in approvals && approvals[ref].approve == approval.approve
      ensures error.None? && approval.approve ==> ref in approvals && h == old(h)
      ensures error.None? && !approval.approve && !KeyUsed(old(h).log, Tagged("rejected", ref.version)) ==>
                MovedNow(old(h), h, Rejected, Tagged("rejected", ref.version))
      ensures DecisionSays(old(h), old(approvals), ref, approval.approve, approval.decidedBy, error)
      ensures error.Some? ==> AsWorld() == old(AsWorld())
      ensures error.None? && ref !in old(approvals) ==> approvals == old(approvals)[ref := approval]
      ensures error.Some? || ref in old(approvals) ==> approvals == old(approvals)
    {
      var first := ref !in approvals;
      if !first && (approvals[ref].approve != approval.approve || approvals[ref].decidedBy != approval.decidedBy) {
        return Some(Conflict);
      }
      if approval.approve {
        if first {
          approvals := approvals[ref := approval];
        }
        return None;
      }
      WrittenSays(AsWorld(), To(Rejected), Rejected, Tagged("rejected", ref.version), if first then Insert(ref, approval) else NoEffect);
      error := Apply(Intend(h.row.version, To(Rejected), Tagged("rejected", ref.version)),
                     if first then Insert(ref, approval) else NoEffect);
    }

    /** record_approval: the guards, the approval row, and for a rejection the intent. */
    method RecordApproval(patch: PatchId, version: nat, accept: bool, decidedBy: string, approver: bool, reasonBlank: bool)
      returns (error: Option<ErrorCode>)
      modifies this
      ensures Becomes(old(AsWorld()), [Approve(ME, patch, version, accept, decidedBy, approver, reasonBlank),
                                       Decide(ME), CheckIntent(ME), Update(ME)], AsWorld())
      ensures error.None? && accept ==>
                && old(h).row.status == PendingApproval && h == old(h)
                && patch in patches && version == patches[patch].version && !patches[patch].scopeDrift
                && ApprovalRef(patch, version) in approvals && approvals[ApprovalRef(patch, version)].approve
      ensures error.None? && !accept && !KeyUsed(old(h).log, Tagged("rejected", version)) ==>
                MovedNow(old(h), h, Rejected, Tagged("rejected", version))
      ensures error.Some? ==> AsWorld() == old(AsWorld())
      ensures if patch !in old(patches) then error == Some(ResourceNotFound)
              else if old(h).row.status != PendingApproval then error == Some(IllegalStateTransition)
              else if accept && old(patches)[patch].scopeDrift then error == Some(ScopeDrift)
              else if version != old(patches)[patch].version then error == Some(VersionConflict)
              else if !approver then error == Some(Forbidden)
              else if !accept && reasonBlank then error == Some(InvalidInput)
              else DecisionSays(old(h), old(approvals), ApprovalRef(patch, version), accept, decidedBy, error)
      ensures error.None? ==>
                && patch in old(patches) && version == old(patches)[patch].version && approver && (!accept ==> !reasonBlank)
                && ApprovalRef(patch, version) in approvals && approvals[ApprovalRef(patch, version)].approve == accept
                && (ApprovalRef(patch, version) !in old(approvals) ==>
                      approvals[ApprovalRef(patch, version)] == Approval(accept, old(patches)[patch].hash, decidedBy))
    {
      ApprovalRuns(AsWorld(), patch, version, accept, decidedBy, approver, reasonBlank);
      if patch !in patches {
        return Some(ResourceNotFound);
      }
      if h.row.status != PendingApproval {
        return Some(IllegalStateTransition);
      }
      if accept && patches[patch].scopeDrift {
        return Some(ScopeDrift);
      }
      if version != patches[patch].version {
        return Some(VersionConflict);
      }
      if !approver {
        return Some(Forbidden);
      }
      if !accept && reasonBlank {
        return Some(InvalidInput);
      }
      error := RecordDecision(ApprovalRef(patch, version), Approval(accept, patches[patch].hash, decidedBy));
    }

    /** merge: the approval must bind this version and hash; the branch is written before the intent. */
    method MergePatch(patch: PatchId, version: nat, branchOk: bool, branchError: ErrorCode) returns (error: Option<ErrorCode>)
      modifies this
      ensures Becomes(old(AsWorld()), [Merge(ME, patch, version), WriteBranch(ME, branchOk), CheckIntent(ME), Update(ME)], AsWorld())
      ensures h.row.status == Merged && old(h).row.status != Merged ==>
                error.None? && branchOk && Approved(old(AsWorld()), patch, version)
      ensures error.None? ==> patch in patches && patches[patch].applied
      ensures error.None? && !KeyUsed(old(h).log, Tagged("merged", version)) ==>
                && MovedNow(old(h), h, Merged, Tagged("merged", version))
                && patch in old(patches)
                && patches == old(patches)[patch := old(patches)[patch].(applied := true)] && approvals == old(approvals)
      ensures error.Some? ==> AsWorld() == old(AsWorld())
      ensures var ref := ApprovalRef(patch, version);
              if patch !in old(patches) then error == Some(ResourceNotFound)
              else if ref !in old(approvals) || !old(approvals)[ref].approve then error == Some(Forbidden)
              else if old(patches)[patch].version != version || old(approvals)[ref].hash != old(patches)[patch].hash
              then error == Some(VersionConflict)
              else if old(h).row.status != PendingApproval || old(patches)[patch].applied then error == Some(IllegalStateTransition)
              else if !branchOk then error == Some(branchError)
              else IntentSays(old(h), Merged, Tagged("merged", version), error)
    {
      MergeRuns(AsWorld(), patch, version, branchOk);
      if patch !in patches {
        return Some(ResourceNotFound);
      }
      var ref := ApprovalRef(patch, version);
      if ref !in approvals || !approvals[ref].approve {
        return Some(Forbidden);
      }
      if patches[patch].version != version || approvals[ref].hash != patches[patch].hash {
        return Some(VersionConflict);
      }
      if h.row.status != PendingApproval || patches[patch].applied {
        return Some(IllegalStateTransition);
      }
      if !branchOk {
        return Some(branchError);
      }
      WrittenSays(AsWorld(), To(Merged), Merged, Tagged("merged", version), MarkApplied(patch));
      error := Apply(Intend(h.row.version, To(Merged), Tagged("merged", version)), MarkApplied(patch));
    }

    /** _park: the status an error leads to, with the evidence that failed the gate if there is any. */
    method ParkTask(code: ErrorCode, found: Option<VerifyEvidence>) returns (error: Option<ErrorCode>)
      modifies this
      ensures Becomes(Set(old(AsWorld()), ME, ParkGet(code, found)), [Park(ME), CheckIntent(ME), Update(ME)], AsWorld())
      ensures IntentSays(old(h), if code == InvalidInput then Failed else NeedsHuman, "park:" + CodeText(code), error)
      ensures error.None? && !KeyUsed(old(h).log, "park:" + CodeText(code)) ==>
                && MovedNow(old(h), h, if code == InvalidInput then Failed else NeedsHuman, "park:" + CodeText(code))
                && ShowsError(old(h).row, h.row, CodeText(code), found)
      ensures error.Some? || KeyUsed(old(h).log, "park:" + CodeText(code)) ==> h == old(h)
      ensures patches == old(patches) && approvals == old(approvals) && fix == old(fix) && verify == old(verify)
    {
      ParkRuns(AsWorld(), code, found);
      ParkTargets(code);
      var key := "park:" + CodeText(code);
      ParkSays(AsWorld(), ParkChanges(code, found), ParkTarget(code), key, CodeText(code), found);
      error := Apply(Intend(h.row.version, ParkChanges(code, found), key), NoEffect);
    }
  }

  // ---- What the calls come to -------------------------------------------------------------------------------------

  function Decided(w: World, ref: ApprovalRef, approval: Approval): World {
    var reject := Intend(w.h.row.version, To(Rejected), Tagged("rejected", ref.version));
    if ref in w.approvals then
      if w.approvals[ref].approve != approval.approve || w.approvals[ref].decidedBy != approval.decidedBy || approval.approve
      then w else Written(w, reject, NoEffect)
    else if approval.approve then ApplyEffect(w, Insert(ref, approval))
    else Written(w, reject, Insert(ref, approval))
  }

  /** What an approval or rejection comes to. */
  function AfterApproval(w: World, patch: PatchId, version: nat, accept: bool, decidedBy: string, approver: bool,
                         reasonBlank: bool): World {
    if patch !in w.patches || w.h.row.status != PendingApproval || (accept && w.patches[patch].scopeDrift)
       || version != w.patches[patch].version || !approver || (!accept && reasonBlank)
    then w
    else Decided(w, ApprovalRef(patch, version), Approval(accept, w.patches[patch].hash, decidedBy))
  }

  function AfterMerge(w: World, patch: PatchId, version: nat, ok: bool): World {
    if !Approved(w, patch, version) || w.h.row.status != PendingApproval || w.patches[patch].applied || !ok then w
    else Written(w, Intend(w.h.row.version, To(Merged), Tagged("merged", version)), MarkApplied(patch))
  }

  function ParkIntent(w: World, code: ErrorCode, found: Option<VerifyEvidence>): Command {
    Intend(w.h.row.version, ParkChanges(code, found), "park:" + CodeText(code))
  }

  /** Recording the decision comes to this, and perhaps leaves a rejection to be written. */
  function HalfDecided(w: World, ref: ApprovalRef, approval: Approval): World {
    var reject := Intend(w.h.row.version, To(Rejected), Tagged("rejected", ref.version));
    if approval.approve || (ref in w.approvals && (w.approvals[ref].approve || w.approvals[ref].decidedBy != approval.decidedBy))
    then Decided(w, ref, approval)
    else Set(w, ME, Issue(reject, if ref in w.approvals then NoEffect else Insert(ref, approval), StopQuietly))
  }

  lemma DecideBecomes(w: World, ref: ApprovalRef, approval: Approval)
    requires w.actors == map[]
    ensures Becomes(Set(w, ME, Deciding(ref, approval, w.h.row.version)), [Decide(ME)], HalfDecided(w, ref, approval))
  {
    var deciding := Deciding(ref, approval, w.h.row.version);
    Gone(w, deciding);
    if ref !in w.approvals {
      Gone(ApplyEffect(w, Insert(ref, approval)), deciding);
    }
    OneStep(Set(w, ME, deciding), Decide(ME), HalfDecided(w, ref, approval));
  }

  /** The two halves of a rejection that the decision leaves to be written, if it leaves one. */
  lemma DecisionRuns(w: World, ref: ApprovalRef, approval: Approval)
    requires w.actors == map[]
    ensures Becomes(Set(w, ME, Deciding(ref, approval, w.h.row.version)), [Decide(ME)] + [CheckIntent(ME), Update(ME)],
                    Decided(w, ref, approval))
  {
    var deciding, half := Set(w, ME, Deciding(ref, approval, w.h.row.version)), HalfDecided(w, ref, approval);
    DecideBecomes(w, ref, approval);
    if approval.approve || (ref in w.approvals && (w.approvals[ref].approve || w.approvals[ref].decidedBy != approval.decidedBy)) {
      NobodyTwice(Decided(w, ref, approval));
    } else {
      IntentRuns(w, Intend(w.h.row.version, To(Rejected), Tagged("rejected", ref.version)),
                 if ref in w.approvals then NoEffect else Insert(ref, approval));
    }
    Then(deciding, [Decide(ME)], half, [CheckIntent(ME), Update(ME)], Decided(w, ref, approval));
  }

  lemma ApproveBecomes(w: World, patch: PatchId, version: nat, accept: bool, decidedBy: string, approver: bool, reasonBlank: bool,
                       w1: World)
    requires w.actors == map[]
    requires w1 == DoApprove(w, ME, patch, version, accept, decidedBy, approver, reasonBlank)
    ensures Becomes(w, [Approve(ME, patch, version, accept, decidedBy, approver, reasonBlank)], w1)
  {
    OneStep(w, Approve(ME, patch, version, accept, decidedBy, approver, reasonBlank), w1);
  }

  lemma ApprovalRuns(w: World, patch: PatchId, version: nat, accept: bool, decidedBy: string, approver: bool, reasonBlank: bool)
    requires w.actors == map[]
    ensures Becomes(w, [Approve(ME, patch, version, accept, decidedBy, approver, reasonBlank), Decide(ME), CheckIntent(ME), Update(ME)],
                    AfterApproval(w, patch, version, accept, decidedBy, approver, reasonBlank))
  {
    var approve := Approve(ME, patch, version, accept, decidedBy, approver, reasonBlank);
    var w1 := DoApprove(w, ME, patch, version, accept, decidedBy, approver, reasonBlank);
    var end := AfterApproval(w, patch, version, accept, decidedBy, approver, reasonBlank);
    ApproveBecomes(w, patch, version, accept, decidedBy, approver, reasonBlank, w1);
    if w1 == w {
      Nobody(w, Decide(ME));
      NobodyTwice(w);
      Then(w, [Decide(ME)], w, [CheckIntent(ME), Update(ME)], w);
    } else {
      DecisionRuns(w, ApprovalRef(patch, version), Approval(accept, w.patches[patch].hash, decidedBy));
    }
    Then(w, [approve], w1, [Decide(ME)] + [CheckIntent(ME), Update(ME)], end);
    assert [approve] + ([Decide(ME)] + [CheckIntent(ME), Update(ME)]) == [approve, Decide(ME), CheckIntent(ME), Update(ME)];
  }

  lemma MergeBecomes(w: World, patch: PatchId, version: nat)
    requires w.actors == map[]
    ensures Becomes(w, [Merge(ME, patch, version)], DoMerge(w, ME, patch, version))
  {
    OneStep(w, Merge(ME, patch, version), DoMerge(w, ME, patch, version));
  }

  /** The branch is written, or it is not and the merge ends. */
  function AfterBranch(w: World, patch: PatchId, version: nat, ok: bool): World {
    if ok then Set(w, ME, Issue(Intend(w.h.row.version, To(Merged), Tagged("merged", version)), MarkApplied(patch), StopQuietly))
    else w
  }

  lemma BranchBecomes(w: World, patch: PatchId, version: nat, ok: bool)
    requires w.actors == map[]
    ensures Becomes(Set(w, ME, Merging(patch, version, w.h.row.version)), [WriteBranch(ME, ok)], AfterBranch(w, patch, version, ok))
  {
    Gone(w, Merging(patch, version, w.h.row.version));
    OneStep(Set(w, ME, Merging(patch, version, w.h.row.version)), WriteBranch(ME, ok), AfterBranch(w, patch, version, ok));
  }

  lemma BranchRuns(w: World, patch: PatchId, version: nat, ok: bool)
    requires w.actors == map[]
    ensures Becomes(Set(w, ME, Merging(patch, version, w.h.row.version)), [WriteBranch(ME, ok)] + [CheckIntent(ME), Update(ME)],
                    if ok then Written(w, Intend(w.h.row.version, To(Merged), Tagged("merged", version)), MarkApplied(patch)) else w)
  {
    var merging, end := Merging(patch, version, w.h.row.version), AfterBranch(w, patch, version, ok);
    var written := Written(w, Intend(w.h.row.version, To(Merged), Tagged("merged", version)), MarkApplied(patch));
    BranchBecomes(w, patch, version, ok);
    if ok {
      IntentRuns(w, Intend(w.h.row.version, To(Merged), Tagged("merged", version)), MarkApplied(patch));
    } else {
      NobodyTwice(w);
    }
    Then(Set(w, ME, merging), [WriteBranch(ME, ok)], end, [CheckIntent(ME), Update(ME)], if ok then written else w);
  }

  lemma MergeRuns(w: World, patch: PatchId, version: nat, ok: bool)
    requires w.actors == map[]
    ensures Becomes(w, [Merge(ME, patch, version), WriteBranch(ME, ok), CheckIntent(ME), Update(ME)], AfterMerge(w, patch, version, ok))
  {
    var w1, end := DoMerge(w, ME, patch, version), AfterMerge(w, patch, version, ok);
    MergeBecomes(w, patch, version);
    if w1 == w {
      Nobody(w, WriteBranch(ME, ok));
      NobodyTwice(w);
      Then(w, [WriteBranch(ME, ok)], w, [CheckIntent(ME), Update(ME)], w);
    } else {
      BranchRuns(w, patch, version, ok);
    }
    Then(w, [Merge(ME, patch, version)], w1, [WriteBranch(ME, ok)] + [CheckIntent(ME), Update(ME)], end);
    assert [Merge(ME, patch, version)] + ([WriteBranch(ME, ok)] + [CheckIntent(ME), Update(ME)])
        == [Merge(ME, patch, version), WriteBranch(ME, ok), CheckIntent(ME), Update(ME)];
  }

  lemma ParkBecomes(w: World, code: ErrorCode, found: Option<VerifyEvidence>)
    requires w.actors == map[]
    ensures Becomes(Set(w, ME, ParkGet(code, found)), [Park(ME)], Set(w, ME, Issue(ParkIntent(w, code, found), NoEffect, StopQuietly)))
  {
    var issue := Issue(ParkIntent(w, code, found), NoEffect, StopQuietly);
    assert map[ME := ParkGet(code, found)][ME := issue] == map[ME := issue];
    OneStep(Set(w, ME, ParkGet(code, found)), Park(ME), Set(w, ME, issue));
  }

  lemma ParkRuns(w: World, code: ErrorCode, found: Option<VerifyEvidence>)
    requires w.actors == map[]
    ensures Becomes(Set(w, ME, ParkGet(code, found)), [Park(ME), CheckIntent(ME), Update(ME)],
                    Written(w, ParkIntent(w, code, found), NoEffect))
  {
    ParkBecomes(w, code, found);
    IntentRuns(w, ParkIntent(w, code, found), NoEffect);
    Then(Set(w, ME, ParkGet(code, found)), [Park(ME)], Set(w, ME, Issue(ParkIntent(w, code, found), NoEffect, StopQuietly)),
         [CheckIntent(ME), Update(ME)], Written(w, ParkIntent(w, code, found), NoEffect));
    assert [Park(ME)] + [CheckIntent(ME), Update(ME)] == [Park(ME), CheckIntent(ME), Update(ME)];
  }
}
