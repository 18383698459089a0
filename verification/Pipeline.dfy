/** The coordinator's pipeline for one task as a transition system: runs, approvals, merges, resumes
    and crashes interleave, every database read and every commit is a step of its own. */
module Pipeline {
  import opened Wrappers
  import opened StateMachine
  import opened QualityGate
  import opened ReviewStore
  import Decimal

  datatype PatchRow = PatchRow(version: nat, hash: string, key: Key, scopeDrift: bool, applied: bool)

  datatype Approval = Approval(approve: bool, hash: string, decidedBy: string)

  /** The unique key of the approval table. */
  datatype ApprovalRef = ApprovalRef(patch: PatchId, version: nat)

  /** What the fix agent's PatchCandidate artifact says. */
  datatype Candidate = Candidate(version: nat, hash: string)

  /** The single fix child of the task (its submission key is fixed) with the artifact of its completion. */
  datatype FixChild = NoFix | FixOpen | FixDone(candidate: Candidate) | FixEnded(code: ErrorCode)

  /** The single verify child, with the candidate it was given and the evidence of its completion. */
  datatype VerifyChild = NoVerify | VerifyOpen(input: Candidate) | VerifyDone(evidence: VerifyEvidence) | VerifyEnded(code: ErrorCode)

  /** What a run does with the row an intent returns. */
  datatype Next = Dispatch(auto: bool) | AfterReview(auto: bool) | EnterFix | AfterTesting | Stop | StopQuietly

  /** What is written in the same transaction as an intent. */
  datatype Effect = NoEffect | MarkApplied(patch: PatchId) | Insert(ref: ApprovalRef, approval: Approval)

  datatype Actor =
    | Idle
    | RunGet(auto: bool)
    | Issue(cmd: Command, effect: Effect, next: Next)
    | Swapping(cmd: Command, values: Values, effect: Effect, next: Next)
    | ReviewWork(auto: bool)
    | FixGet
    | FixExecute
    | FixBuild
    | FixHandler(version: nat)
    | FixRecord(candidate: Candidate)
    | FixFinish(patch: PatchId)
    | VerifyGet
    | VerifyHandler(patch: PatchId, input: Candidate)
    | VerifyRecord(patch: PatchId, evidence: VerifyEvidence)
    | VerifyFinish(patch: PatchId, evidence: VerifyEvidence)
    | ParkGet(code: ErrorCode, found: Option<VerifyEvidence>)
    | Deciding(ref: ApprovalRef, approval: Approval, seen: nat)
    | Merging(target: PatchId, version: nat, seen: nat)

  datatype World = World(
    h: History, patches: map<PatchId, PatchRow>, approvals: map<ApprovalRef, Approval>,
    fix: FixChild, verify: VerifyChild, actors: map<ActorId, Actor>)

  datatype FixAnswer = FixProduced(hash: string) | FixError(code: ErrorCode)

  datatype VerifyAnswer = VerifyMeasured(preScanOk: bool, measured: Measured) | VerifyError(code: ErrorCode)

  datatype Action =
    // the run of a task, started by the API, by a trigger or by recovery
    | StartRun(actor: ActorId, auto: bool)
    | ReadTask(actor: ActorId)
    | FinishReview(actor: ActorId)
    | BeginFix(actor: ActorId, offline: bool, fixable: bool)
    | ExecuteFix(actor: ActorId, findingMissing: bool)
    | BuildFix(actor: ActorId)
    | AnswerFix(actor: ActorId, answer: FixAnswer)
    | RecordPatch(actor: ActorId, id: PatchId, drift: bool)
    | FinishFix(actor: ActorId)
    | BeginVerify(actor: ActorId, latest: PatchId)
    | AnswerVerify(actor: ActorId, verdict: VerifyAnswer)
    | RecordEvidence(actor: ActorId)
    | FinishVerify(actor: ActorId)
    | RaiseError(actor: ActorId, code: ErrorCode)
    | Park(actor: ActorId)
    // people
    | Approve(actor: ActorId, patch: PatchId, version: nat, accept: bool, decidedBy: string, approver: bool, reasonBlank: bool)
    | Decide(actor: ActorId)
    | Merge(actor: ActorId, patch: PatchId, version: nat)
    | WriteBranch(actor: ActorId, ok: bool)
    | Resume(actor: ActorId, target: ParentStatus, expected: nat, key: Key, reasonBlank: bool)
    // the two halves of apply_intent, and a process that dies
    | CheckIntent(actor: ActorId)
    | Update(actor: ActorId)
    | Crash(actor: ActorId)

  // ---- Keys and changes --------------------------------------------------------------------------

  function Tagged(name: string, version: nat): Key {
    name + ":v" + Decimal.Print(version)
  }

  function FixKey(version: nat): Key {
    Tagged("fix", version)
  }

  function To(status: ParentStatus): Changes {
    Changes(Some(status), None, None, None, None, map[], {})
  }

  /** An intent of the coordinator: it owns the row and never asks for a resume. */
  function Intend(expected: nat, changes: Changes, key: Key): Command {
    Command(expected, "coordinator", changes, key, true, false)
  }

  function ParkTarget(code: ErrorCode): ParentStatus {
    match DefaultParentStatus(code)
    case Some(Failed) => Failed
    case _ => NeedsHuman
  }

  function GateFailure(e: VerifyEvidence): ErrorCode {
    if !e.preScanOk then SandboxViolation else if e.testGap then TestGap else QualityGateFailed
  }

  /** max(patch_version) + 1 over the task's patches. */
  ghost predicate IsNextVersion(patches: map<PatchId, PatchRow>, n: nat) {
    && n >= 1
    && (forall p :: p in patches ==> patches[p].version < n)
    && (n == 1 || exists p :: p in patches && patches[p].version == n - 1)
  }

  ghost predicate IsLatest(patches: map<PatchId, PatchRow>, id: PatchId) {
    id in patches && forall p :: p in patches ==> patches[p].version <= patches[id].version
  }

  // ---- Steps ---------------------------------------------------------------------------------------

  function Set(w: World, actor: ActorId, state: Actor): World {
    w.(actors := w.actors[actor := state])
  }

  function End(w: World, actor: ActorId): World {
    w.(actors := w.actors - {actor})
  }

  /** An error inside a run rolls back and parks the task; anywhere else it just ends the call. */
  function Fail(w: World, actor: ActorId, state: Actor, code: ErrorCode): World {
    match state
    case Issue(_, effect, next) =>
      if effect.NoEffect? && !next.StopQuietly? then Set(w, actor, ParkGet(code, None)) else End(w, actor)
    case Swapping(_, _, effect, next) =>
      if effect.NoEffect? && !next.StopQuietly? then Set(w, actor, ParkGet(code, None)) else End(w, actor)
    case Deciding(_, _, _) => End(w, actor)
    case Merging(_, _, _) => End(w, actor)
    case ParkGet(_, _) => End(w, actor)
    case _ => Set(w, actor, ParkGet(code, None))
  }

  /** The if-chain of run_async on the status it holds. */
  function DispatchOn(w: World, actor: ActorId, status: ParentStatus, auto: bool): World {
    match status
    case Reviewing => Set(w, actor, ReviewWork(auto))
    case Reviewed => Set(w, actor, FixGet)
    case Fixing => Set(w, actor, FixGet)
    case Testing => Set(w, actor, VerifyGet)
    case _ => End(w, actor)
  }

  function Continue(w: World, actor: ActorId, next: Next): World {
    match next
    case Dispatch(auto) => DispatchOn(w, actor, w.h.row.status, auto)
    case AfterReview(auto) => if auto && w.h.row.status == Reviewed then Set(w, actor, FixGet) else End(w, actor)
    case EnterFix => Set(w, actor, FixExecute)
    case AfterTesting => if w.h.row.status == Testing then Set(w, actor, VerifyGet) else End(w, actor)
    case Stop => End(w, actor)
    case StopQuietly => End(w, actor)
  }

  predicate EffectPossible(w: World, e: Effect) {
    match e
    case NoEffect => true
    case MarkApplied(p) => p in w.patches
    case Insert(ref, _) => ref !in w.approvals
  }

  function ApplyEffect(w: World, e: Effect): World
    requires EffectPossible(w, e)
  {
    match e
    case NoEffect => w
    case MarkApplied(p) => w.(patches := w.patches[p := w.patches[p].(applied := true)])
    case Insert(ref, approval) => w.(approvals := w.approvals[ref := approval])
  }

  function DoReadTask(w: World, actor: ActorId, auto: bool): World {
    var row := w.h.row;
    if row.status == Draft then
      Set(w, actor, Issue(Intend(row.version, To(Reviewing), "enter_reviewing"), NoEffect, Dispatch(auto)))
    else DispatchOn(w, actor, row.status, auto)
  }

  function DoFinishReview(w: World, actor: ActorId, auto: bool): World {
    var changes := To(Reviewed).(summary := Some(Summary(None)));
    Set(w, actor, Issue(Intend(w.h.row.version, changes, "reviewed"), NoEffect, AfterReview(auto)))
  }

  function DoBeginFix(w: World, actor: ActorId, offline: bool, fixable: bool): World {
    var row := w.h.row;
    if offline then Set(w, actor, Issue(Intend(row.version, To(Rejected), "offline_stop"), NoEffect, Stop))
    else if !fixable then Set(w, actor, Issue(Intend(row.version, To(Rejected), "no_fix"), NoEffect, Stop))
    else if row.status == Reviewed then
      Set(w, actor, Issue(Intend(row.version, To(Fixing), "enter_fixing"), NoEffect, EnterFix))
    else Set(w, actor, FixExecute)
  }

  /** Submitting is idempotent; a child that has ended is not run again. */
  function DoExecuteFix(w: World, actor: ActorId, findingMissing: bool): World {
    if findingMissing then Set(w, actor, ParkGet(ArtifactSchemaInvalid, None))
    else
      match w.fix
      case FixDone(c) => Set(w, actor, FixRecord(c))
      case FixEnded(code) => Set(w, actor, ParkGet(code, None))
      case _ => Set(w.(fix := FixOpen), actor, FixBuild)
  }

  /** The request takes the next patch version, read after the child was found open. */
  ghost function DoBuildFix(w: World, actor: ActorId): World {
    if exists n: nat :: IsNextVersion(w.patches, n) then
      var n: nat :| IsNextVersion(w.patches, n);
      Set(w, actor, FixHandler(n))
    else w
  }

  /** The handler's answer is committed by compare-and-swap on the child row: only an open child takes it. */
  function DoAnswerFix(w: World, actor: ActorId, version: nat, answer: FixAnswer): World {
    match w.fix
    case FixOpen =>
      (match answer
       case FixProduced(hash) =>
         var c := Candidate(version, hash);
         Set(w.(fix := FixDone(c)), actor, FixRecord(c))
       case FixError(code) => Set(w.(fix := FixEnded(code)), actor, ParkGet(code, None)))
    case FixDone(c) =>
      if answer.FixProduced? then Set(w, actor, ParkGet(StateVersionConflict, None)) else Set(w, actor, FixRecord(c))
    case FixEnded(code) => Set(w, actor, ParkGet(if answer.FixProduced? then StateVersionConflict else code, None))
    case NoFix => Set(w, actor, ParkGet(ResourceNotFound, None))
  }

  /** create_candidate with its two unique constraints, then the scope flags. */
  ghost function DoRecordPatch(w: World, actor: ActorId, c: Candidate, newId: PatchId, drift: bool): World {
    var next := (id: PatchId) => if drift then ParkGet(ScopeDrift, None) else FixFinish(id);
    if exists p :: p in w.patches && w.patches[p].key == FixKey(c.version) then
      var p :| p in w.patches && w.patches[p].key == FixKey(c.version);
      Set(w.(patches := w.patches[p := w.patches[p].(scopeDrift := drift)]), actor, next(p))
    else if newId in w.patches || exists p :: p in w.patches && w.patches[p].version == c.version then End(w, actor)
    else
      var row := PatchRow(c.version, c.hash, FixKey(c.version), drift, false);
      Set(w.(patches := w.patches[newId := row]), actor, next(newId))
  }

  function DoFinishFix(w: World, actor: ActorId, patch: PatchId): World {
    var row := w.h.row;
    if row.status == Fixing && patch in w.patches then
      var changes := To(Testing).(activePatch := Some(patch));
      Set(w, actor, Issue(Intend(row.version, changes, Tagged("enter_testing", w.patches[patch].version)),
                          NoEffect, AfterTesting))
    else if row.status == Testing then Set(w, actor, VerifyGet)
    else End(w, actor)
  }

  ghost function DoBeginVerify(w: World, actor: ActorId, latest: PatchId): World {
    if w.h.row.activePatch.None? && w.patches == map[] then Set(w, actor, ParkGet(PatchInvalid, None))
    else
      var id := if w.h.row.activePatch.Some? then w.h.row.activePatch.value else latest;
      if id !in w.patches then Fail(w, actor, VerifyGet, ResourceNotFound)
      else if w.h.row.activePatch.None? && !IsLatest(w.patches, id) then w
      else
        match w.verify
        case VerifyDone(e) => Set(w, actor, VerifyRecord(id, e))
        case VerifyEnded(code) => Set(w, actor, ParkGet(code, None))
        case VerifyOpen(input) => Set(w, actor, VerifyHandler(id, input))
        case NoVerify =>
          var input := Candidate(w.patches[id].version, w.patches[id].hash);
          Set(w.(verify := VerifyOpen(input)), actor, VerifyHandler(id, input))
  }

  function DoAnswerVerify(w: World, actor: ActorId, patch: PatchId, input: Candidate, verdict: VerifyAnswer): World {
    match w.verify
    case VerifyOpen(_) =>
      (match verdict
       case VerifyMeasured(ok, m) =>
         var e := Assess(input.version, input.hash, ok, m);
         Set(w.(verify := VerifyDone(e)), actor, VerifyRecord(patch, e))
       case VerifyError(code) => Set(w.(verify := VerifyEnded(code)), actor, ParkGet(code, None)))
    case VerifyDone(e) =>
      if verdict.VerifyMeasured? then Set(w, actor, ParkGet(StateVersionConflict, None))
      else Set(w, actor, VerifyRecord(patch, e))
    case VerifyEnded(code) => Set(w, actor, ParkGet(if verdict.VerifyMeasured? then StateVersionConflict else code, None))
    case NoVerify => Set(w, actor, ParkGet(ResourceNotFound, None))
  }

  /** record_evidence overwrites the scope flag with the verify agent's, which is always false. */
  function DoRecordEvidence(w: World, actor: ActorId, patch: PatchId, e: VerifyEvidence): World {
    if patch !in w.patches then End(w, actor)
    else
      var w' := w.(patches := w.patches[patch := w.patches[patch].(scopeDrift := false)]);
      if e.sufficient then Set(w', actor, VerifyFinish(patch, e))
      else Set(w', actor, ParkGet(GateFailure(e), Some(e)))
  }

  function DoFinishVerify(w: World, actor: ActorId, patch: PatchId, e: VerifyEvidence): World {
    if w.h.row.status == Testing && patch in w.patches then
      var changes := To(PendingApproval).(summary := Some(Summary(Some(e))));
      Set(w, actor, Issue(Intend(w.h.row.version, changes, Tagged("enter_pending_approval", w.patches[patch].version)),
                          NoEffect, Stop))
    else End(w, actor)
  }

  /** What parking writes: the status the error leads to, its code, and the evidence that failed the gate if there is any. */
  function ParkChanges(code: ErrorCode, evidence: Option<VerifyEvidence>): Changes {
    To(ParkTarget(code)).(summary := if evidence.Some? then Some(Summary(evidence)) else None,
                          texts := map["error_code" := CodeText(code)])
  }

  function DoPark(w: World, actor: ActorId, code: ErrorCode, evidence: Option<VerifyEvidence>): World {
    Set(w, actor, Issue(Intend(w.h.row.version, ParkChanges(code, evidence), "park:" + CodeText(code)), NoEffect, StopQuietly))
  }

  function DoApprove(w: World, actor: ActorId, patch: PatchId, version: nat, accept: bool, decidedBy: string,
                     approver: bool, reasonBlank: bool): World {
    if patch !in w.patches || w.h.row.status != PendingApproval then w
    else if accept && w.patches[patch].scopeDrift then w
    else if version != w.patches[patch].version then w
    else if !approver || (!accept && reasonBlank) then w
    else Set(w, actor, Deciding(ApprovalRef(patch, version), Approval(accept, w.patches[patch].hash, decidedBy), w.h.row.version))
  }

  /** ApprovalStore.record, and for a rejection the intent that goes with it. */
  function DoDecide(w: World, actor: ActorId, ref: ApprovalRef, approval: Approval, seen: nat): World {
    var rejection := (e: Effect) => Issue(Intend(seen, To(Rejected), Tagged("rejected", ref.version)), e, StopQuietly);
    if ref in w.approvals then
      if w.approvals[ref].approve != approval.approve || w.approvals[ref].decidedBy != approval.decidedBy then End(w, actor)
      else if approval.approve then End(w, actor)
      else Set(w, actor, rejection(NoEffect))
    else if approval.approve then End(ApplyEffect(w, Insert(ref, approval)), actor)
    else Set(w, actor, rejection(Insert(ref, approval)))
  }

  predicate Approved(w: World, patch: PatchId, version: nat) {
    var ref := ApprovalRef(patch, version);
    && patch in w.patches && ref in w.approvals && w.approvals[ref].approve
    && w.patches[patch].version == version && w.approvals[ref].hash == w.patches[patch].hash
  }

  function DoMerge(w: World, actor: ActorId, patch: PatchId, version: nat): World {
    if !Approved(w, patch, version) || w.h.row.status != PendingApproval || w.patches[patch].applied then w
    else Set(w, actor, Merging(patch, version, w.h.row.version))
  }

  function DoWriteBranch(w: World, actor: ActorId, patch: PatchId, version: nat, seen: nat, ok: bool): World {
    if !ok then End(w, actor)
    else Set(w, actor, Issue(Intend(seen, To(Merged), Tagged("merged", version)), MarkApplied(patch), StopQuietly))
  }

  function DoResume(w: World, actor: ActorId, target: ParentStatus, expected: nat, key: Key, reasonBlank: bool): World {
    if !CanHumanResume(w.h.row.status, target) || reasonBlank then w
    else Set(w, actor, Issue(ResumeCommand(w.h.row, target, expected, key), NoEffect, StopQuietly))
  }

  function DoCheck(w: World, actor: ActorId, cmd: Command, effect: Effect, next: Next): World {
    match Check(w.h, cmd)
    case Refused(code) => Fail(w, actor, Issue(cmd, effect, next), code)
    case Replayed =>
      if EffectPossible(w, effect) then Continue(ApplyEffect(w, effect), actor, next) else End(w, actor)
    case Ready(v) => Set(w, actor, Swapping(cmd, v, effect, next))
  }

  function DoUpdate(w: World, actor: ActorId, cmd: Command, v: Values, effect: Effect, next: Next): World {
    if w.h.row.version != cmd.expected then Fail(w, actor, Swapping(cmd, v, effect, next), StateVersionConflict)
    else if !EffectPossible(w, effect) then End(w, actor)
    else Continue(ApplyEffect(w, effect).(h := Swap(w.h, cmd, v)), actor, next)
  }

  function StateOf(w: World, actor: ActorId): Actor {
    if actor in w.actors then w.actors[actor] else Idle
  }

  /** One step; an action whose actor is not at the matching point does nothing. */
  ghost function Step(w: World, a: Action): World {
    var me := StateOf(w, a.actor);
    match a
    case StartRun(actor, auto) => if me.Idle? then Set(w, actor, RunGet(auto)) else w
    case ReadTask(actor) => if me.RunGet? then DoReadTask(w, actor, me.auto) else w
    case FinishReview(actor) => if me.ReviewWork? then DoFinishReview(w, actor, me.auto) else w
    case BeginFix(actor, offline, fixable) => if me.FixGet? then DoBeginFix(w, actor, offline, fixable) else w
    case ExecuteFix(actor, missing) => if me.FixExecute? then DoExecuteFix(w, actor, missing) else w
    case BuildFix(actor) => if me.FixBuild? then DoBuildFix(w, actor) else w
    case AnswerFix(actor, answer) => if me.FixHandler? then DoAnswerFix(w, actor, me.version, answer) else w
    case RecordPatch(actor, id, drift) => if me.FixRecord? then DoRecordPatch(w, actor, me.candidate, id, drift) else w
    case FinishFix(actor) => if me.FixFinish? then DoFinishFix(w, actor, me.patch) else w
    case BeginVerify(actor, latest) => if me.VerifyGet? then DoBeginVerify(w, actor, latest) else w
    case AnswerVerify(actor, verdict) =>
      if me.VerifyHandler? then DoAnswerVerify(w, actor, me.patch, me.input, verdict) else w
    case RecordEvidence(actor) => if me.VerifyRecord? then DoRecordEvidence(w, actor, me.patch, me.evidence) else w
    case FinishVerify(actor) => if me.VerifyFinish? then DoFinishVerify(w, actor, me.patch, me.evidence) else w
    case RaiseError(actor, code) => if me.Idle? then w else Fail(w, actor, me, code)
    case Park(actor) => if me.ParkGet? then DoPark(w, actor, me.code, me.found) else w
    case Approve(actor, p, v, accept, decidedBy, approver, blank) =>
      if me.Idle? then DoApprove(w, actor, p, v, accept, decidedBy, approver, blank) else w
    case Decide(actor) => if me.Deciding? then DoDecide(w, actor, me.ref, me.approval, me.seen) else w
    case Merge(actor, p, v) => if me.Idle? then DoMerge(w, actor, p, v) else w
    case WriteBranch(actor, ok) => if me.Merging? then DoWriteBranch(w, actor, me.target, me.version, me.seen, ok) else w
    case Resume(actor, target, expected, key, blank) =>
      if me.Idle? then DoResume(w, actor, target, expected, key, blank) else w
    case CheckIntent(actor) => if me.Issue? then DoCheck(w, actor, me.cmd, me.effect, me.next) else w
    case Update(actor) => if me.Swapping? then DoUpdate(w, actor, me.cmd, me.values, me.effect, me.next) else w
    case Crash(actor) => End(w, actor)
  }

  ghost function Run(w: World, actions: seq<Action>): World
    decreases |actions|
  {
    if actions == [] then w else Run(Step(w, actions[0]), actions[1..])
  }

  function Start(owner: string): World {
    World(Fresh(owner), map[], map[], NoFix, NoVerify, map[])
  }
}
