/** The parent-task store: a versioned row per task, written only by compare-and-swap, and an
    append-only audit log that doubles as the replay table of idempotency keys. */
module ReviewStore {
  import opened Wrappers
  import opened StateMachine
  import QualityGate
  import TextLines

  type TaskId = string
  type Key = string
  type PatchId = string
  type ActorId = string

  /** The summary column is a JSON document; the verify evidence is the one entry others read back. */
  datatype Summary = Summary(evidence: Option<QualityGate.VerifyEvidence>)

  datatype Row = Row(
    status: ParentStatus, version: nat, owner: string, needsHumanFrom: Option<ParentStatus>, finished: bool,
    activePatch: Option<PatchId>, summary: Summary, texts: map<string, string>)

  /** A change request: one optional new value per mutable column, the remaining mutable columns as
      plain text, and the names of any columns that nobody may change. */
  datatype Changes = Changes(
    status: Option<ParentStatus>, owner: Option<string>, needsHumanFrom: Option<ParentStatus>,
    activePatch: Option<PatchId>, summary: Option<Summary>, texts: map<string, string>, foreign: set<string>)

  datatype Command = Command(
    expected: nat, owner: string, changes: Changes, key: Key, requireOwner: bool, resume: bool)

  /** One apply_state_intent audit event. */
  datatype Entry = Entry(version: nat, key: Key, changes: Changes, resume: bool)

  datatype History = History(first: Row, row: Row, log: seq<Entry>)

  /** The column values the UPDATE will write: the request plus the derived columns. */
  datatype Values = Values(changes: Changes, finish: bool)

  datatype Verdict = Refused(code: ErrorCode) | Replayed | Ready(values: Values)

  datatype Mutation = Mutation(row: Row, applied: bool)

  predicate KeyUsed(log: seq<Entry>, key: Key) {
    exists i :: 0 <= i < |log| && log[i].key == key
  }

  predicate EdgeAllowed(current: ParentStatus, target: ParentStatus, resume: bool) {
    if resume then CanHumanResume(current, target) else CanTransitionParent(current, target)
  }

  /** The derived columns are computed from the row that was read, before the UPDATE. */
  function Derive(seen: Row, c: Changes): Values {
    var c' := if c.status == Some(NeedsHuman) && c.needsHumanFrom.None?
              then c.(needsHumanFrom := Some(seen.status)) else c;
    Values(c', c.status.Some? && Final(c.status.value))
  }

  function Write(row: Row, v: Values): Row {
    var c := v.changes;
    Row(if c.status.Some? then c.status.value else row.status,
        row.version + 1,
        if c.owner.Some? then c.owner.value else row.owner,
        if c.needsHumanFrom.Some? then c.needsHumanFrom else row.needsHumanFrom,
        row.finished || v.finish,
        if c.activePatch.Some? then c.activePatch else row.activePatch,
        if c.summary.Some? then c.summary.value else row.summary,
        row.texts + c.texts)
  }

  /** What an applied change makes of a row, column by column: every column it names gets the new value, every other one
      keeps its own. A task that goes to NEEDS_HUMAN remembers where it came from unless it is told, and one that goes to a
      final status has finished. */
  ghost predicate Updated(before: Row, c: Changes, after: Row) {
    && after.version == before.version + 1
    && (if c.status.Some? then after.status == c.status.value else after.status == before.status)
    && (if c.owner.Some? then after.owner == c.owner.value else after.owner == before.owner)
    && (if c.activePatch.Some? then after.activePatch == c.activePatch else after.activePatch == before.activePatch)
    && (if c.summary.Some? then after.summary == c.summary.value else after.summary == before.summary)
    && after.needsHumanFrom == (if c.needsHumanFrom.Some? then c.needsHumanFrom
                                else if c.status == Some(NeedsHuman) then Some(before.status) else before.needsHumanFrom)
    && (after.finished <==> before.finished || c.status == Some(Merged) || c.status == Some(Rejected) || c.status == Some(Failed))
    && (forall k :: k in c.texts ==> k in after.texts && after.texts[k] == c.texts[k])
    && (forall k :: k in before.texts && k !in c.texts ==> k in after.texts && after.texts[k] == before.texts[k])
    && (forall k :: k in after.texts ==> k in before.texts || k in c.texts)
  }

  lemma WriteUpdates(row: Row, c: Changes)
    ensures Updated(row, c, Write(row, Derive(row, c)))
  {
  }

  /** Everything apply_intent checks before it writes, against the row and log it reads. */
  function Check(h: History, cmd: Command): Verdict {
    if cmd.changes.foreign != {} then Refused(PermissionDenied)
    else if cmd.requireOwner && h.row.owner != cmd.owner then Refused(PermissionDenied)
    else if KeyUsed(h.log, cmd.key) then Replayed
    else if cmd.changes.status.Some? && !EdgeAllowed(h.row.status, cmd.changes.status.value, cmd.resume)
    then Refused(IllegalStateTransition)
    else Ready(Derive(h.row, cmd.changes))
  }

  /** UPDATE ... WHERE state_version = expected, together with the audit row it leaves. */
  function Swap(h: History, cmd: Command, v: Values): History {
    if h.row.version != cmd.expected then h
    else History(h.first, Write(h.row, v), h.log + [Entry(cmd.expected + 1, cmd.key, cmd.changes, cmd.resume)])
  }

  /** human_resume is apply_intent with the caller's own owner, a status-only change and the resume gate. */
  function ResumeCommand(row: Row, target: ParentStatus, expected: nat, key: Key): Command {
    Command(expected, row.owner,
            Changes(Some(target), None, None, None, None, map["error_code" := "", "error_message" := ""], {}),
            key, true, true)
  }

  lemma ErrorsCleared(before: Row, after: Row, target: ParentStatus, expected: nat, key: Key)
    requires Updated(before, ResumeCommand(before, target, expected, key).changes, after)
    ensures after.status == target && after.texts == before.texts["error_code" := ""]["error_message" := ""]
    ensures after.owner == before.owner && after.activePatch == before.activePatch && after.summary == before.summary
  {
    var cleared := before.texts["error_code" := ""]["error_message" := ""];
    assert ResumeCommand(before, target, expected, key).changes.texts == map["error_code" := "", "error_message" := ""];
    assert after.texts.Keys == cleared.Keys;
  }

  // ---- Creating a task ----------------------------------------------------------------------

  const MIN_KEY_LENGTH: nat := 8

  /** The columns of the unique constraint on creations. */
  datatype CreateKey = CreateKey(actor: string, command: string, key: Key)

  datatype CreateRequest = CreateRequest(slot: CreateKey, inputHash: string, customId: Option<string>)

  /** The task a key has created, and the hash of the input it was created for. */
  datatype Origin = Origin(task: TaskId, inputHash: string)

  /** A task number of a person's own, unique for each actor. */
  datatype CustomId = CustomId(actor: string, id: string)

  /** The number as it is stored: an empty one is none, a blank one is kept as the empty text. */
  function Stored(request: CreateRequest): Option<CustomId> {
    if request.customId.None? || request.customId.value == "" then None
    else Some(CustomId(request.slot.actor, TextLines.Strip(request.customId.value)))
  }

  predicate NotAllowedToChange(h: History, cmd: Command) {
    cmd.changes.foreign != {} || (cmd.requireOwner && h.row.owner != cmd.owner)
  }

  predicate NoSuchEdge(h: History, cmd: Command) {
    cmd.changes.status.Some? &&
    if cmd.resume then !CanHumanResume(h.row.status, cmd.changes.status.value)
    else !CanTransitionParent(h.row.status, cmd.changes.status.value)
  }

  /** When each answer of apply_intent is given: first who may change what, then whether it was done before, then where the
      task may go, and last whether anybody else was quicker. */
  ghost predicate AnswersFor(h: History, cmd: Command, r: Result<Mutation, ErrorCode>) {
    && (r == Err(PermissionDenied) <==> NotAllowedToChange(h, cmd))
    && (r == Ok(Mutation(h.row, false)) <==> !NotAllowedToChange(h, cmd) && KeyUsed(h.log, cmd.key))
    && (r == Err(IllegalStateTransition) <==> !NotAllowedToChange(h, cmd) && !KeyUsed(h.log, cmd.key) && NoSuchEdge(h, cmd))
    && (r == Err(StateVersionConflict) <==>
          !NotAllowedToChange(h, cmd) && !KeyUsed(h.log, cmd.key) && !NoSuchEdge(h, cmd) && h.row.version != cmd.expected)
    && (r.Ok? && r.value.applied <==>
          !NotAllowedToChange(h, cmd) && !KeyUsed(h.log, cmd.key) && !NoSuchEdge(h, cmd) && h.row.version == cmd.expected)
  }

  // ---- The store object ---------------------------------------------------------------------

  class ReviewTaskStore {
    var histories: map<TaskId, History>
    var origins: map<CreateKey, Origin>
    var customIds: set<CustomId>

    constructor ()
      ensures Valid() && histories == map[] && origins == map[] && customIds == {}
    {
      histories, origins, customIds := map[], map[], {};
    }

    /** Every key leads to a task, and no two keys to the same one. */
    ghost predicate Valid()
      reads this
    {
      && (forall k :: k in origins ==> origins[k].task in histories)
      && (forall k, l :: k in origins && l in origins && origins[k].task == origins[l].task ==> k == l)
    }

    /** A new DRAFT task at version 1 with an empty log, or the task its key has created before. */
    method Create(task: TaskId, request: CreateRequest) returns (r: Result<TaskId, ErrorCode>, created: bool)
      requires Valid()
      modifies this
      ensures Valid()
      ensures r.Ok? ==> request.slot in origins && origins[request.slot] == Origin(r.value, request.inputHash)
      ensures created ==>
                && r == Ok(task) && task !in old(histories) && request.slot !in old(origins)
                && histories == old(histories)[task := Fresh("coordinator")]
                && origins == old(origins)[request.slot := Origin(task, request.inputHash)]
                && customIds == old(customIds) + if Stored(request).Some? then {Stored(request).value} else {}
      ensures created ==>
                && histories[task].row.status == Draft && histories[task].row.version == 1
                && histories[task].row.owner == "coordinator" && !histories[task].row.finished && histories[task].log == []
      ensures request.customId.None? || request.customId.value == "" ==>
                customIds == old(customIds)
                && (created <==> |request.slot.key| >= MIN_KEY_LENGTH && request.slot !in old(origins) && task !in old(histories))
      ensures request.customId.Some? && request.customId.value != "" ==>
                var id := CustomId(request.slot.actor, TextLines.Strip(request.customId.value));
                && customIds == old(customIds) + (if created then {id} else {})
                && (created <==> && |request.slot.key| >= MIN_KEY_LENGTH && request.slot !in old(origins)
                                 && task !in old(histories) && id !in old(customIds))
      ensures r.Ok? && !created <==>
                && |request.slot.key| >= MIN_KEY_LENGTH && r != Err(Conflict)
                && request.slot in old(origins) && old(origins)[request.slot].inputHash == request.inputHash
      ensures !created ==> histories == old(histories) && origins == old(origins) && customIds == old(customIds)
      ensures r == Err(IdempotencyKeyRequired) <==> |request.slot.key| < MIN_KEY_LENGTH
      ensures r == Err(Conflict) <==>
                && |request.slot.key| >= MIN_KEY_LENGTH
                && Stored(request).Some? && Stored(request).value.id != "" && Stored(request).value in old(customIds)
      ensures r.Err? ==> r.error in {IdempotencyKeyRequired, Conflict, IdempotencyConflict}
      ensures r == Err(IdempotencyConflict) ==>
                if request.slot in old(origins) then old(origins)[request.slot].inputHash != request.inputHash
                else task in old(histories) || (Stored(request).Some? && Stored(request).value in old(customIds))
    {
      created := false;
      if |request.slot.key| < MIN_KEY_LENGTH {
        r := Err(IdempotencyKeyRequired);
        return;
      }
      var custom := Stored(request);
      if custom.Some? && custom.value.id != "" && custom.value in customIds {
        r := Err(Conflict);
        return;
      }
      if request.slot in origins {
        r := if origins[request.slot].inputHash != request.inputHash then Err(IdempotencyConflict) else Ok(origins[request.slot].task);
        return;
      }
      // the unique constraints of the table; whoever created the key meanwhile is found above
      if task in histories || (custom.Some? && custom.value in customIds) {
        r := Err(IdempotencyConflict);
        return;
      }
      histories := histories[task := Fresh("coordinator")];
      origins := origins[request.slot := Origin(task, request.inputHash)];
      customIds := customIds + if custom.Some? then {custom.value} else {};
      r, created := Ok(task), true;
    }

    method ApplyIntent(task: TaskId, cmd: Command) returns (r: Result<Mutation, ErrorCode>)
      modifies this`histories
      ensures old(Valid()) ==> Valid()
      ensures task !in old(histories) ==> r == Err(ResourceNotFound) && histories == old(histories)
      ensures task in old(histories) ==> IntentOutcome(old(histories)[task], cmd, r)
      ensures task in old(histories) ==>
                histories == old(histories)[task := Intent(old(histories)[task], cmd)]
      ensures r.Err? || !r.value.applied ==> histories == old(histories)
      ensures task in old(histories) ==> AnswersFor(old(histories)[task], cmd, r)
      ensures r.Ok? && r.value.applied ==>
                var h, h' := old(histories)[task], histories[task];
                && Updated(h.row, cmd.changes, h'.row) && r.value.row == h'.row && h'.first == h.first
                && h'.log == h.log + [Entry(h.row.version + 1, cmd.key, cmd.changes, cmd.resume)]
    {
      if task !in histories {
        return Err(ResourceNotFound);
      }
      var h := histories[task];
      assert histories == histories[task := h];
      if cmd.changes.foreign != {} {
        return Err(PermissionDenied);
      }
      if cmd.requireOwner && h.row.owner != cmd.owner {
        return Err(PermissionDenied);
      }
      var replayed := FindKey(h.log, cmd.key);
      if replayed {
        return Ok(Mutation(h.row, false));
      }
      if cmd.changes.status.Some? && !EdgeAllowed(h.row.status, cmd.changes.status.value, cmd.resume) {
        return Err(IllegalStateTransition);
      }
      var values := Derive(h.row, cmd.changes);
      if h.row.version != cmd.expected {
        return Err(StateVersionConflict);
      }
      var row := Write(h.row, values);
      WriteUpdates(h.row, cmd.changes);
      histories := histories[task := History(h.first, row,
                                             h.log + [Entry(cmd.expected + 1, cmd.key, cmd.changes, cmd.resume)])];
      r := Ok(Mutation(row, true));
    }

    method HumanResume(task: TaskId, target: ParentStatus, expected: nat, reasonBlank: bool, key: Key)
      returns (r: Result<Mutation, ErrorCode>)
      modifies this`histories
      ensures old(Valid()) ==> Valid()
      ensures task !in old(histories) ==> r == Err(ResourceNotFound) && histories == old(histories)
      ensures task in old(histories) ==>
                var h := old(histories)[task];
                if !CanHumanResume(h.row.status, target) then r == Err(IllegalStateTransition) && histories == old(histories)
                else if reasonBlank then r == Err(InvalidInput) && histories == old(histories)
                else IntentOutcome(h, ResumeCommand(h.row, target, expected, key), r)
                     && histories == old(histories)[task := Intent(h, ResumeCommand(h.row, target, expected, key))]
      ensures r.Ok? && r.value.applied ==>
                var before, after := old(histories)[task].row, histories[task].row;
                && after.status == target && before.status == NeedsHuman && r.value.row == after
                && after.texts == before.texts["error_code" := ""]["error_message" := ""]
                && after.owner == before.owner && after.activePatch == before.activePatch && after.summary == before.summary
    {
      if task !in histories {
        return Err(ResourceNotFound);
      }
      var row := histories[task].row;
      if !CanHumanResume(row.status, target) {
        return Err(IllegalStateTransition);
      }
      if reasonBlank {
        return Err(InvalidInput);
      }
      r := ApplyIntent(task, ResumeCommand(row, target, expected, key));
      if r.Ok? && r.value.applied {
        ErrorsCleared(row, histories[task].row, target, expected, key);
      }
    }
  }

  function Fresh(owner: string): History {
    var row := Row(Draft, 1, owner, None, false, None, Summary(None), map[]);
    History(row, row, [])
  }

  /** One uninterrupted apply_intent. */
  function Intent(h: History, cmd: Command): History {
    match Check(h, cmd)
    case Ready(v) => Swap(h, cmd, v)
    case _ => h
  }

  predicate IntentOutcome(h: History, cmd: Command, r: Result<Mutation, ErrorCode>) {
    match Check(h, cmd)
    case Refused(code) => r == Err(code)
    case Replayed => r == Ok(Mutation(h.row, false))
    case Ready(v) =>
      if h.row.version == cmd.expected then r == Ok(Mutation(Write(h.row, v), true))
      else r == Err(StateVersionConflict)
  }

  method FindKey(log: seq<Entry>, key: Key) returns (found: bool)
    ensures found == KeyUsed(log, key)
  {
    for i := 0 to |log|
      invariant forall j :: 0 <= j < i ==> log[j].key != key
    {
      if log[i].key == key {
        return true;
      }
    }
    return false;
  }
}
