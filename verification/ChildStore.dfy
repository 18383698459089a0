/** The child-task store: idempotent submission, and transitions guarded by owner, replay table,
    edge table and the one controlled retry, written by compare-and-swap. */
module ChildStore {
  import opened Wrappers
  import opened StateMachine

  type ChildId = string
  type Key = string

  /** The columns of the unique constraint on submissions. */
  datatype SubmitKey = SubmitKey(side: string, parent: string, agent: string, taskType: string, key: Key)

  datatype Child = Child(status: ChildStatus, version: nat, attempt: nat, code: StoredCode, owner: string)

  datatype Move = Move(
    target: ChildStatus, expected: nat, key: Key, owner: Option<string>, code: StoredCode, attempt: Option<nat>)

  /** One transition_child_task audit event. */
  datatype Event = Event(version: nat, key: Key, target: ChildStatus, code: StoredCode, attempt: Option<nat>)

  datatype ChildHistory = ChildHistory(first: Child, row: Child, log: seq<Event>)

  datatype Verdict = Refused(code: ErrorCode) | Skipped | Go

  datatype Mutation = Mutation(row: Child, applied: bool)

  predicate KeyUsed(log: seq<Event>, key: Key) {
    exists i :: 0 <= i < |log| && log[i].key == key
  }

  predicate IsRetry(row: Child, target: ChildStatus) {
    row.status.ChildFailed? && target.Working?
  }

  predicate MayRetry(row: Child) {
    CanRetryChild(row.status, row.attempt, row.code, MAX_CHILD_ATTEMPTS)
  }

  predicate MoveAllowed(row: Child, target: ChildStatus) {
    CanTransitionChild(row.status, target) && (IsRetry(row, target) ==> MayRetry(row))
  }

  /** The checks of transition against the row and log it reads. */
  function Guard(h: ChildHistory, m: Move): Verdict {
    if m.owner.Some? && h.row.owner != m.owner.value then Refused(PermissionDenied)
    else if KeyUsed(h.log, m.key) then
      if h.row.status == m.target || ChildTerminal(h.row.status) then Skipped else Refused(IdempotencyConflict)
    else if !MoveAllowed(h.row, m.target) then Refused(IllegalStateTransition)
    else Go
  }

  function Write(row: Child, e: Event): Child {
    Child(e.target, row.version + 1, if e.attempt.Some? then e.attempt.value else row.attempt, e.code, row.owner)
  }

  function EventOf(m: Move): Event {
    Event(m.expected + 1, m.key, m.target, m.code, m.attempt)
  }

  function Swap(h: ChildHistory, m: Move): ChildHistory {
    if h.row.version != m.expected then h
    else ChildHistory(h.first, Write(h.row, EventOf(m)), h.log + [EventOf(m)])
  }

  /** One uninterrupted transition. */
  function Transitioned(h: ChildHistory, m: Move): ChildHistory {
    if Guard(h, m).Go? then Swap(h, m) else h
  }

  predicate NotTheOwner(h: ChildHistory, m: Move) {
    m.owner.Some? && h.row.owner != m.owner.value
  }

  predicate AlreadyThere(h: ChildHistory, m: Move) {
    h.row.status == m.target || ChildTerminal(h.row.status)
  }

  /** No such edge, or the one out of FAILED with the retry used up or an error that may not be retried. */
  predicate NoWay(h: ChildHistory, m: Move) {
    !CanTransitionChild(h.row.status, m.target)
    || (h.row.status == ChildFailed && m.target == Working
        && !(h.row.attempt < MAX_CHILD_ATTEMPTS && h.row.code.Known? && Retryable(h.row.code.code)))
  }

  /** When each answer of transition is given. */
  ghost predicate AnswersFor(h: ChildHistory, m: Move, r: Result<Mutation, ErrorCode>) {
    && (r == Err(PermissionDenied) <==> NotTheOwner(h, m))
    && (r == Ok(Mutation(h.row, false)) <==> !NotTheOwner(h, m) && KeyUsed(h.log, m.key) && AlreadyThere(h, m))
    && (r == Err(IdempotencyConflict) <==> !NotTheOwner(h, m) && KeyUsed(h.log, m.key) && !AlreadyThere(h, m))
    && (r == Err(IllegalStateTransition) <==> !NotTheOwner(h, m) && !KeyUsed(h.log, m.key) && NoWay(h, m))
    && (r == Err(StateVersionConflict) <==>
          !NotTheOwner(h, m) && !KeyUsed(h.log, m.key) && !NoWay(h, m) && h.row.version != m.expected)
    && (r.Ok? && r.value.applied <==> !NotTheOwner(h, m) && !KeyUsed(h.log, m.key) && !NoWay(h, m) && h.row.version == m.expected)
  }

  class A2ATaskStore {
    var ids: map<SubmitKey, ChildId>
    var children: map<ChildId, ChildHistory>

    constructor ()
      ensures ids == map[] && children == map[]
    {
      ids, children := map[], map[];
    }

    ghost predicate Valid()
      reads this
    {
      && (forall k :: k in ids ==> ids[k] in children)
      && (forall k, l :: k in ids && l in ids && ids[k] == ids[l] ==> k == l)
    }

    /** Creates the child of a submission key, or returns the one that is already there; an id of another child's is
        refused. */
    method Submit(key: SubmitKey, id: ChildId, row: Child) returns (found: Result<ChildId, ErrorCode>, created: bool)
      requires Valid()
      modifies this
      ensures Valid()
      ensures created == (key !in old(ids) && id !in old(children))
      ensures found == (if key in ids then Ok(ids[key]) else Err(IdempotencyConflict))
      ensures found.Err? <==> key !in old(ids) && id in old(children)
      ensures created ==> found == Ok(id) && ids == old(ids)[key := id]
                          && children == old(children)[id := ChildHistory(row, row, [])]
      ensures !created ==> ids == old(ids) && children == old(children)
    {
      if key in ids {
        return Ok(ids[key]), false;
      }
      if id in children {
        return Err(IdempotencyConflict), false;
      }
      ids := ids[key := id];
      children := children[id := ChildHistory(row, row, [])];
      return Ok(id), true;
    }

    method Transition(id: ChildId, m: Move) returns (r: Result<Mutation, ErrorCode>)
      modifies this`children
      ensures old(Valid()) ==> Valid()
      ensures id !in old(children) ==> r == Err(ResourceNotFound) && children == old(children)
      ensures id in old(children) ==> AnswersFor(old(children)[id], m, r)
      ensures r.Err? || !r.value.applied ==> children == old(children)
      ensures r.Ok? && r.value.applied ==>
                && id in old(children) && id in children
                && var h, h' := old(children)[id], children[id];
                && children == old(children)[id := h'] && r.value.row == h'.row && h'.first == h.first
                && h'.row == Child(m.target, h.row.version + 1, if m.attempt.Some? then m.attempt.value else h.row.attempt, m.code, h.row.owner)
                && h'.log == h.log + [Event(h.row.version + 1, m.key, m.target, m.code, m.attempt)]
      ensures id in old(children) ==>
                var h := old(children)[id];
                && children == old(children)[id := Transitioned(h, m)]
                && (match Guard(h, m)
                    case Refused(code) => r == Err(code)
                    case Skipped => r == Ok(Mutation(h.row, false))
                    case Go => if h.row.version == m.expected then r == Ok(Mutation(Write(h.row, EventOf(m)), true))
                               else r == Err(StateVersionConflict))
    {
      if id !in children {
        return Err(ResourceNotFound);
      }
      var h := children[id];
      assert children == children[id := h];
      if m.owner.Some? && h.row.owner != m.owner.value {
        return Err(PermissionDenied);
      }
      var replayed := FindKey(h.log, m.key);
      if replayed {
        if h.row.status == m.target || ChildTerminal(h.row.status) {
          return Ok(Mutation(h.row, false));
        }
        return Err(IdempotencyConflict);
      }
      if !CanTransitionChild(h.row.status, m.target) {
        return Err(IllegalStateTransition);
      }
      if h.row.status == ChildFailed && m.target == Working {
        if !CanRetryChild(h.row.status, h.row.attempt, h.row.code, MAX_CHILD_ATTEMPTS) {
          return Err(IllegalStateTransition);
        }
      }
      if h.row.version != m.expected {
        return Err(StateVersionConflict);
      }
      var e := EventOf(m);
      var row := Write(h.row, e);
      children := children[id := ChildHistory(h.first, row, h.log + [e])];
      r := Ok(Mutation(row, true));
    }
  }

  method FindKey(log: seq<Event>, key: Key) returns (found: bool)
    ensures found == KeyUsed(log, key)
  {
    for i := 0 to |log|
      invariant forall j :: 0 <= j < i ==> log[j].key != key
    {
      if log[i].key == key {
        return true;
      }
    }
    return false;
  }

  /** A key that was used is never applied again: the call is skipped exactly when the row already is where
      the caller wants it or has ended, and fails with a conflict when it is anywhere else. */
  lemma UsedKeyNeverApplies(h: ChildHistory, m: Move)
    requires KeyUsed(h.log, m.key) && (m.owner.Some? ==> m.owner.value == h.row.owner)
    ensures Transitioned(h, m) == h
    ensures Guard(h, m) == Skipped <==> h.row.status == m.target || ChildTerminal(h.row.status)
    ensures Guard(h, m) == Refused(IdempotencyConflict) <==> h.row.status != m.target && !ChildTerminal(h.row.status)
  {
  }
}
