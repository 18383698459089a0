/** The coordinator's side of a child task that runs behind HTTP: moving the local row along legal edges, taking in
    the agent's artifacts, and waiting for the end. */
module HttpInvoker {
  import opened Wrappers
  import opened StateMachine
  import opened ChildStore
  import Decimal

  // ---- Moving the local row --------------------------------------------------------------------------------------

  function MidKey(id: ChildId, version: nat): Key {
    id + ":remote:working:" + Decimal.Print(version)
  }

  function StepMove(row: Child, target: ChildStatus, key: Key, agent: string, code: StoredCode): Move {
    Move(target, row.version, key, Some(agent), code, None)
  }

  /** Where the agent can have got to in one polling window, as far as the edge table goes. */
  predicate CanEnsure(from: ChildStatus, to: ChildStatus) {
    CanTransitionChild(from, to) || (from.Submitted? && CanTransitionChild(Working, to))
  }

  predicate NeedsWorking(from: ChildStatus, to: ChildStatus) {
    !CanTransitionChild(from, to) && CanEnsure(from, to)
  }

  /** What one uninterrupted transition answers. */
  function Moved(h: ChildHistory, m: Move): Result<Child, ErrorCode> {
    match Guard(h, m)
    case Refused(code) => Err(code)
    case Skipped => Ok(h.row)
    case Go => if h.row.version == m.expected then Ok(Write(h.row, EventOf(m))) else Err(StateVersionConflict)
  }

  /** The local history after ensuring a status, with nobody in between, and the row or the error that is raised. */
  function Ensured(h: ChildHistory, id: ChildId, agent: string, target: ChildStatus, key: Key, code: StoredCode)
    : (ChildHistory, Result<Child, ErrorCode>)
  {
    if h.row.status == target then (h, Ok(h.row))
    else if CanTransitionChild(h.row.status, target) then
      var m := StepMove(h.row, target, key, agent, code);
      (Transitioned(h, m), Moved(h, m))
    else if h.row.status.Submitted? && CanTransitionChild(Working, target) then
      var first := StepMove(h.row, Working, MidKey(id, h.row.version), agent, NoCode);
      if Moved(h, first).Err? then (h, Moved(h, first))
      else
        var mid := Transitioned(h, first);
        var m := StepMove(Moved(h, first).value, target, key, agent, code);
        (Transitioned(mid, m), Moved(mid, m))
    else (h, Err(IllegalStateTransition))
  }

  method EnsureStatus(store: A2ATaskStore, id: ChildId, agent: string, target: ChildStatus, key: Key, code: StoredCode)
    returns (r: Result<Child, ErrorCode>)
    requires id in store.children
    modifies store`children
    ensures (store.children, r) == (old(store.children)[id := Ensured(old(store.children[id]), id, agent, target, key, code).0],
                                    Ensured(old(store.children[id]), id, agent, target, key, code).1)
  {
    var h := store.children[id];
    ghost var before, after := store.children, Ensured(h, id, agent, target, key, code);
    assert before == before[id := h];
    if h.row.status == target {
      return Ok(h.row);
    }
    var current := h.row;
    if !CanTransitionChild(h.row.status, target) {
      if !(h.row.status == Submitted && CanTransitionChild(Working, target)) {
        return Err(IllegalStateTransition);
      }
      var mid := store.Transition(id, StepMove(h.row, Working, MidKey(id, h.row.version), agent, NoCode));
      assert store.children == before[id := Transitioned(h, StepMove(h.row, Working, MidKey(id, h.row.version), agent, NoCode))];
      if mid.Err? {
        return Err(mid.error);
      }
      current := mid.value.row;
    }
    var last := store.Transition(id, StepMove(current, target, key, agent, code));
    assert store.children == before[id := after.0];
    r := if last.Ok? then Ok(last.value.row) else Err(last.error);
  }

  lemma FreshMoveApplies(h: ChildHistory, target: ChildStatus, key: Key, code: StoredCode)
    requires !KeyUsed(h.log, key) && MoveAllowed(h.row, target)
    ensures var m := StepMove(h.row, target, key, h.row.owner, code);
            && Guard(h, m) == Go && Transitioned(h, m) == ChildHistory(h.first, Write(h.row, EventOf(m)), h.log + [EventOf(m)])
            && Transitioned(h, m).row.status == target && Transitioned(h, m).row.owner == h.row.owner
            && Moved(h, m) == Ok(Transitioned(h, m).row)
  {
  }

  lemma KeyUsedAppend(log: seq<Event>, e: Event, key: Key)
    ensures KeyUsed(log + [e], key) <==> KeyUsed(log, key) || e.key == key
  {
    if KeyUsed(log, key) {
      var i :| 0 <= i < |log| && log[i].key == key;
      assert (log + [e])[i].key == key;
    }
    assert (log + [e])[|log|] == e;
  }

  /** The events an ensured status adds to the log: none, one, or WORKING first. */
  function PathTo(from: ChildStatus, to: ChildStatus): seq<ChildStatus> {
    if from == to || !CanEnsure(from, to) then []
    else if NeedsWorking(from, to) then [Working, to]
    else [to]
  }

  /** Whether a row can be moved there: the edge table leads there, and a failed row that goes back to work may be retried. */
  predicate WithinReach(row: Child, target: ChildStatus) {
    CanEnsure(row.status, target) && (IsRetry(row, target) ==> MayRetry(row))
  }

  /** The local row gets where the agent is exactly when the edge table, with at most one step through WORKING, leads
      there, and out of FAILED only while a retry is open; it goes along legal edges only, and stays put otherwise. */
  lemma EnsureFollowsEdges(h: ChildHistory, id: ChildId, agent: string, target: ChildStatus, key: Key, code: StoredCode)
    requires h.row.owner == agent && !KeyUsed(h.log, MidKey(id, h.row.version)) && !KeyUsed(h.log, key)
    requires key != MidKey(id, h.row.version)
    ensures var (h', r) := Ensured(h, id, agent, target, key, code);
            && r == (if WithinReach(h.row, target) then Ok(h'.row) else Err(IllegalStateTransition))
            && (h'.row.status == target <==> WithinReach(h.row, target))
            && h'.first == h.first && h.log <= h'.log
            && (!WithinReach(h.row, target) ==> h' == h)
            && (WithinReach(h.row, target) ==> |h'.log| == |h.log| + |PathTo(h.row.status, target)|)
            && (WithinReach(h.row, target) ==> forall i :: 0 <= i < |PathTo(h.row.status, target)| ==>
                  h'.log[|h.log| + i].target == PathTo(h.row.status, target)[i]
                  && ChildEdge(if i == 0 then h.row.status else PathTo(h.row.status, target)[i - 1], PathTo(h.row.status, target)[i]))
  {
    if h.row.status != target && WithinReach(h.row, target) {
      if NeedsWorking(h.row.status, target) {
        FreshMoveApplies(h, Working, MidKey(id, h.row.version), NoCode);
        var m := StepMove(h.row, Working, MidKey(id, h.row.version), agent, NoCode);
        var mid := Transitioned(h, m);
        KeyUsedAppend(h.log, EventOf(m), key);
        FreshMoveApplies(mid, target, key, code);
      } else {
        FreshMoveApplies(h, target, key, code);
      }
    }
  }

  /** A row that moves carries the code it was moved with, and so does the last event; a detour through WORKING carries none,
      and neither the attempt nor the owner changes. */
  lemma EnsureCarriesCode(h: ChildHistory, id: ChildId, agent: string, target: ChildStatus, key: Key, code: StoredCode)
    requires h.row.owner == agent && !KeyUsed(h.log, MidKey(id, h.row.version)) && !KeyUsed(h.log, key)
    requires key != MidKey(id, h.row.version)
    requires h.row.status != target && WithinReach(h.row, target)
    ensures var h' := Ensured(h, id, agent, target, key, code).0;
            && h'.row.status == target && h'.row.code == code && h'.row.attempt == h.row.attempt && h'.row.owner == agent
            && |h'.log| > |h.log| && h'.log[|h'.log| - 1] == Event(h'.row.version, key, target, code, None)
            && h'.row.version == h.row.version + |h'.log| - |h.log|
            && (NeedsWorking(h.row.status, target) ==>
                  |h'.log| == |h.log| + 2
                  && h'.log[|h.log|] == Event(h.row.version + 1, MidKey(id, h.row.version), Working, NoCode, None))
  {
    EnsureFollowsEdges(h, id, agent, target, key, code);
    if NeedsWorking(h.row.status, target) {
      FreshMoveApplies(h, Working, MidKey(id, h.row.version), NoCode);
      var m := StepMove(h.row, Working, MidKey(id, h.row.version), agent, NoCode);
      KeyUsedAppend(h.log, EventOf(m), key);
      FreshMoveApplies(Transitioned(h, m), target, key, code);
    } else {
      FreshMoveApplies(h, target, key, code);
    }
  }

  /** So the one controlled retry is open after a failure exactly when the first attempt failed with a known code that may
      be retried. */
  lemma RetryOpenIff(h: ChildHistory, id: ChildId, agent: string, key: Key, code: StoredCode)
    requires h.row.owner == agent && !KeyUsed(h.log, MidKey(id, h.row.version)) && !KeyUsed(h.log, key)
    requires key != MidKey(id, h.row.version)
    requires h.row.status != ChildFailed && CanEnsure(h.row.status, ChildFailed)
    ensures MayRetry(Ensured(h, id, agent, ChildFailed, key, code).0.row)
            <==> h.row.attempt < MAX_CHILD_ATTEMPTS && code.Known? && Retryable(code.code)
  {
    EnsureCarriesCode(h, id, agent, ChildFailed, key, code);
  }

  // ---- Artifacts ------------------------------------------------------------------------------------------------------

  /** What is wrong with an artifact by itself: its schema or its content hash. */
  datatype Flaw = BadSchema | BadHash

  datatype Artifact = Artifact(kind: string, task: ChildId, content: string, flaw: Option<Flaw>)

  /** The artifact types an agent must and may produce; nothing listed under allowed means anything goes. */
  datatype AgentPolicy = AgentPolicy(required: seq<string>, allowed: set<string>)

  function FlawCode(f: Flaw): ErrorCode {
    if f.BadSchema? then ArtifactSchemaInvalid else ArtifactHashMismatch
  }

  predicate Produced(items: seq<Artifact>, kind: string) {
    exists i :: 0 <= i < |items| && items[i].kind == kind
  }

  /** What is wrong with one artifact of a child, if anything; the first test that fails gives the code. */
  function Objection(p: AgentPolicy, local: ChildId, remote: ChildId, a: Artifact): Option<ErrorCode> {
    if a.flaw.Some? then Some(FlawCode(a.flaw.value))
    else if a.task != local && a.task != remote then Some(ParentTaskMismatch)
    else if p.allowed != {} && a.kind !in p.allowed then Some(PermissionDenied)
    else None
  }

  predicate Acceptable(p: AgentPolicy, local: ChildId, remote: ChildId, items: seq<Artifact>) {
    && (forall i :: 0 <= i < |p.required| ==> Produced(items, p.required[i]))
    && (forall i :: 0 <= i < |items| ==> Objection(p, local, remote, items[i]).None?)
  }

  function FirstObjection(p: AgentPolicy, local: ChildId, remote: ChildId, items: seq<Artifact>): Option<ErrorCode> {
    if items == [] then None
    else if Objection(p, local, remote, items[0]).Some? then Objection(p, local, remote, items[0])
    else FirstObjection(p, local, remote, items[1..])
  }

  lemma {:induction false} NoObjectionIff(p: AgentPolicy, local: ChildId, remote: ChildId, items: seq<Artifact>)
    ensures FirstObjection(p, local, remote, items).None?
            <==> forall i :: 0 <= i < |items| ==> Objection(p, local, remote, items[i]).None?
    ensures FirstObjection(p, local, remote, items).Some? ==>
              exists i :: 0 <= i < |items| && FirstObjection(p, local, remote, items) == Objection(p, local, remote, items[i])
  {
    if items != [] && Objection(p, local, remote, items[0]).None? {
      NoObjectionIff(p, local, remote, items[1..]);
      if FirstObjection(p, local, remote, items).Some? {
        var i :| 0 <= i < |items[1..]| && FirstObjection(p, local, remote, items[1..]) == Objection(p, local, remote, items[1..][i]);
        assert items[i + 1] == items[1..][i];
      }
      forall i | 0 <= i < |items| && FirstObjection(p, local, remote, items).None?
        ensures Objection(p, local, remote, items[i]).None?
      {
        if i > 0 {
          assert items[i] == items[1..][i - 1];
        }
      }
    }
  }

  /** Missing types first, then the artifacts one by one. */
  function Complaint(p: AgentPolicy, local: ChildId, remote: ChildId, items: seq<Artifact>): Option<ErrorCode> {
    if exists i :: 0 <= i < |p.required| && !Produced(items, p.required[i]) then Some(ArtifactSchemaInvalid)
    else FirstObjection(p, local, remote, items)
  }

  method IngestArtifacts(p: AgentPolicy, local: ChildId, remote: ChildId, items: seq<Artifact>)
    returns (taken: seq<Artifact>, error: Option<ErrorCode>)
    ensures error == Complaint(p, local, remote, items)
    ensures error.None? ==> taken == items && Acceptable(p, local, remote, items)
    ensures error.Some? ==> taken == [] && !Acceptable(p, local, remote, items)
    ensures error.None? <==>
              && (forall i :: 0 <= i < |p.required| ==> exists j :: 0 <= j < |items| && items[j].kind == p.required[i])
              && (forall i :: 0 <= i < |items| ==>
                    && items[i].flaw.None? && (items[i].task == local || items[i].task == remote)
                    && (p.allowed == {} || items[i].kind in p.allowed))
  {
    NoObjectionIff(p, local, remote, items);
    for i := 0 to |p.required|
      invariant forall j :: 0 <= j < i ==> Produced(items, p.required[j])
    {
      var produced := false;
      for k := 0 to |items|
        invariant produced <==> exists j :: 0 <= j < k && items[j].kind == p.required[i]
      {
        produced := produced || items[k].kind == p.required[i];
      }
      if !produced {
        return [], Some(ArtifactSchemaInvalid);
      }
    }
    taken := [];
    for i := 0 to |items|
      invariant taken == items[..i]
      invariant FirstObjection(p, local, remote, items) == FirstObjection(p, local, remote, items[i..])
    {
      assert items[i..][0] == items[i] && items[i..][1..] == items[i + 1..];
      var objection := Objection(p, local, remote, items[i]);
      if objection.Some? {
        return [], objection;
      }
      taken := taken + [items[i]];
    }
    error := None;
  }

  // ---- Waiting for the end ------------------------------------------------------------------------------------------------

  /** A status query: no answer, or a status (None: some text that is no status), an error code and the artifacts. */
  datatype Answer = Unreadable | Read(status: Option<ChildStatus>, code: Option<ErrorCode>, artifacts: seq<Artifact>)

  /** The outcome of an execution, or the error it raises instead. */
  datatype Outcome = Ended(status: ChildStatus, code: Option<ErrorCode>) | Broke(error: ErrorCode)

  predicate ReportsEnd(a: Answer) {
    a.Read? && a.status.Some? && ChildTerminal(a.status.value)
  }

  /** The local status after a report that is not an end: nothing moves backwards or along an edge that is not there. */
  function Applied(local: ChildStatus, a: Answer): ChildStatus {
    if a.Unreadable? || a.status.None? then local
    else
      var target := a.status.value;
      if ChildTerminal(local) || target.Submitted? || target == local || !CanTransitionChild(local, target) then local
      else target
  }

  function AfterFailure(local: ChildStatus, code: ErrorCode): (ChildStatus, Outcome) {
    (if ChildTerminal(local) then local else ChildFailed, Ended(ChildFailed, Some(code)))
  }

  /** The local status and the outcome when the agent reports an end. */
  function Finalized(p: AgentPolicy, id: ChildId, remote: ChildId, local: ChildStatus, a: Answer): (ChildStatus, Outcome)
    requires ReportsEnd(a)
  {
    match a.status.value
    case ChildFailed => AfterFailure(local, if a.code.Some? then a.code.value else InternalError)
    case Canceled =>
      if CanEnsure(local, Canceled) then (Canceled, Ended(Canceled, Some(TaskCanceled))) else (local, Broke(IllegalStateTransition))
    case Completed =>
      var error := Complaint(p, id, remote, a.artifacts);
      if error.Some? then AfterFailure(local, error.value)
      else if CanEnsure(local, Completed) then (Completed, Ended(Completed, None))
      else (local, Broke(IllegalStateTransition))
  }

  /** The clock of one turn: how long the event stream, the query and the oversleeping take. */
  datatype Turn = Turn(stream: nat, query: nat, late: nat)

  /** Statuses after the first k answers. */
  function LocalAfter(local: ChildStatus, answers: nat -> Answer, k: nat): ChildStatus {
    if k == 0 then local else Applied(LocalAfter(local, answers, k - 1), answers(k - 1))
  }

  /** The clock when the k-th turn starts, and when its query has been answered. */
  function ClockAt(now: int, interval: nat, turns: nat -> Turn, k: nat): int
    decreases k, 0
  {
    if k == 0 then now
    else AnsweredAt(now, interval, turns, k - 1) + interval + turns(k - 1).late
  }

  function AnsweredAt(now: int, interval: nat, turns: nat -> Turn, k: nat): int
    decreases k, 1
  {
    ClockAt(now, interval, turns, k) + turns(k).stream + turns(k).query
  }

  /** Every turn takes at least the poll interval. */
  lemma {:induction false} ClockAdvances(now: int, interval: nat, turns: nat -> Turn, k: nat)
    ensures ClockAt(now, interval, turns, k) >= now + k * interval
  {
    if k > 0 {
      ClockAdvances(now, interval, turns, k - 1);
      assert k * interval == (k - 1) * interval + interval;
    }
  }

  lemma AtLeastOne(m: int, d: nat)
    ensures m >= 1 ==> m * d >= d
  {
    if m >= 1 {
      assert m * d == d + (m - 1) * d;
    }
  }

  lemma TurnsWithin(n: nat, interval: nat, span: int)
    requires interval > 0 && n * interval < span
    ensures n <= span / interval
  {
    var q := span / interval;
    assert (n - q) * interval == n * interval - q * interval < interval;
    AtLeastOne(n - q, interval);
  }

  /** The loop goes on after this turn: it started before the deadline, it was told of no end, and an unreadable answer
      did not come too late. */
  predicate GoesOn(deadline: int, now: int, interval: nat, turns: nat -> Turn, answers: nat -> Answer, k: nat) {
    && ClockAt(now, interval, turns, k) < deadline
    && !ReportsEnd(answers(k))
    && (answers(k).Unreadable? ==> AnsweredAt(now, interval, turns, k) <= deadline)
  }

  /** Waits until the agent reports an end, the deadline is over, or nothing can be read any more. The k-th answer
      decides: it is the first after which the loop does not go on. */
  method AwaitTerminal(p: AgentPolicy, id: ChildId, remote: ChildId, start: ChildStatus, deadline: int, now: int,
                       interval: nat, turns: nat -> Turn, answers: nat -> Answer)
    returns (outcome: Outcome, local: ChildStatus, k: nat)
    requires interval > 0
    ensures forall j :: 0 <= j < k ==> GoesOn(deadline, now, interval, turns, answers, j)
    ensures !GoesOn(deadline, now, interval, turns, answers, k)
    ensures forall j :: 0 <= j < k ==> ClockAt(now, interval, turns, j) < deadline && !ReportsEnd(answers(j))
    ensures ReportsEnd(answers(k)) || ClockAt(now, interval, turns, k) >= deadline
            || (answers(k).Unreadable? && AnsweredAt(now, interval, turns, k) > deadline)
    ensures (local, outcome) ==
              if ReportsEnd(answers(k)) then Finalized(p, id, remote, LocalAfter(start, answers, k), answers(k))
              else AfterFailure(LocalAfter(start, answers, k), if answers(k).Unreadable? then TaskStatusUnknown else TaskTimeout)
    ensures k == 0 || (now < deadline && k <= (deadline - now) / interval + 1)
  {
    var clock := now;
    local := start;
    k := 0;
    while true
      invariant forall j :: 0 <= j < k ==> GoesOn(deadline, now, interval, turns, answers, j)
      invariant forall j :: 0 <= j < k ==> ClockAt(now, interval, turns, j) < deadline && !ReportsEnd(answers(j))
      invariant local == LocalAfter(start, answers, k)
      invariant clock == ClockAt(now, interval, turns, k)
      invariant k == 0 || (now < deadline && k <= (deadline - now) / interval + 1)
      decreases if clock < deadline then deadline - clock else 0, if clock < deadline then 1 else 0
    {
      if deadline - clock <= 0 {
        var answer := answers(k);
        if ReportsEnd(answer) {
          var done := Finalized(p, id, remote, local, answer);
          local, outcome := done.0, done.1;
          return;
        }
        var failed := AfterFailure(local, if answer.Unreadable? then TaskStatusUnknown else TaskTimeout);
        local, outcome := failed.0, failed.1;
        return;
      }
      ClockAdvances(now, interval, turns, k);
      TurnsWithin(k, interval, deadline - now);
      clock := clock + turns(k).stream;
      var answer := answers(k);
      clock := clock + turns(k).query;
      if answer.Unreadable? {
        if clock - deadline > 0 {
          var failed := AfterFailure(local, TaskStatusUnknown);
          local, outcome := failed.0, failed.1;
          return;
        }
      } else if ReportsEnd(answer) {
        var done := Finalized(p, id, remote, local, answer);
        local, outcome := done.0, done.1;
        return;
      } else {
        local := Applied(local, answer);
      }
      clock := clock + interval + turns(k).late;
      k := k + 1;
    }
  }

  lemma {:induction false} LocalStaysOpen(local: ChildStatus, answers: nat -> Answer, k: nat)
    requires !ChildTerminal(local) && forall j :: 0 <= j < k ==> !ReportsEnd(answers(j))
    ensures !ChildTerminal(LocalAfter(local, answers, k))
  {
    if k > 0 {
      LocalStaysOpen(local, answers, k - 1);
      assert !ReportsEnd(answers(k - 1));
    }
  }

  /** Waiting on an open child ends it, locally and in the outcome, unless the local row stands at INPUT_REQUIRED while
      the agent reports a completion that is in order: that raises. The unknown status is reported exactly when the
      deciding query could not be read, or the agent failed with that very code. */
  lemma WaitingEndsIff(p: AgentPolicy, id: ChildId, remote: ChildId, start: ChildStatus, answers: nat -> Answer, k: nat,
                       outcome: Outcome, local: ChildStatus)
    requires !ChildTerminal(start) && forall j :: 0 <= j < k ==> !ReportsEnd(answers(j))
    requires ReportsEnd(answers(k)) ==>
               (local, outcome) == Finalized(p, id, remote, LocalAfter(start, answers, k), answers(k))
    requires !ReportsEnd(answers(k)) ==>
               (local, outcome) == AfterFailure(LocalAfter(start, answers, k),
                                                if answers(k).Unreadable? then TaskStatusUnknown else TaskTimeout)
    ensures outcome.Ended? && ChildTerminal(outcome.status) && local == outcome.status
            <==> !(LocalAfter(start, answers, k).InputRequired? && ReportsEnd(answers(k)) && answers(k).status == Some(Completed)
                   && Acceptable(p, id, remote, answers(k).artifacts))
    ensures outcome == Ended(ChildFailed, Some(TaskStatusUnknown))
            <==> answers(k).Unreadable?
                 || (answers(k).status == Some(ChildFailed) && answers(k).code == Some(TaskStatusUnknown))
  {
    LocalStaysOpen(start, answers, k);
    if ReportsEnd(answers(k)) {
      NoObjectionIff(p, id, remote, answers(k).artifacts);
      if FirstObjection(p, id, remote, answers(k).artifacts).Some? {
        var i :| 0 <= i < |answers(k).artifacts|
                 && FirstObjection(p, id, remote, answers(k).artifacts) == Objection(p, id, remote, answers(k).artifacts[i]);
      }
    }
  }

  /** What the outcome of the waiting says, for every deciding answer. */
  lemma OutcomeSays(p: AgentPolicy, id: ChildId, remote: ChildId, local: ChildStatus, a: Answer)
    requires !ChildTerminal(local) && ReportsEnd(a)
    ensures var (after, outcome) := Finalized(p, id, remote, local, a);
            && (a.status == Some(Canceled) ==> after == Canceled && outcome == Ended(Canceled, Some(TaskCanceled)))
            && (a.status == Some(ChildFailed) ==>
                  after == ChildFailed && outcome == Ended(ChildFailed, if a.code.Some? then a.code else Some(InternalError)))
            && (a.status == Some(Completed) && Acceptable(p, id, remote, a.artifacts) ==>
                  if local == InputRequired then after == local && outcome == Broke(IllegalStateTransition)
                  else after == Completed && outcome == Ended(Completed, None))
            && (a.status == Some(Completed) && !Acceptable(p, id, remote, a.artifacts) ==>
                  after == ChildFailed && outcome.Ended? && outcome.status == ChildFailed && outcome.code.Some?
                  && (if exists i :: 0 <= i < |p.required| && !Produced(a.artifacts, p.required[i])
                      then outcome.code == Some(ArtifactSchemaInvalid)
                      else exists i :: 0 <= i < |a.artifacts| && FirstAtFault(p, id, remote, a.artifacts, i)
                                       && Fault(p, id, remote, a.artifacts[i], outcome.code.value)))
  {
    NoObjectionIff(p, id, remote, a.artifacts);
    if a.status == Some(Completed) && FirstObjection(p, id, remote, a.artifacts).Some? {
      var i := FirstObjectionAt(p, id, remote, a.artifacts);
    }
  }

  /** What is wrong with an artifact, in the order of the tests: its schema or its hash, whose it is, and whether its kind is
      allowed. */
  predicate Fault(p: AgentPolicy, local: ChildId, remote: ChildId, a: Artifact, code: ErrorCode) {
    if a.flaw == Some(BadSchema) then code == ArtifactSchemaInvalid
    else if a.flaw == Some(BadHash) then code == ArtifactHashMismatch
    else if a.task != local && a.task != remote then code == ParentTaskMismatch
    else p.allowed != {} && a.kind !in p.allowed && code == PermissionDenied
  }

  predicate FirstAtFault(p: AgentPolicy, local: ChildId, remote: ChildId, items: seq<Artifact>, i: nat)
    requires i < |items|
  {
    forall j :: 0 <= j < i ==> Objection(p, local, remote, items[j]).None?
  }

  lemma {:induction false} FirstObjectionAt(p: AgentPolicy, local: ChildId, remote: ChildId, items: seq<Artifact>) returns (i: nat)
    requires FirstObjection(p, local, remote, items).Some?
    ensures i < |items| && FirstAtFault(p, local, remote, items, i)
    ensures Fault(p, local, remote, items[i], FirstObjection(p, local, remote, items).value)
  {
    if Objection(p, local, remote, items[0]).Some? {
      i := 0;
    } else {
      var k := FirstObjectionAt(p, local, remote, items[1..]);
      i := k + 1;
      forall j | 0 <= j < i ensures Objection(p, local, remote, items[j]).None? {
        assert j > 0 ==> items[j] == items[1..][j - 1];
      }
    }
  }

  /** While the agent reports only steps of the edge table, the local row is where its last report says. */
  lemma {:induction false} FollowsReports(start: ChildStatus, answers: nat -> Answer, reports: nat -> ChildStatus, k: nat)
    requires reports(0) == start
    requires forall j :: 0 <= j < k ==>
               && answers(j).Read? && answers(j).status == Some(reports(j + 1))
               && ChildEdge(reports(j), reports(j + 1)) && !ChildTerminal(reports(j)) && reports(j + 1) != reports(j)
    ensures LocalAfter(start, answers, k) == reports(k)
  {
    if k > 0 {
      FollowsReports(start, answers, reports, k - 1);
    }
  }

  /** And it stays where it is on anything else: no answer, a text that is no status, a step that is not in the table. */
  lemma StaysOtherwise(local: ChildStatus, a: Answer)
    requires a.Unreadable? || a.status.None? || !ChildEdge(local, a.status.value) || ChildTerminal(local)
    ensures Applied(local, a) == local
  {
  }
}
