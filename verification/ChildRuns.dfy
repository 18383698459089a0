/** Runs of the child-task store under any interleaving: what the log of a child can look like,
    and how the attempt column counts the controlled retry. */
module ChildRuns {
  import opened Wrappers
  import opened StateMachine
  import opened ChildStore

  type ActorId = string

  /** The row after the first n log events. */
  function RowAt(h: ChildHistory, n: nat): (row: Child)
    requires n <= |h.log|
    ensures row.version == h.first.version + n
  {
    if n == 0 then h.first else Write(RowAt(h, n - 1), h.log[n - 1])
  }

  /** How a caller fills in the attempt column: plus one on the retry edge, untouched elsewhere. */
  predicate AttemptRule(before: Child, target: ChildStatus, attempt: Option<nat>) {
    attempt == if IsRetry(before, target) then Some(before.attempt + 1) else None
  }

  predicate LegalAt(h: ChildHistory, i: nat)
    requires i < |h.log|
  {
    MoveAllowed(RowAt(h, i), h.log[i].target) && AttemptRule(RowAt(h, i), h.log[i].target, h.log[i].attempt)
  }

  ghost predicate Consistent(h: ChildHistory) {
    && h.row == RowAt(h, |h.log|)
    && (forall i :: 0 <= i < |h.log| ==> h.log[i].version == h.first.version + i + 1)
    && (forall i :: 0 <= i < |h.log| ==> LegalAt(h, i))
    && (forall i, j :: 0 <= i < j < |h.log| ==> h.log[i].key != h.log[j].key)
  }

  ghost predicate Extends(h: ChildHistory, later: ChildHistory) {
    later.first == h.first && h.log <= later.log
  }

  lemma {:induction false} RowAtPrefix(h: ChildHistory, later: ChildHistory, n: nat)
    requires Extends(h, later) && n <= |h.log|
    ensures RowAt(later, n) == RowAt(h, n)
  {
    if n > 0 {
      RowAtPrefix(h, later, n - 1);
      assert later.log[n - 1] == h.log[n - 1];
    }
  }

  /** The row a caller saw is the row it overwrites when its swap goes through. */
  lemma SameVersionSameHistory(seen: ChildHistory, now: ChildHistory)
    requires Consistent(seen) && Consistent(now) && Extends(seen, now) && now.row.version <= seen.row.version
    ensures now == seen
  {
    assert now.log == seen.log;
    RowAtPrefix(seen, now, |seen.log|);
  }

  /** Old entries keep their place and their legality when one more is appended. */
  lemma LegalPrefix(h: ChildHistory, later: ChildHistory, i: nat)
    requires Consistent(h) && Extends(h, later) && i < |h.log|
    ensures later.log[i].version == later.first.version + i + 1 && LegalAt(later, i)
  {
    assert LegalAt(h, i);
    assert later.log[i] == h.log[i];
    RowAtPrefix(h, later, i);
  }

  lemma LegalLast(h: ChildHistory, m: Move)
    requires Consistent(h) && MoveAllowed(h.row, m.target) && h.row.version == m.expected
    requires AttemptRule(h.row, m.target, m.attempt)
    ensures LegalAt(Swap(h, m), |h.log|) && Swap(h, m).row == RowAt(Swap(h, m), |h.log| + 1)
  {
    RowAtPrefix(h, Swap(h, m), |h.log|);
    assert Swap(h, m).log[|h.log|] == EventOf(m);
  }

  lemma SwapKeepsConsistent(h: ChildHistory, m: Move)
    requires Consistent(h) && Guard(h, m) == Go && h.row.version == m.expected
    requires AttemptRule(h.row, m.target, m.attempt)
    ensures Consistent(Swap(h, m)) && Extends(h, Swap(h, m))
  {
    var h' := Swap(h, m);
    var n := |h.log|;
    assert h'.log == h.log + [EventOf(m)] && h'.first == h.first;
    LegalLast(h, m);
    assert h'.log[n] == EventOf(m);
    forall i | 0 <= i < |h'.log| ensures LegalAt(h', i) {
      if i < n {
        LegalPrefix(h, h', i);
      }
    }
    forall i | 0 <= i < |h'.log| ensures h'.log[i].version == h'.first.version + i + 1 {
      if i < n {
        LegalPrefix(h, h', i);
      }
    }
    forall i, j | 0 <= i < j < |h'.log| ensures h'.log[i].key != h'.log[j].key {
      assert h'.log[i] == h.log[i];
      if j < n {
        assert h'.log[j] == h.log[j];
      }
    }
  }

  // ---- Interleaved callers ----------------------------------------------------------------------

  /** A caller holds the row it read (seen); once through the guards it also holds its move and the row
      the guards read (checked). Every call site passes the version of the row it read and asks for a new
      attempt exactly when it read a FAILED row and wants it WORKING. */
  datatype Caller =
    | Holding(id: ChildId, seen: ChildHistory)
    | Moving(id: ChildId, seen: ChildHistory, checked: ChildHistory, m: Move)

  datatype System = System(children: map<ChildId, ChildHistory>, callers: map<ActorId, Caller>)

  datatype Action =
    | Look(actor: ActorId, id: ChildId)
    | Ask(actor: ActorId, target: ChildStatus, key: Key, owner: Option<string>, code: StoredCode)
    | Commit(actor: ActorId)
    | Crash(actor: ActorId)

  function MoveFrom(seen: Child, target: ChildStatus, key: Key, owner: Option<string>, code: StoredCode): Move {
    Move(target, seen.version, key, owner, code, if IsRetry(seen, target) then Some(seen.attempt + 1) else None)
  }

  function Step(s: System, a: Action): System {
    match a
    case Look(actor, id) =>
      if id in s.children then s.(callers := s.callers[actor := Holding(id, s.children[id])]) else s
    case Ask(actor, target, key, owner, code) =>
      if actor !in s.callers || !s.callers[actor].Holding? || s.callers[actor].id !in s.children then s
      else
        var c := s.callers[actor];
        var m := MoveFrom(c.seen.row, target, key, owner, code);
        if Guard(s.children[c.id], m).Go?
        then s.(callers := s.callers[actor := Moving(c.id, c.seen, s.children[c.id], m)])
        else s.(callers := s.callers - {actor})
    case Commit(actor) =>
      if actor !in s.callers || !s.callers[actor].Moving? || s.callers[actor].id !in s.children then s
      else
        var c := s.callers[actor];
        System(s.children[c.id := Swap(s.children[c.id], c.m)], s.callers - {actor})
    case Crash(actor) => s.(callers := s.callers - {actor})
  }

  function Run(s: System, actions: seq<Action>): System
    decreases |actions|
  {
    if actions == [] then s else Run(Step(s, actions[0]), actions[1..])
  }

  ghost predicate CallerOk(s: System, c: Caller) {
    && c.id in s.children
    && Consistent(c.seen)
    && (c.Holding? ==> Extends(c.seen, s.children[c.id]))
    && (c.Moving? ==>
          && Consistent(c.checked) && Extends(c.seen, c.checked) && Extends(c.checked, s.children[c.id])
          && c.m.expected == c.seen.row.version
          && AttemptRule(c.seen.row, c.m.target, c.m.attempt)
          && Guard(c.checked, c.m) == Go)
  }

  ghost predicate Good(s: System) {
    && (forall id :: id in s.children ==> Consistent(s.children[id]))
    && (forall a :: a in s.callers ==> CallerOk(s, s.callers[a]))
  }

  lemma CommitKeepsConsistent(s: System, c: Caller)
    requires Good(s) && c.Moving? && CallerOk(s, c)
    ensures var h' := Swap(s.children[c.id], c.m); Consistent(h') && Extends(s.children[c.id], h')
  {
    var now := s.children[c.id];
    if now.row.version == c.m.expected {
      assert |now.log| == |c.seen.log|;
      SameVersionSameHistory(c.checked, now);
      SameVersionSameHistory(c.seen, c.checked);
      SwapKeepsConsistent(now, c.m);
    }
  }

  lemma StepEffect(s: System, a: Action)
    ensures Step(s, a).children.Keys == s.children.Keys
    ensures a.Commit? && a.actor in s.callers && s.callers[a.actor].Moving? && s.callers[a.actor].id in s.children ==>
              var c := s.callers[a.actor];
              Step(s, a) == System(s.children[c.id := Swap(s.children[c.id], c.m)], s.callers - {a.actor})
    ensures !(a.Commit? && a.actor in s.callers && s.callers[a.actor].Moving? && s.callers[a.actor].id in s.children) ==>
              Step(s, a).children == s.children
  {
  }

  lemma ChildExtends(s: System, a: Action, id: ChildId)
    requires Good(s) && id in s.children
    ensures id in Step(s, a).children
    ensures Extends(s.children[id], Step(s, a).children[id]) && Consistent(Step(s, a).children[id])
  {
    StepEffect(s, a);
    if a.Commit? && a.actor in s.callers && s.callers[a.actor].Moving? && s.callers[a.actor].id in s.children {
      var c := s.callers[a.actor];
      if c.id == id {
        CommitKeepsConsistent(s, c);
      }
    }
  }

  lemma CallerSurvives(s: System, s': System, c: Caller)
    requires CallerOk(s, c) && c.id in s'.children && Extends(s.children[c.id], s'.children[c.id])
    ensures CallerOk(s', c)
  {
  }

  lemma LookOk(s: System, a: Action)
    requires Good(s) && a.Look? && a.actor in Step(s, a).callers
    ensures CallerOk(Step(s, a), Step(s, a).callers[a.actor])
  {
    if a.id !in s.children {
      assert CallerOk(s, s.callers[a.actor]);
    }
  }

  lemma AskOk(s: System, a: Action)
    requires Good(s) && a.Ask? && a.actor in Step(s, a).callers
    ensures CallerOk(Step(s, a), Step(s, a).callers[a.actor])
  {
    assert a.actor in s.callers;
    var c := s.callers[a.actor];
    assert CallerOk(s, c);
    if c.Holding? {
      var now := s.children[c.id];
      var m := MoveFrom(c.seen.row, a.target, a.key, a.owner, a.code);
      assert Step(s, a).children == s.children;
      assert Consistent(now) && Extends(c.seen, now) && Extends(now, now);
      assert Guard(now, m).Go? && Step(s, a).callers[a.actor] == Moving(c.id, c.seen, now, m);
    }
  }

  lemma OthersKeepTheirPlace(s: System, a: Action, b: ActorId)
    requires b in Step(s, a).callers && (b != a.actor || a.Commit? || a.Crash?)
    ensures b in s.callers && Step(s, a).callers[b] == s.callers[b]
  {
  }

  lemma StepKeepsCaller(s: System, a: Action, b: ActorId)
    requires Good(s) && b in Step(s, a).callers
    ensures CallerOk(Step(s, a), Step(s, a).callers[b])
  {
    if b == a.actor && a.Look? {
      LookOk(s, a);
    } else if b == a.actor && a.Ask? {
      AskOk(s, a);
    } else {
      OthersKeepTheirPlace(s, a, b);
      var c := s.callers[b];
      assert CallerOk(s, c);
      ChildExtends(s, a, c.id);
      CallerSurvives(s, Step(s, a), c);
    }
  }

  lemma StepKeepsGood(s: System, a: Action)
    requires Good(s)
    ensures Good(Step(s, a))
  {
    StepEffect(s, a);
    forall id | id in Step(s, a).children ensures Consistent(Step(s, a).children[id]) {
      ChildExtends(s, a, id);
    }
    forall b | b in Step(s, a).callers ensures CallerOk(Step(s, a), Step(s, a).callers[b]) {
      StepKeepsCaller(s, a, b);
    }
  }

  /** Main result of the child store: every log of every interleaving is an exact and legal account of its row. */
  lemma {:induction false} EveryRunIsConsistent(s: System, actions: seq<Action>)
    requires Good(s)
    ensures Good(Run(s, actions))
    decreases |actions|
  {
    if actions != [] {
      StepKeepsGood(s, actions[0]);
      EveryRunIsConsistent(Step(s, actions[0]), actions[1..]);
    }
  }

  // ---- Retry accounting ---------------------------------------------------------------------------

  /** Events among the first n that took the row from FAILED to WORKING. */
  function Retries(h: ChildHistory, n: nat): nat
    requires n <= |h.log|
  {
    if n == 0 then 0
    else Retries(h, n - 1) + if IsRetry(RowAt(h, n - 1), h.log[n - 1].target) then 1 else 0
  }

  lemma EventTaken(h: ChildHistory, n: nat)
    requires Consistent(h) && 0 < n <= |h.log|
    ensures MoveAllowed(RowAt(h, n - 1), RowAt(h, n).status)
    ensures IsRetry(RowAt(h, n - 1), RowAt(h, n).status) <==> IsRetry(RowAt(h, n - 1), h.log[n - 1].target)
    ensures RowAt(h, n).attempt ==
              RowAt(h, n - 1).attempt + if IsRetry(RowAt(h, n - 1), h.log[n - 1].target) then 1 else 0
  {
    assert LegalAt(h, n - 1);
    assert RowAt(h, n) == Write(RowAt(h, n - 1), h.log[n - 1]);
  }

  /** The attempt column is the first attempt plus the retries taken, and never exceeds two. */
  lemma {:induction false} AttemptCountsRetries(h: ChildHistory, n: nat)
    requires Consistent(h) && h.first.attempt <= MAX_CHILD_ATTEMPTS && n <= |h.log|
    ensures RowAt(h, n).attempt == h.first.attempt + Retries(h, n) <= MAX_CHILD_ATTEMPTS
  {
    if n > 0 {
      AttemptCountsRetries(h, n - 1);
      EventTaken(h, n);
    }
  }

  /** The last event says what a row holds: its status and its error code, none if it names none; the owner never changes. */
  lemma {:induction false} LastEventSays(h: ChildHistory, n: nat)
    requires n <= |h.log|
    ensures RowAt(h, n).owner == h.first.owner && RowAt(h, n).version == h.first.version + n
    ensures n > 0 ==> RowAt(h, n).status == h.log[n - 1].target && RowAt(h, n).code == h.log[n - 1].code
  {
    if n > 0 {
      LastEventSays(h, n - 1);
    }
  }

  predicate RetryableFailure(row: Child) {
    row.status == ChildFailed && row.attempt < MAX_CHILD_ATTEMPTS && row.code.Known? && Retryable(row.code.code)
  }

  lemma RetryEdge(before: Child, e: Event)
    requires MoveAllowed(before, e.target) && AttemptRule(before, e.target, e.attempt) && IsRetry(before, e.target)
    ensures RetryableFailure(before) && e.attempt == Some(before.attempt + 1)
  {
  }

  /** A retry leaves a FAILED row that recorded a retryable error and had an attempt to spare. */
  lemma RetryLeavesRetryableFailure(h: ChildHistory, i: nat) returns (before: Child)
    requires Consistent(h) && i < |h.log| && IsRetry(RowAt(h, i), h.log[i].target)
    ensures before == RowAt(h, i) && RetryableFailure(before) && h.log[i].attempt == Some(before.attempt + 1)
  {
    assert LegalAt(h, i);
    before := RowAt(h, i);
    RetryEdge(before, h.log[i]);
  }

  predicate Spent(row: Child) {
    row.status.Completed? || row.status.Canceled? || (row.status.ChildFailed? && row.attempt >= MAX_CHILD_ATTEMPTS)
  }

  /** COMPLETED and CANCELED absorb, and so does a failure of the second attempt. */
  lemma {:induction false} SpentRowsAbsorb(h: ChildHistory, i: nat, j: nat)
    requires Consistent(h) && i <= j <= |h.log| && Spent(RowAt(h, i))
    ensures RowAt(h, j).status == RowAt(h, i).status && Spent(RowAt(h, j))
    decreases j - i
  {
    if i < j {
      SpentRowsAbsorb(h, i, j - 1);
      EventTaken(h, j);
    }
  }

  /** A row that has ended for good keeps its status whatever anyone does. */
  lemma SpentStays(s: System, a: Action, id: ChildId)
    requires Good(s) && id in s.children && Spent(s.children[id].row)
    ensures id in Step(s, a).children && Spent(Step(s, a).children[id].row)
    ensures Step(s, a).children[id].row.status == s.children[id].row.status
  {
    ChildExtends(s, a, id);
    var h, h' := s.children[id], Step(s, a).children[id];
    RowAtPrefix(h, h', |h.log|);
    SpentRowsAbsorb(h', |h.log|, |h'.log|);
  }
}
