/** Runs of the parent-task store under any interleaving of reads and compare-and-swaps:
    what the audit log of a task can look like, and how long a task can move. */
module ReviewHistory {
  import opened Wrappers
  import opened StateMachine
  import opened ReviewStore

  // ---- The log determines the row -------------------------------------------------------------

  function ReplayEntry(row: Row, e: Entry): Row {
    Write(row, Derive(row, e.changes))
  }

  /** The row after the first n log entries. */
  function RowAt(h: History, n: nat): (row: Row)
    requires n <= |h.log|
    ensures row.version == h.first.version + n
  {
    if n == 0 then h.first else ReplayEntry(RowAt(h, n - 1), h.log[n - 1])
  }

  /** Entry i was allowed on the row it overwrote. */
  predicate LegalAt(h: History, i: nat)
    requires i < |h.log|
  {
    var e := h.log[i];
    && e.changes.foreign == {}
    && (e.changes.status.Some? ==> EdgeAllowed(RowAt(h, i).status, e.changes.status.value, e.resume))
  }

  /** What the audit log promises: versions count up from the first row without gap or repeat, the row is
      the replay of the log, every entry was a legal edge from the row it overwrote, no key occurs twice. */
  ghost predicate Consistent(h: History) {
    && h.row == RowAt(h, |h.log|)
    && (forall i :: 0 <= i < |h.log| ==> h.log[i].version == h.first.version + i + 1)
    && (forall i :: 0 <= i < |h.log| ==> LegalAt(h, i))
    && (forall i, j :: 0 <= i < j < |h.log| ==> h.log[i].key != h.log[j].key)
  }

  /** later continues the history of h. */
  ghost predicate Extends(h: History, later: History) {
    later.first == h.first && h.log <= later.log
  }

  lemma {:induction false} RowAtPrefix(h: History, later: History, n: nat)
    requires Extends(h, later) && n <= |h.log|
    ensures RowAt(later, n) == RowAt(h, n)
  {
    if n > 0 {
      RowAtPrefix(h, later, n - 1);
      assert later.log[n - 1] == h.log[n - 1];
    }
  }

  // ---- Interleaved actors -----------------------------------------------------------------------

  /** A caller between the checks of apply_intent and its UPDATE. */
  datatype Waiting = Waiting(task: TaskId, seen: History, cmd: Command, values: Values)

  datatype System = System(db: map<TaskId, History>, waiting: map<ActorId, Waiting>)

  datatype Action =
    | Enter(actor: ActorId, task: TaskId, cmd: Command)   // get, replay lookup and guards
    | Commit(actor: ActorId)                              // UPDATE and audit row
    | Crash(actor: ActorId)

  function Step(s: System, a: Action): System {
    match a
    case Enter(actor, task, cmd) =>
      if task !in s.db || !Check(s.db[task], cmd).Ready? then s.(waiting := s.waiting - {actor})
      else s.(waiting := s.waiting[actor := Waiting(task, s.db[task], cmd, Check(s.db[task], cmd).values)])
    case Commit(actor) =>
      if actor !in s.waiting || s.waiting[actor].task !in s.db then s
      else
        var w := s.waiting[actor];
        System(s.db[w.task := Swap(s.db[w.task], w.cmd, w.values)], s.waiting - {actor})
    case Crash(actor) => s.(waiting := s.waiting - {actor})
  }

  function Run(s: System, actions: seq<Action>): System
    decreases |actions|
  {
    if actions == [] then s else Run(Step(s, actions[0]), actions[1..])
  }

  /** The version a caller hands in is not newer than the row its checks read. */
  predicate Disciplined(s: System, a: Action) {
    a.Enter? && a.task in s.db ==> a.cmd.expected <= s.db[a.task].row.version
  }

  predicate DisciplinedRun(s: System, actions: seq<Action>)
    decreases |actions|
  {
    actions == [] || (Disciplined(s, actions[0]) && DisciplinedRun(Step(s, actions[0]), actions[1..]))
  }

  /** A waiting caller has checked some earlier state of the row it is about to overwrite. */
  ghost predicate WaitingOk(s: System, w: Waiting) {
    && w.task in s.db
    && Consistent(w.seen)
    && Extends(w.seen, s.db[w.task])
    && w.cmd.expected <= w.seen.row.version
    && Check(w.seen, w.cmd) == Ready(w.values)
  }

  ghost predicate Good(s: System) {
    && (forall t :: t in s.db ==> Consistent(s.db[t]))
    && (forall a :: a in s.waiting ==> WaitingOk(s, s.waiting[a]))
  }

  /** A swap that goes through changed the very row its caller had checked. */
  lemma SwapHitsSeenRow(seen: History, now: History, cmd: Command)
    requires Consistent(seen) && Consistent(now) && Extends(seen, now)
    requires cmd.expected <= seen.row.version && now.row.version == cmd.expected
    ensures now == seen
  {
    assert now.log == seen.log;
    RowAtPrefix(seen, now, |seen.log|);
  }

  lemma SwapKeepsConsistent(h: History, cmd: Command)
    requires Consistent(h) && Check(h, cmd).Ready? && h.row.version == cmd.expected
    ensures Consistent(Swap(h, cmd, Check(h, cmd).values))
    ensures Extends(h, Swap(h, cmd, Check(h, cmd).values))
  {
    var h' := Swap(h, cmd, Check(h, cmd).values);
    var n := |h.log|;
    var e := Entry(cmd.expected + 1, cmd.key, cmd.changes, cmd.resume);
    assert h'.log == h.log + [e];
    forall i | 0 <= i < n
      ensures h'.log[i].version == h'.first.version + i + 1 && LegalAt(h', i)
    {
      assert h'.log[i] == h.log[i];
      RowAtPrefix(h, h', i);
      assert LegalAt(h, i);
    }
    RowAtPrefix(h, h', n);
    assert LegalAt(h', n);
    assert RowAt(h', n + 1) == ReplayEntry(RowAt(h', n), e);
    forall i, j | 0 <= i < j < |h'.log| ensures h'.log[i].key != h'.log[j].key {
      if j == n {
        assert h.log[i].key != cmd.key;
      }
    }
  }

  lemma CommitKeepsConsistent(s: System, w: Waiting)
    requires Good(s) && WaitingOk(s, w)
    ensures var h' := Swap(s.db[w.task], w.cmd, w.values); Consistent(h') && Extends(s.db[w.task], h')
  {
    var h := s.db[w.task];
    if h.row.version == w.cmd.expected {
      SwapHitsSeenRow(w.seen, h, w.cmd);
      SwapKeepsConsistent(h, w.cmd);
    }
  }

  lemma WaitingSurvives(s: System, s': System, w: Waiting)
    requires WaitingOk(s, w) && w.task in s'.db && Extends(s.db[w.task], s'.db[w.task])
    ensures WaitingOk(s', w)
  {
  }

  lemma CommitEffect(s: System, a: Action)
    requires a.Commit? && a.actor in s.waiting && s.waiting[a.actor].task in s.db
    ensures var w := s.waiting[a.actor];
            Step(s, a) == System(s.db[w.task := Swap(s.db[w.task], w.cmd, w.values)], s.waiting - {a.actor})
  {
  }

  lemma OtherEffect(s: System, a: Action)
    requires !(a.Commit? && a.actor in s.waiting && s.waiting[a.actor].task in s.db)
    ensures Step(s, a).db == s.db
    ensures forall b :: b in Step(s, a).waiting ==>
              (b in s.waiting && Step(s, a).waiting[b] == s.waiting[b])
              || (a.Enter? && a.task in s.db && Check(s.db[a.task], a.cmd).Ready?
                  && Step(s, a).waiting[b] == Waiting(a.task, s.db[a.task], a.cmd, Check(s.db[a.task], a.cmd).values))
  {
  }

  lemma StepExtends(s: System, a: Action, t: TaskId)
    requires Good(s) && t in s.db
    ensures t in Step(s, a).db && Extends(s.db[t], Step(s, a).db[t]) && Consistent(Step(s, a).db[t])
  {
    if a.Commit? && a.actor in s.waiting && s.waiting[a.actor].task in s.db {
      CommitEffect(s, a);
      var w := s.waiting[a.actor];
      if w.task == t {
        assert WaitingOk(s, w);
        CommitKeepsConsistent(s, w);
      }
    } else {
      OtherEffect(s, a);
    }
  }

  lemma StepKeepsTasks(s: System, a: Action)
    ensures Step(s, a).db.Keys == s.db.Keys
  {
  }

  lemma StepKeepsGood(s: System, a: Action)
    requires Good(s) && Disciplined(s, a)
    ensures Good(Step(s, a))
  {
    var s' := Step(s, a);
    StepKeepsTasks(s, a);
    forall t | t in s.db ensures Extends(s.db[t], s'.db[t]) && Consistent(s'.db[t]) {
      StepExtends(s, a, t);
    }
    forall b | b in s'.waiting ensures WaitingOk(s', s'.waiting[b]) {
      if b in s.waiting && s'.waiting[b] == s.waiting[b] {
        WaitingSurvives(s, s', s.waiting[b]);
      } else {
        OtherEffect(s, a);
      }
    }
  }

  /** Main result of the store: under any interleaving of disciplined callers and crashes, every task's
      log stays an exact account of its row, and a key is applied at most once. */
  lemma {:induction false} EveryRunIsConsistent(s: System, actions: seq<Action>)
    requires Good(s) && DisciplinedRun(s, actions)
    ensures Good(Run(s, actions))
    ensures forall t :: t in s.db ==> t in Run(s, actions).db && Extends(s.db[t], Run(s, actions).db[t])
    decreases |actions|
  {
    if actions != [] {
      StepKeepsGood(s, actions[0]);
      StepKeepsTasks(s, actions[0]);
      forall t | t in s.db ensures Extends(s.db[t], Step(s, actions[0]).db[t]) {
        StepExtends(s, actions[0], t);
      }
      EveryRunIsConsistent(Step(s, actions[0]), actions[1..]);
    }
  }

  /** A losing writer leaves every row and every log as it found them, for any caller whatsoever. */
  lemma LoserChangesNothing(s: System, a: Action)
    requires a.Commit? && a.actor in s.waiting && s.waiting[a.actor].task in s.db
    requires s.db[s.waiting[a.actor].task].row.version != s.waiting[a.actor].cmd.expected
    ensures Step(s, a).db == s.db
  {
    var w := s.waiting[a.actor];
    assert Swap(s.db[w.task], w.cmd, w.values) == s.db[w.task];
  }

  function UpTo(h: History, n: nat): History
    requires n <= |h.log|
  {
    History(h.first, RowAt(h, n), h.log[..n])
  }

  function Only(task: TaskId, h: History): System {
    System(map[task := h], map[])
  }

  lemma RunTwo(s: System, a: Action, b: Action)
    ensures Run(s, [a, b]) == Step(Step(s, a), b)
    ensures DisciplinedRun(s, [a, b]) <==> Disciplined(s, a) && Disciplined(Step(s, a), b)
  {
    assert [a, b][1..] == [b] && [b][1..] == [];
    assert Run(Step(s, a), [b]) == Run(Step(Step(s, a), b), []);
    assert DisciplinedRun(Step(s, a), [b]) == Disciplined(Step(s, a), b) by {
      assert DisciplinedRun(Step(Step(s, a), b), []);
    }
    assert Run(s, [a, b]) == Run(Step(s, a), [b]);
  }

  lemma OneEntryMore(h: History, n: nat, task: TaskId, actor: ActorId) returns (actions: seq<Action>)
    requires Consistent(h) && n < |h.log|
    ensures DisciplinedRun(Only(task, UpTo(h, n)), actions)
    ensures Run(Only(task, UpTo(h, n)), actions) == Only(task, UpTo(h, n + 1))
  {
    var s, now, e := Only(task, UpTo(h, n)), UpTo(h, n), h.log[n];
    var cmd := Command(now.row.version, now.row.owner, e.changes, e.key, true, e.resume);
    assert LegalAt(h, n) && !KeyUsed(now.log, e.key);
    assert Check(now, cmd) == Ready(Derive(now.row, e.changes));
    assert h.log[..n + 1] == h.log[..n] + [e];
    assert Swap(now, cmd, Derive(now.row, e.changes)) == UpTo(h, n + 1);
    var entered := System(s.db, map[actor := Waiting(task, now, cmd, Derive(now.row, e.changes))]);
    actions := [Enter(actor, task, cmd), Commit(actor)];
    assert Step(s, actions[0]) == entered;
    assert Step(entered, Commit(actor)) == Only(task, UpTo(h, n + 1));
    RunTwo(s, actions[0], Commit(actor));
  }

  /** Completeness: the promises above are all there is. Every consistent history can be produced, from
      its first row, by a run of disciplined callers. */
  lemma {:induction false} EveryConsistentHistoryIsReachable(h: History, n: nat, task: TaskId, actor: ActorId)
    returns (actions: seq<Action>)
    requires Consistent(h) && n <= |h.log|
    ensures DisciplinedRun(Only(task, UpTo(h, 0)), actions)
    ensures Run(Only(task, UpTo(h, 0)), actions) == Only(task, UpTo(h, n))
    decreases n
  {
    if n == 0 {
      actions := [];
    } else {
      var before := EveryConsistentHistoryIsReachable(h, n - 1, task, actor);
      var last := OneEntryMore(h, n - 1, task, actor);
      RunAppend(Only(task, UpTo(h, 0)), before, last);
      actions := before + last;
    }
  }

  lemma {:induction false} RunAppend(s: System, first: seq<Action>, second: seq<Action>)
    ensures Run(s, first + second) == Run(Run(s, first), second)
    ensures DisciplinedRun(s, first + second) <==> DisciplinedRun(s, first) && DisciplinedRun(Run(s, first), second)
    decreases |first|
  {
    if first == [] {
      assert first + second == second;
    } else {
      assert (first + second)[0] == first[0] && (first + second)[1..] == first[1..] + second;
      RunAppend(Step(s, first[0]), first[1..], second);
    }
  }

  // ---- Where the guarantee stops ---------------------------------------------------------------

  /** A resume takes its expected version from the client. It is safe against every consistent
      continuation of the row it checked exactly when that version is not newer than the row. */
  lemma ResumeSafeIffVersionNotNewer(h: History, cmd: Command)
    requires Consistent(h) && cmd.resume && cmd.changes.status.Some? && Check(h, cmd).Ready?
    ensures (forall later: History :: Consistent(later) && Extends(h, later) && later.row.version == cmd.expected
               ==> EdgeAllowed(later.row.status, cmd.changes.status.value, true))
            <==> cmd.expected <= h.row.version
  {
    if cmd.expected <= h.row.version {
      forall later: History | Consistent(later) && Extends(h, later) && later.row.version == cmd.expected
        ensures EdgeAllowed(later.row.status, cmd.changes.status.value, true)
      {
        SwapHitsSeenRow(h, later, cmd);
      }
    } else {
      var later := ResumedElsewhere(h, cmd.expected - h.row.version);
      assert !EdgeAllowed(later.row.status, cmd.changes.status.value, true);
    }
  }

  /** Another administrator resumes the task to DRAFT and then rewrites DRAFT onto itself until the
      version has grown by n. */
  lemma {:induction false} ResumedElsewhere(h: History, n: nat) returns (later: History)
    requires Consistent(h) && h.row.status == NeedsHuman && n > 0
    ensures Consistent(later) && Extends(h, later)
    ensures later.row.version == h.row.version + n && later.row.status == Draft
    decreases n
  {
    var base := h;
    if n > 1 {
      base := ResumedElsewhere(h, n - 1);
    }
    var key := FreshKey(base.log);
    var cmd := Command(base.row.version, base.row.owner,
                       Changes(Some(Draft), None, None, None, None, map[], {}), key, true, n == 1);
    later := Swap(base, cmd, Check(base, cmd).values);
    SwapKeepsConsistent(base, cmd);
  }

  function LongestKey(log: seq<Entry>): nat
    decreases |log|
  {
    if log == [] then 0
    else
      var rest := LongestKey(log[1..]);
      if |log[0].key| > rest then |log[0].key| else rest
  }

  lemma {:induction false} LongestKeyBounds(log: seq<Entry>)
    ensures forall i :: 0 <= i < |log| ==> |log[i].key| <= LongestKey(log)
    decreases |log|
  {
    if log != [] {
      LongestKeyBounds(log[1..]);
      forall i | 0 <= i < |log| ensures |log[i].key| <= LongestKey(log) {
        assert i > 0 ==> log[i] == log[1..][i - 1];
      }
    }
  }

  lemma FreshKey(log: seq<Entry>) returns (key: Key)
    ensures !KeyUsed(log, key)
  {
    LongestKeyBounds(log);
    key := seq(LongestKey(log) + 1, _ => 'k');
  }

  // ---- Absorption and the length of a task ------------------------------------------------------

  function StatusAt(h: History, n: nat): ParentStatus
    requires n <= |h.log|
  {
    RowAt(h, n).status
  }

  /** MERGED, REJECTED and FAILED are final; NEEDS_HUMAN is left only by a resume, never towards MERGED;
      and nothing becomes MERGED except from PENDING_APPROVAL. */
  lemma EdgeTaken(h: History, n: nat)
    requires Consistent(h) && 0 < n <= |h.log|
    ensures StatusAt(h, n) == StatusAt(h, n - 1) || EdgeAllowed(StatusAt(h, n - 1), StatusAt(h, n), h.log[n - 1].resume)
  {
    var before, e := RowAt(h, n - 1), h.log[n - 1];
    assert LegalAt(h, n - 1);
    assert RowAt(h, n) == ReplayEntry(before, e);
  }

  lemma {:induction false} TerminalStatusesAbsorb(h: History, i: nat, j: nat)
    requires Consistent(h) && i <= j <= |h.log|
    ensures Final(StatusAt(h, i)) ==> StatusAt(h, j) == StatusAt(h, i)
    ensures StatusAt(h, i) == NeedsHuman && (forall k :: i <= k < j ==> !h.log[k].resume) ==> StatusAt(h, j) == NeedsHuman
    ensures i < j && StatusAt(h, j) == Merged && StatusAt(h, j - 1) != Merged ==>
              StatusAt(h, j - 1) == PendingApproval && !h.log[j - 1].resume
    decreases j - i
  {
    if i < j {
      TerminalStatusesAbsorb(h, i, j - 1);
      EdgeTaken(h, j);
    }
  }

  /** Edges left before a task must stop moving by itself. */
  function Rank(s: ParentStatus): nat {
    match s
    case Draft => 6
    case Reviewing => 5
    case Reviewed => 4
    case Fixing => 3
    case Testing => 2
    case PendingApproval => 1
    case _ => 0
  }

  /** Log entries among the first n that moved the status. */
  function StatusMoves(h: History, n: nat): nat
    requires n <= |h.log|
  {
    if n == 0 then 0
    else StatusMoves(h, n - 1) + if StatusAt(h, n) != StatusAt(h, n - 1) then 1 else 0
  }

  function Resumes(log: seq<Entry>, n: nat): nat
    requires n <= |log|
  {
    if n == 0 then 0 else Resumes(log, n - 1) + if log[n - 1].resume then 1 else 0
  }

  lemma {:induction false} MovesAgainstRank(h: History, n: nat)
    requires Consistent(h) && n <= |h.log|
    ensures StatusMoves(h, n) + Rank(StatusAt(h, n)) <= Rank(h.first.status) + 7 * Resumes(h.log, n)
  {
    if n > 0 {
      MovesAgainstRank(h, n - 1);
      EdgeTaken(h, n);
    }
  }

  /** A task that was resumed R times has changed its status at most 6 + 7R times. */
  lemma StatusMovesBounded(h: History)
    requires Consistent(h) && h.first.status == Draft
    ensures StatusMoves(h, |h.log|) <= 6 + 7 * Resumes(h.log, |h.log|)
  {
    MovesAgainstRank(h, |h.log|);
  }

  lemma Advance(h: History, target: ParentStatus, resume: bool) returns (h': History)
    requires Consistent(h) && target != h.row.status && EdgeAllowed(h.row.status, target, resume)
    ensures Consistent(h') && Extends(h, h') && |h'.log| == |h.log| + 1 && h'.row.status == target
    ensures StatusMoves(h', |h'.log|) == StatusMoves(h, |h.log|) + 1
    ensures Resumes(h'.log, |h'.log|) == Resumes(h.log, |h.log|) + if resume then 1 else 0
  {
    var key := FreshKey(h.log);
    var cmd := Command(h.row.version, h.row.owner,
                       Changes(Some(target), None, None, None, None, map[], {}), key, true, resume);
    h' := Swap(h, cmd, Check(h, cmd).values);
    SwapKeepsConsistent(h, cmd);
    MovesPrefix(h, h', |h.log|);
    ResumesPrefix(h.log, h'.log, |h.log|);
    RowAtPrefix(h, h', |h.log|);
  }

  lemma {:induction false} MovesPrefix(h: History, later: History, n: nat)
    requires Extends(h, later) && n <= |h.log|
    ensures StatusMoves(later, n) == StatusMoves(h, n)
  {
    if n > 0 {
      MovesPrefix(h, later, n - 1);
      assert StatusAt(later, n) == StatusAt(h, n) && StatusAt(later, n - 1) == StatusAt(h, n - 1) by {
        RowAtPrefix(h, later, n);
        RowAtPrefix(h, later, n - 1);
      }
    }
  }

  lemma {:induction false} ResumesPrefix(log: seq<Entry>, later: seq<Entry>, n: nat)
    requires log <= later && n <= |log|
    ensures Resumes(later, n) == Resumes(log, n)
  {
    if n > 0 {
      ResumesPrefix(log, later, n - 1);
      assert later[n - 1] == log[n - 1];
    }
  }

  predicate Walk(from: ParentStatus, path: seq<ParentStatus>)
    decreases |path|
  {
    path == [] || (path[0] != from && CanTransitionParent(from, path[0]) && Walk(path[0], path[1..]))
  }

  function Last(from: ParentStatus, path: seq<ParentStatus>): ParentStatus {
    if path == [] then from else path[|path| - 1]
  }

  lemma {:induction false} AdvanceAlong(h: History, path: seq<ParentStatus>) returns (h': History)
    requires Consistent(h) && Walk(h.row.status, path)
    ensures Consistent(h') && h'.first == h.first
    ensures h'.row.status == Last(h.row.status, path)
    ensures StatusMoves(h', |h'.log|) == StatusMoves(h, |h.log|) + |path|
    ensures Resumes(h'.log, |h'.log|) == Resumes(h.log, |h.log|)
    decreases |path|
  {
    if path == [] {
      h' := h;
    } else {
      var tail := path[1..];
      assert Walk(path[0], tail);
      var mid := Advance(h, path[0], false);
      var end := AdvanceAlong(mid, tail);
      assert Last(path[0], tail) == Last(h.row.status, path);
      h' := end;
    }
  }

  lemma FullPass(h: History) returns (h': History)
    requires Consistent(h) && h.row.status == Draft
    ensures Consistent(h') && h'.row.status == NeedsHuman && h'.first == h.first
    ensures StatusMoves(h', |h'.log|) == StatusMoves(h, |h.log|) + 6
    ensures Resumes(h'.log, |h'.log|) == Resumes(h.log, |h.log|)
  {
    var path := [Reviewing, Reviewed, Fixing, Testing, PendingApproval, NeedsHuman];
    assert Walk(Draft, path) by {
      assert path[1..] == [Reviewed, Fixing, Testing, PendingApproval, NeedsHuman];
      assert path[1..][1..] == [Fixing, Testing, PendingApproval, NeedsHuman];
      assert path[1..][1..][1..] == [Testing, PendingApproval, NeedsHuman];
      assert path[1..][1..][1..][1..] == [PendingApproval, NeedsHuman];
      assert path[1..][1..][1..][1..][1..] == [NeedsHuman];
      assert Walk(PendingApproval, [NeedsHuman]);
      assert Walk(Testing, [PendingApproval, NeedsHuman]);
      assert Walk(Fixing, [Testing, PendingApproval, NeedsHuman]);
      assert Walk(Reviewed, [Fixing, Testing, PendingApproval, NeedsHuman]);
      assert Walk(Reviewing, [Reviewed, Fixing, Testing, PendingApproval, NeedsHuman]);
    }
    h' := AdvanceAlong(h, path);
  }

  /** The bound is met for every number of resumes. */
  lemma {:induction false} StatusMovesBoundIsTight(resumes: nat, owner: string) returns (h: History)
    ensures Consistent(h) && h.first == Fresh(owner).first && h.row.status == NeedsHuman
    ensures Resumes(h.log, |h.log|) == resumes
    ensures StatusMoves(h, |h.log|) == 6 + 7 * resumes
  {
    if resumes == 0 {
      h := FullPass(Fresh(owner));
    } else {
      var before := StatusMovesBoundIsTight(resumes - 1, owner);
      var resumed := Advance(before, Draft, true);
      h := FullPass(resumed);
    }
  }

  // ---- What every column holds ------------------------------------------------------------------------------------

  /** Which entries name a column. */
  datatype Column = OwnerColumn | PatchColumn | SummaryColumn | OriginColumn | TextColumn(name: string)

  predicate Names(e: Entry, column: Column) {
    match column
    case OwnerColumn => e.changes.owner.Some?
    case PatchColumn => e.changes.activePatch.Some?
    case SummaryColumn => e.changes.summary.Some?
    case OriginColumn => e.changes.needsHumanFrom.Some? || e.changes.status == Some(NeedsHuman)
    case TextColumn(k) => k in e.changes.texts
  }

  /** Entry i is the last of the first n entries that names the column. */
  predicate LastToName(h: History, n: nat, column: Column, i: nat) {
    i < n <= |h.log| && Names(h.log[i], column) && forall j :: i < j < n ==> !Names(h.log[j], column)
  }

  predicate NeverNamed(h: History, n: nat, column: Column)
    requires n <= |h.log|
  {
    forall j :: 0 <= j < n ==> !Names(h.log[j], column)
  }

  lemma ReplayUpdates(h: History, n: nat)
    requires 0 < n <= |h.log|
    ensures Updated(RowAt(h, n - 1), h.log[n - 1].changes, RowAt(h, n))
  {
    WriteUpdates(RowAt(h, n - 1), h.log[n - 1].changes);
  }

  /** A column that no entry has named is as it was. */
  lemma {:induction false} UnnamedStays(h: History, from: nat, n: nat)
    requires from <= n <= |h.log|
    ensures var a, b := RowAt(h, from), RowAt(h, n);
            && ((forall j :: from <= j < n ==> !Names(h.log[j], OwnerColumn)) ==> b.owner == a.owner)
            && ((forall j :: from <= j < n ==> !Names(h.log[j], PatchColumn)) ==> b.activePatch == a.activePatch)
            && ((forall j :: from <= j < n ==> !Names(h.log[j], SummaryColumn)) ==> b.summary == a.summary)
            && ((forall j :: from <= j < n ==> !Names(h.log[j], OriginColumn)) ==> b.needsHumanFrom == a.needsHumanFrom)
    decreases n
  {
    if from < n {
      UnnamedStays(h, from, n - 1);
      ReplayUpdates(h, n);
    }
  }

  lemma {:induction false} UnnamedTextStays(h: History, from: nat, n: nat, k: string)
    requires from <= n <= |h.log| && forall j :: from <= j < n ==> k !in h.log[j].changes.texts
    ensures k in RowAt(h, n).texts <==> k in RowAt(h, from).texts
    ensures k in RowAt(h, n).texts ==> RowAt(h, n).texts[k] == RowAt(h, from).texts[k]
    decreases n
  {
    if from < n {
      UnnamedTextStays(h, from, n - 1, k);
      ReplayUpdates(h, n);
    }
  }

  /** The last write wins: after any number of entries a column holds what the last of them to name it says. A row that
      was sent to NEEDS_HUMAN remembers the status it left unless it was told another. */
  lemma LastWriteWins(h: History, n: nat, i: nat)
    requires i < n <= |h.log|
    ensures LastToName(h, n, OwnerColumn, i) ==> RowAt(h, n).owner == h.log[i].changes.owner.value
    ensures LastToName(h, n, PatchColumn, i) ==> RowAt(h, n).activePatch == h.log[i].changes.activePatch
    ensures LastToName(h, n, SummaryColumn, i) ==> RowAt(h, n).summary == h.log[i].changes.summary.value
    ensures LastToName(h, n, OriginColumn, i) ==>
              RowAt(h, n).needsHumanFrom == if h.log[i].changes.needsHumanFrom.Some? then h.log[i].changes.needsHumanFrom
                                            else Some(StatusAt(h, i))
  {
    ReplayUpdates(h, i + 1);
    UnnamedStays(h, i + 1, n);
  }

  /** The same for the text columns, the error code among them. */
  lemma LastTextWins(h: History, n: nat, i: nat, k: string)
    requires LastToName(h, n, TextColumn(k), i)
    ensures k in RowAt(h, n).texts && RowAt(h, n).texts[k] == h.log[i].changes.texts[k]
  {
    ReplayUpdates(h, i + 1);
    forall j | i < j < n ensures k !in h.log[j].changes.texts {
      assert !Names(h.log[j], TextColumn(k));
    }
    UnnamedTextStays(h, i + 1, n, k);
  }

  /** A column that none of the entries names is as it was in the first row. */
  lemma UnwrittenIsAsFirst(h: History, n: nat, k: string)
    requires n <= |h.log|
    ensures NeverNamed(h, n, OwnerColumn) ==> RowAt(h, n).owner == h.first.owner
    ensures NeverNamed(h, n, PatchColumn) ==> RowAt(h, n).activePatch == h.first.activePatch
    ensures NeverNamed(h, n, SummaryColumn) ==> RowAt(h, n).summary == h.first.summary
    ensures NeverNamed(h, n, OriginColumn) ==> RowAt(h, n).needsHumanFrom == h.first.needsHumanFrom
    ensures NeverNamed(h, n, TextColumn(k)) ==>
              (k in RowAt(h, n).texts <==> k in h.first.texts) && (k in h.first.texts ==> RowAt(h, n).texts[k] == h.first.texts[k])
  {
    UnnamedStays(h, 0, n);
    if NeverNamed(h, n, TextColumn(k)) {
      forall j | 0 <= j < n ensures k !in h.log[j].changes.texts {
        assert !Names(h.log[j], TextColumn(k));
      }
      UnnamedTextStays(h, 0, n, k);
    }
  }

  predicate Ends(e: Entry) {
    e.changes.status == Some(Merged) || e.changes.status == Some(Rejected) || e.changes.status == Some(Failed)
  }

  /** A task has finished exactly when it had from the start or some entry took it to MERGED, REJECTED or FAILED. */
  lemma {:induction false} FinishedIff(h: History, n: nat)
    requires n <= |h.log|
    ensures RowAt(h, n).finished <==> h.first.finished || exists i :: 0 <= i < n && Ends(h.log[i])
  {
    if n > 0 {
      FinishedIff(h, n - 1);
      ReplayUpdates(h, n);
      if i :| 0 <= i < n && Ends(h.log[i]) {
        assert i < n - 1 || Ends(h.log[n - 1]);
      }
    }
  }

  /** The status is the one the last entry with a status set. */
  lemma {:induction false} StatusStays(h: History, from: nat, n: nat)
    requires from <= n <= |h.log| && forall j :: from <= j < n ==> h.log[j].changes.status.None?
    ensures StatusAt(h, n) == StatusAt(h, from)
    ensures from > 0 && h.log[from - 1].changes.status.Some? ==> StatusAt(h, n) == h.log[from - 1].changes.status.value
    decreases n
  {
    if from < n {
      StatusStays(h, from, n - 1);
      ReplayUpdates(h, n);
    } else if n > 0 {
      ReplayUpdates(h, n);
    }
  }
}
