/** Concurrent callers of one idempotency key: lookup, insertion, work and settling are separate steps, and a
    caller can die between any two of them. */
module LedgerRuns {
  import opened Wrappers
  import opened StateMachine
  import opened Ledger

  type ActorId = string

  /** Inserting: found no row. Running: holds the reservation. Settling: the work is over, the row is not updated. */
  datatype Caller = Inserting(request: Request) | Running(request: Request) | Settling(request: Request, outcome: Outcome)

  datatype WorkRun = WorkRun(request: Request, outcome: Outcome)

  datatype Reply = Reply(request: Request, answer: Answer)

  /** The rows of one (actor, command, key), the callers at work, and what has happened so far. */
  datatype World = World(
    table: Table, callers: map<ActorId, Caller>, runs: seq<WorkRun>, replies: seq<Reply>, sanitize: string -> string)

  datatype Action =
    | Enter(actor: ActorId, request: Request, pick: Option<string>)
    | Insert(actor: ActorId)
    | Work(actor: ActorId, outcome: Outcome)
    | Update(actor: ActorId)
    | Crash(actor: ActorId)

  function Leave(w: World, actor: ActorId, answer: Answer, request: Request): World {
    w.(callers := w.callers - {actor}, replies := w.replies + [Reply(request, answer)])
  }

  function DoEnter(w: World, actor: ActorId, request: Request, pick: Option<string>): World {
    if actor in w.callers || !Picks(w.table, pick) then w
    else
      match Examine(w.table, pick, request)
      case Refused(code) => Leave(w, actor, Raised(code), request)
      case Replay(response) => Leave(w, actor, Replayed(response), request)
      case Retry => w.(callers := w.callers[actor := Running(request)])
      case Vacant => w.(callers := w.callers[actor := Inserting(request)])
  }

  /** The flush of a new row: the unique key lets one insertion through. */
  function DoInsert(w: World, actor: ActorId, request: Request): World {
    if request.aggregate in w.table then
      Leave(w, actor, Raised(if w.table[request.aggregate].request == request then Conflict else IdempotencyConflict), request)
    else
      w.(table := w.table[request.aggregate := Reserved(request)], callers := w.callers[actor := Running(request)])
  }

  function DoUpdate(w: World, actor: ActorId, request: Request, outcome: Outcome): World {
    var answer := if outcome.Success? then Returned(outcome.result) else Raised(outcome.code);
    var left := Leave(w, actor, answer, request);
    if request.aggregate !in w.table then left
    else left.(table := w.table[request.aggregate := Settle(w.table[request.aggregate], outcome, w.sanitize)])
  }

  function Step(w: World, a: Action): World {
    match a
    case Enter(actor, request, pick) => DoEnter(w, actor, request, pick)
    case Insert(actor) =>
      if actor in w.callers && w.callers[actor].Inserting? then DoInsert(w, actor, w.callers[actor].request) else w
    case Work(actor, outcome) =>
      if actor in w.callers && w.callers[actor].Running? then
        var request := w.callers[actor].request;
        w.(callers := w.callers[actor := Settling(request, outcome)], runs := w.runs + [WorkRun(request, outcome)])
      else w
    case Update(actor) =>
      if actor in w.callers && w.callers[actor].Settling?
      then DoUpdate(w, actor, w.callers[actor].request, w.callers[actor].outcome) else w
    case Crash(actor) => w.(callers := w.callers - {actor})
  }

  function Run(w: World, actions: seq<Action>): World
    decreases |actions|
  {
    if actions == [] then w else Run(Step(w, actions[0]), actions[1..])
  }

  function Start(sanitize: string -> string): World {
    World(map[], map[], [], [], sanitize)
  }

  function Successes(runs: seq<WorkRun>, aggregate: string): nat {
    if runs == [] then 0
    else
      var last := runs[|runs| - 1];
      Successes(runs[..|runs| - 1], aggregate)
      + if last.request.aggregate == aggregate && last.outcome.Success? then 1 else 0
  }

  function RunsOf(runs: seq<WorkRun>, aggregate: string): nat {
    if runs == [] then 0
    else RunsOf(runs[..|runs| - 1], aggregate) + if runs[|runs| - 1].request.aggregate == aggregate then 1 else 0
  }

  lemma CountAppend(runs: seq<WorkRun>, r: WorkRun, aggregate: string)
    ensures Successes(runs + [r], aggregate)
            == Successes(runs, aggregate) + if r.request.aggregate == aggregate && r.outcome.Success? then 1 else 0
    ensures RunsOf(runs + [r], aggregate) == RunsOf(runs, aggregate) + if r.request.aggregate == aggregate then 1 else 0
  {
    assert (runs + [r])[..|runs|] == runs;
  }

  // ---- Replays are faithful, whatever happens -----------------------------------------------------------------

  ghost predicate CameFrom(w: World, request: Request, response: string) {
    exists i :: 0 <= i < |w.runs| && RanTo(w, i, request, response)
  }

  predicate RanTo(w: World, i: nat, request: Request, response: string)
    requires i < |w.runs|
  {
    w.runs[i].request == request && w.runs[i].outcome.Success? && w.sanitize(w.runs[i].outcome.result) == response
  }

  /** Rows under their aggregate, callers with a row of their own request, and results that come from runs. */
  ghost predicate Faithful(w: World) {
    && TableOk(w.table)
    && (forall a :: a in w.callers && !w.callers[a].Inserting? ==> HasRow(w, w.callers[a].request))
    && (forall a :: a in w.callers && w.callers[a].Settling? && w.callers[a].outcome.Success? ==>
          WorkRun(w.callers[a].request, w.callers[a].outcome) in w.runs)
    && (forall g :: g in w.table && w.table[g].status == Done ==> CameFrom(w, w.table[g].request, w.table[g].response))
    && (forall i :: 0 <= i < |w.runs| ==> HasRow(w, w.runs[i].request))
    && (forall i :: 0 <= i < |w.replies| ==> ReplyOk(w, w.replies[i]))
  }

  ghost predicate ReplyOk(w: World, r: Reply) {
    match r.answer
    case Replayed(response) => CameFrom(w, r.request, response)
    case Returned(result) => WorkRun(r.request, Success(result)) in w.runs
    case Raised(_) => true
  }

  predicate HasRow(w: World, request: Request) {
    request.aggregate in w.table && w.table[request.aggregate].request == request
  }

  lemma StillCameFrom(w: World, w': World, request: Request, response: string)
    requires CameFrom(w, request, response) && w.runs <= w'.runs && w'.sanitize == w.sanitize
    ensures CameFrom(w', request, response)
  {
    var i :| 0 <= i < |w.runs| && RanTo(w, i, request, response);
    assert RanTo(w', i, request, response);
  }

  /** What came from a run, and what was answered, stays so. */
  lemma HistoryStays(w: World, w': World)
    requires w.runs <= w'.runs && w'.sanitize == w.sanitize
    ensures forall q, r :: CameFrom(w, q, r) ==> CameFrom(w', q, r)
    ensures forall r :: ReplyOk(w, r) ==> ReplyOk(w', r)
  {
    forall q, r | CameFrom(w, q, r) ensures CameFrom(w', q, r) {
      StillCameFrom(w, w', q, r);
    }
  }

  lemma EnterIsFaithful(w: World, a: Action)
    requires Faithful(w) && a.Enter?
    ensures Faithful(Step(w, a))
  {
    var w' := Step(w, a);
    assert w'.runs == w.runs && w'.table == w.table;
    HistoryStays(w, w');
  }

  lemma InsertIsFaithful(w: World, a: Action)
    requires Faithful(w) && (a.Insert? || a.Crash?)
    ensures Faithful(Step(w, a))
  {
    var w' := Step(w, a);
    assert w'.runs == w.runs;
    HistoryStays(w, w');
  }

  lemma WorkIsFaithful(w: World, a: Action)
    requires Faithful(w) && a.Work?
    ensures Faithful(Step(w, a))
  {
    var w' := Step(w, a);
    HistoryStays(w, w');
  }

  lemma UpdateIsFaithful(w: World, a: Action)
    requires Faithful(w) && a.Update?
    ensures Faithful(Step(w, a))
  {
    var w' := Step(w, a);
    assert w'.runs == w.runs;
    HistoryStays(w, w');
    if Succeeded(w, a.actor) {
      var run := WorkRun(w.callers[a.actor].request, w.callers[a.actor].outcome);
      var i :| 0 <= i < |w.runs| && w.runs[i] == run;
      assert RanTo(w', i, run.request, w.sanitize(run.outcome.result));
    }
  }

  lemma {:induction false} RunIsFaithful(w: World, actions: seq<Action>)
    requires Faithful(w)
    ensures Faithful(Run(w, actions))
    decreases |actions|
  {
    if actions != [] {
      var a := actions[0];
      match a {
        case Enter(_, _, _) => EnterIsFaithful(w, a);
        case Insert(_) => InsertIsFaithful(w, a);
        case Work(_, _) => WorkIsFaithful(w, a);
        case Update(_) => UpdateIsFaithful(w, a);
        case Crash(_) => InsertIsFaithful(w, a);
      }
      RunIsFaithful(Step(w, a), actions[1..]);
    }
  }

  /** Under any interleaving, with failures, re-entries and crashes: a replayed answer is the sanitised copy of what
      a successful run of the very same request returned, and a key of an aggregate only ever runs one request. */
  lemma ReplaysAreFaithful(sanitize: string -> string, actions: seq<Action>)
    ensures var w := Run(Start(sanitize), actions);
            && (forall i :: 0 <= i < |w.replies| && w.replies[i].answer.Replayed? ==>
                  exists k :: 0 <= k < |w.runs| && RanTo(w, k, w.replies[i].request, w.replies[i].answer.response))
            && (forall i, k :: 0 <= i < |w.runs| && 0 <= k < |w.runs| && w.runs[i].request.aggregate == w.runs[k].request.aggregate ==>
                  w.runs[i].request == w.runs[k].request)
  {
    RunIsFaithful(Start(sanitize), actions);
    var w := Run(Start(sanitize), actions);
    forall i | 0 <= i < |w.replies| && w.replies[i].answer.Replayed?
      ensures CameFrom(w, w.replies[i].request, w.replies[i].answer.response)
    {
      assert ReplyOk(w, w.replies[i]);
    }
    forall i, k | 0 <= i < |w.runs| && 0 <= k < |w.runs| && w.runs[i].request.aggregate == w.runs[k].request.aggregate
      ensures w.runs[i].request == w.runs[k].request
    {
      assert HasRow(w, w.runs[i].request) && HasRow(w, w.runs[k].request);
    }
  }

  // ---- Refusals are justified -----------------------------------------------------------------------------------

  ghost predicate OtherOnRecord(w: World, request: Request) {
    exists g :: g in w.table && w.table[g].request != request
  }

  /** An error is the work's own, or the same request is on record, or another one is. */
  ghost predicate RefusalOk(w: World, request: Request, code: ErrorCode) {
    || WorkRun(request, Failure(code)) in w.runs
    || (code == Conflict && HasRow(w, request))
    || (code == IdempotencyConflict && OtherOnRecord(w, request))
  }

  ghost predicate Justified(w: World) {
    && TableOk(w.table)
    && (forall a :: a in w.callers && w.callers[a].Settling? ==> WorkRun(w.callers[a].request, w.callers[a].outcome) in w.runs)
    && (forall i :: 0 <= i < |w.replies| && w.replies[i].answer.Raised? ==>
          RefusalOk(w, w.replies[i].request, w.replies[i].answer.code))
  }

  /** Rows keep their requests, and nothing that has run is forgotten. */
  ghost predicate Remembers(w: World, w': World) {
    && (forall g :: g in w.table ==> g in w'.table && w'.table[g].request == w.table[g].request)
    && (forall r :: r in w.runs ==> r in w'.runs)
  }

  lemma RefusalStays(w: World, w': World, request: Request, code: ErrorCode)
    requires Remembers(w, w') && RefusalOk(w, request, code)
    ensures RefusalOk(w', request, code)
  {
    if code == IdempotencyConflict && OtherOnRecord(w, request) {
      var g :| g in w.table && w.table[g].request != request;
      assert w'.table[g].request != request;
    }
  }

  lemma StepRemembers(w: World, a: Action)
    ensures Remembers(w, Step(w, a))
  {
  }

  lemma LookupRefuses(w: World, request: Request, pick: Option<string>)
    requires TableOk(w.table) && Picks(w.table, pick) && Examine(w.table, pick, request).Refused?
    ensures RefusalOk(w, request, Examine(w.table, pick, request).code)
  {
    assert pick.value in w.table;
  }

  lemma StepRefuses(w: World, a: Action, i: nat)
    requires Justified(w) && i < |Step(w, a).replies| && i >= |w.replies| && Step(w, a).replies[i].answer.Raised?
    ensures RefusalOk(Step(w, a), Step(w, a).replies[i].request, Step(w, a).replies[i].answer.code)
  {
    var w' := Step(w, a);
    match a
    case Enter(_, request, pick) => LookupRefuses(w, request, pick);
    case Insert(actor) =>
      var request := w.callers[actor].request;
      assert request.aggregate in w.table;
    case Work(_, _) =>
    case Update(_) =>
    case Crash(_) =>
  }

  lemma StepKeepsJustified(w: World, a: Action)
    requires Justified(w)
    ensures Justified(Step(w, a))
  {
    var w' := Step(w, a);
    StepRemembers(w, a);
    forall i | 0 <= i < |w'.replies| && w'.replies[i].answer.Raised?
      ensures RefusalOk(w', w'.replies[i].request, w'.replies[i].answer.code)
    {
      if i < |w.replies| {
        assert w'.replies[i] == w.replies[i];
        RefusalStays(w, w', w.replies[i].request, w.replies[i].answer.code);
      } else {
        StepRefuses(w, a, i);
      }
    }
  }

  lemma {:induction false} RunKeepsJustified(w: World, actions: seq<Action>)
    requires Justified(w)
    ensures Justified(Run(w, actions))
    decreases |actions|
  {
    if actions != [] {
      StepKeepsJustified(w, actions[0]);
      RunKeepsJustified(Step(w, actions[0]), actions[1..]);
    }
  }

  /** Over every interleaving: an error answered to a caller is the one its own request's work failed with, or says in progress
      and that request is on record, or says conflict of requests and another request is on record under the key. */
  lemma RefusalsAreJustified(sanitize: string -> string, actions: seq<Action>, i: nat)
    requires i < |Run(Start(sanitize), actions).replies| && Run(Start(sanitize), actions).replies[i].answer.Raised?
    ensures var w := Run(Start(sanitize), actions);
            var request, code := w.replies[i].request, w.replies[i].answer.code;
            || (exists k :: 0 <= k < |w.runs| && w.runs[k] == WorkRun(request, Failure(code)))
            || (code == Conflict && request.aggregate in w.table && w.table[request.aggregate].request == request)
            || (code == IdempotencyConflict && exists g :: g in w.table && w.table[g].request != request)
  {
    RunKeepsJustified(Start(sanitize), actions);
  }

  // ---- At most one success --------------------------------------------------------------------------------------

  predicate Active(w: World, actor: ActorId, aggregate: string) {
    actor in w.callers && !w.callers[actor].Inserting? && w.callers[actor].request.aggregate == aggregate
  }

  ghost predicate NobodyActive(w: World, aggregate: string) {
    forall b :: b in w.callers ==> !Active(w, b, aggregate)
  }

  /** Retries take turns: a failed key is entered only while nobody is at work on it, and a caller whose retry has
      succeeded lives to say so. */
  ghost predicate InTurn(w: World, a: Action) {
    match a
    case Enter(actor, request, pick) =>
      Picks(w.table, pick) && Examine(w.table, pick, request) == Retry ==> NobodyActive(w, request.aggregate)
    case Crash(actor) =>
      actor in w.callers && w.callers[actor].Settling? && w.callers[actor].outcome.Success? ==>
        w.callers[actor].request.aggregate in w.table
        && w.table[w.callers[actor].request.aggregate].status == InProgress
    case _ => true
  }

  ghost predicate AllInTurn(w: World, actions: seq<Action>)
    decreases |actions|
  {
    actions == [] || (InTurn(w, actions[0]) && AllInTurn(Step(w, actions[0]), actions[1..]))
  }

  predicate Succeeded(w: World, actor: ActorId) {
    actor in w.callers && w.callers[actor].Settling? && w.callers[actor].outcome.Success?
  }

  /** One holder per key, and the successes so far follow from the row and its holder. */
  ghost predicate KeyOk(w: World, g: string) {
    && (forall b, c :: Active(w, b, g) && Active(w, c, g) ==> b == c)
    && (g !in w.table ==> NobodyActive(w, g) && Successes(w.runs, g) == 0)
    && Successes(w.runs, g) <= 1
    && (forall b :: Active(w, b, g) ==> w.table[g].status != Done
                                        && (Successes(w.runs, g) == 1 <==> Succeeded(w, b)))
    && (g in w.table && w.table[g].status == Broken && NobodyActive(w, g) ==> Successes(w.runs, g) == 0)
  }

  ghost predicate Good(w: World) {
    Faithful(w) && forall g: string :: KeyOk(w, g)
  }

  predicate Retries(w: World, a: Action) {
    a.Enter? && a.actor !in w.callers && Picks(w.table, a.pick) && Examine(w.table, a.pick, a.request) == Retry
  }

  lemma EnterKeepsKey(w: World, a: Action, g: string)
    requires Faithful(w) && KeyOk(w, g) && a.Enter? && InTurn(w, a)
    ensures KeyOk(Step(w, a), g)
  {
    var w' := Step(w, a);
    if Retries(w, a) && g == a.request.aggregate {
      assert w.table[a.pick.value].request == a.request && a.pick.value == g;
      assert Active(w', a.actor, g) && NobodyActive(w, g);
      assert forall b :: Active(w', b, g) && b != a.actor ==> Active(w, b, g);
    } else {
      SameActive(w, w', g);
    }
  }

  lemma SameActive(w: World, w': World, g: string)
    requires KeyOk(w, g) && w'.table == w.table && w'.runs == w.runs
    requires forall b :: Active(w', b, g) <==> Active(w, b, g)
    requires forall b :: Active(w, b, g) && Active(w', b, g) ==> w'.callers[b] == w.callers[b]
    ensures KeyOk(w', g)
  {
    assert NobodyActive(w', g) <==> NobodyActive(w, g);
  }

  lemma InsertKeepsKey(w: World, a: Action, g: string)
    requires Faithful(w) && KeyOk(w, g) && a.Insert?
    ensures KeyOk(Step(w, a), g)
  {
    var w' := Step(w, a);
    if a.actor in w.callers && w.callers[a.actor].Inserting? {
      var request := w.callers[a.actor].request;
      if request.aggregate == g && g !in w.table {
        assert Active(w', a.actor, g);
        assert forall b :: Active(w', b, g) && b != a.actor ==> Active(w, b, g);
      } else {
        assert forall b :: Active(w', b, g) <==> Active(w, b, g);
        OtherRow(w, w', g);
      }
    }
  }

  /** What does not touch a key, its holders or its count keeps it in order. */
  lemma OtherRow(w: World, w': World, g: string)
    requires KeyOk(w, g) && (g in w'.table <==> g in w.table) && (g in w.table ==> w'.table[g] == w.table[g])
    requires Successes(w'.runs, g) == Successes(w.runs, g)
    requires forall b :: Active(w', b, g) <==> Active(w, b, g)
    requires forall b :: Active(w, b, g) && Active(w', b, g) ==> w'.callers[b] == w.callers[b]
    ensures KeyOk(w', g)
  {
    assert NobodyActive(w', g) <==> NobodyActive(w, g);
  }

  lemma WorkKeepsKey(w: World, a: Action, g: string)
    requires Faithful(w) && KeyOk(w, g) && a.Work?
    ensures KeyOk(Step(w, a), g)
  {
    var w' := Step(w, a);
    if a.actor in w.callers && w.callers[a.actor].Running? {
      var request := w.callers[a.actor].request;
      CountAppend(w.runs, WorkRun(request, a.outcome), g);
      if request.aggregate == g {
        assert Active(w, a.actor, g) && Active(w', a.actor, g);
        assert forall b :: Active(w', b, g) ==> Active(w, b, g);
      } else {
        OtherRow(w, w', g);
      }
    }
  }

  lemma UpdateKeepsKey(w: World, a: Action, g: string)
    requires Faithful(w) && KeyOk(w, g) && a.Update?
    ensures KeyOk(Step(w, a), g)
  {
    var w' := Step(w, a);
    if a.actor in w.callers && w.callers[a.actor].Settling? {
      var request := w.callers[a.actor].request;
      if request.aggregate == g {
        assert Active(w, a.actor, g) && HasRow(w, request);
        assert forall b :: Active(w', b, g) ==> Active(w, b, g);
        assert NobodyActive(w', g);
      } else {
        assert forall b :: Active(w', b, g) <==> Active(w, b, g);
        OtherRow(w, w', g);
      }
    }
  }

  lemma CrashKeepsKey(w: World, a: Action, g: string)
    requires Faithful(w) && KeyOk(w, g) && a.Crash? && InTurn(w, a)
    ensures KeyOk(Step(w, a), g)
  {
    var w' := Step(w, a);
    if Active(w, a.actor, g) {
      assert forall b :: Active(w', b, g) ==> Active(w, b, g);
      assert NobodyActive(w', g);
      assert HasRow(w, w.callers[a.actor].request);
    } else {
      SameActive(w, w', g);
    }
  }

  lemma StepKeepsGood(w: World, a: Action)
    requires Good(w) && InTurn(w, a)
    ensures Good(Step(w, a))
  {
    RunIsFaithful(w, [a]);
    assert |[a][1..]| == 0;
    assert Run(w, [a]) == Step(w, a);
    forall g: string ensures KeyOk(Step(w, a), g) {
      assert KeyOk(w, g);
      match a {
        case Enter(_, _, _) => EnterKeepsKey(w, a, g);
        case Insert(_) => InsertKeepsKey(w, a, g);
        case Work(_, _) => WorkKeepsKey(w, a, g);
        case Update(_) => UpdateKeepsKey(w, a, g);
        case Crash(_) => CrashKeepsKey(w, a, g);
      }
    }
  }

  lemma {:induction false} RunKeepsGood(w: World, actions: seq<Action>)
    requires Good(w) && AllInTurn(w, actions)
    ensures Good(Run(w, actions))
    decreases |actions|
  {
    if actions != [] {
      StepKeepsGood(w, actions[0]);
      RunKeepsGood(Step(w, actions[0]), actions[1..]);
    }
  }

  /** With retries taking turns, the work of a key succeeds at most once, whatever fails and whoever else dies. */
  lemma AtMostOneSuccess(sanitize: string -> string, actions: seq<Action>, g: string)
    requires AllInTurn(Start(sanitize), actions)
    ensures Successes(Run(Start(sanitize), actions).runs, g) <= 1
  {
    RunKeepsGood(Start(sanitize), actions);
    assert KeyOk(Run(Start(sanitize), actions), g);
  }

  // ---- Without failures: exactly once -----------------------------------------------------------------------------

  predicate Flawless(actions: seq<Action>) {
    forall i :: 0 <= i < |actions| ==> !actions[i].Crash? && (actions[i].Work? ==> actions[i].outcome.Success?)
  }

  ghost predicate NoFailureSoFar(w: World) {
    && (forall g :: g in w.table ==> w.table[g].status != Broken)
    && (forall a :: a in w.callers && w.callers[a].Settling? ==> w.callers[a].outcome.Success?)
    && (forall g: string :: RunsOf(w.runs, g) == Successes(w.runs, g))
  }

  lemma FlawlessStep(w: World, a: Action)
    requires NoFailureSoFar(w) && !a.Crash? && (a.Work? ==> a.outcome.Success?)
    ensures InTurn(w, a) && NoFailureSoFar(Step(w, a))
  {
    forall g: string ensures RunsOf(Step(w, a).runs, g) == Successes(Step(w, a).runs, g) {
      if a.Work? && a.actor in w.callers && w.callers[a.actor].Running? {
        CountAppend(w.runs, WorkRun(w.callers[a.actor].request, a.outcome), g);
      }
    }
  }

  lemma {:induction false} FlawlessRunsInTurn(w: World, actions: seq<Action>)
    requires NoFailureSoFar(w) && Flawless(actions)
    ensures AllInTurn(w, actions) && NoFailureSoFar(Run(w, actions))
    decreases |actions|
  {
    if actions != [] {
      FlawlessStep(w, actions[0]);
      FlawlessRunsInTurn(Step(w, actions[0]), actions[1..]);
    }
  }

  lemma {:induction false} RunsAreCounted(runs: seq<WorkRun>, g: string, i: nat)
    requires i < |runs| && runs[i].request.aggregate == g
    ensures RunsOf(runs, g) >= 1
    ensures forall k :: i < k < |runs| && runs[k].request.aggregate == g ==> RunsOf(runs, g) >= 2
    decreases |runs|
  {
    var front := runs[..|runs| - 1];
    if i < |runs| - 1 {
      RunsAreCounted(front, g, i);
      forall k | i < k < |runs| && runs[k].request.aggregate == g ensures RunsOf(runs, g) >= 2 {
        if k < |runs| - 1 {
          assert front[k] == runs[k];
        }
      }
    }
  }

  /** Main result of the ledger: any number of concurrent callers of one key without a failure run the work at most
      once; as soon as one of them has a result it has run exactly once, and every result any of them ever gets is
      the one that run returned, or its sanitised copy. */
  lemma ExactlyOnce(sanitize: string -> string, actions: seq<Action>, i: nat)
    requires Flawless(actions) && i < |Run(Start(sanitize), actions).replies|
    requires !Run(Start(sanitize), actions).replies[i].answer.Raised?
    ensures var w := Run(Start(sanitize), actions);
            var g := w.replies[i].request.aggregate;
            && RunsOf(w.runs, g) == 1
            && (forall k :: 0 <= k < |w.runs| && w.runs[k].request.aggregate == g ==>
                  && w.runs[k].request == w.replies[i].request && w.runs[k].outcome.Success?
                  && (match w.replies[i].answer
                      case Returned(result) => result == w.runs[k].outcome.result
                      case Replayed(response) => response == sanitize(w.runs[k].outcome.result)
                      case Raised(_) => true))
  {
    FlawlessRunsInTurn(Start(sanitize), actions);
    RunKeepsGood(Start(sanitize), actions);
    SanitizeStays(Start(sanitize), actions);
    var w := Run(Start(sanitize), actions);
    var r := w.replies[i];
    var g := r.request.aggregate;
    assert KeyOk(w, g) && ReplyOk(w, r);
    var k := RunBehind(w, r);
    RunsAreCounted(w.runs, g, k);
    forall j | 0 <= j < |w.runs| && w.runs[j].request.aggregate == g ensures j == k {
      RunsAreCounted(w.runs, g, j);
    }
  }

  lemma RunBehind(w: World, r: Reply) returns (k: nat)
    requires ReplyOk(w, r) && !r.answer.Raised?
    ensures k < |w.runs| && w.runs[k].request == r.request && w.runs[k].outcome.Success?
    ensures r.answer.Returned? ==> w.runs[k].outcome.result == r.answer.result
    ensures r.answer.Replayed? ==> w.sanitize(w.runs[k].outcome.result) == r.answer.response
  {
    if r.answer.Returned? {
      k :| 0 <= k < |w.runs| && w.runs[k] == WorkRun(r.request, Success(r.answer.result));
    } else {
      k :| 0 <= k < |w.runs| && RanTo(w, k, r.request, r.answer.response);
    }
  }

  lemma {:induction false} SanitizeStays(w: World, actions: seq<Action>)
    ensures Run(w, actions).sanitize == w.sanitize
    decreases |actions|
  {
    if actions != [] {
      SanitizeStays(Step(w, actions[0]), actions[1..]);
    }
  }

  // ---- Out of turn: twice ---------------------------------------------------------------------------------------------

  lemma RunFirst(w: World, a: Action, rest: seq<Action>)
    ensures Run(w, [a] + rest) == Run(Step(w, a), rest)
  {
    assert ([a] + rest)[1..] == rest;
  }

  /** A holder whose work now succeeds. */
  lemma OneMoreSuccess(w: World, actor: ActorId, g: string) returns (a: Action)
    requires actor in w.callers && w.callers[actor].Running? && w.callers[actor].request.aggregate == g
    ensures a == Work(actor, Success("done")) && Successes(Step(w, a).runs, g) == Successes(w.runs, g) + 1
    ensures forall b :: b in w.callers && b != actor ==> b in Step(w, a).callers && Step(w, a).callers[b] == w.callers[b]
  {
    a := Work(actor, Success("done"));
    CountAppend(w.runs, WorkRun(w.callers[actor].request, a.outcome), g);
  }

  /** A failed key with nobody at work on it is entered again and succeeds. */
  lemma RetrySucceeds(w: World, actor: ActorId, request: Request) returns (actions: seq<Action>)
    requires Faithful(w) && HasRow(w, request) && w.table[request.aggregate].status == Broken && actor !in w.callers
    ensures Successes(Run(w, actions).runs, request.aggregate) == Successes(w.runs, request.aggregate) + 1
  {
    var enter := Enter(actor, request, Some(request.aggregate));
    var w1 := Step(w, enter);
    assert w1 == w.(callers := w.callers[actor := Caller.Running(request)]);
    var work := OneMoreSuccess(w1, actor, request.aggregate);
    actions := [enter] + ([work] + []);
    RunFirst(w, enter, [work] + []);
    RunFirst(w1, work, []);
  }

  /** A holder that dies after a successful retry leaves a failed key behind: the next caller succeeds again. */
  lemma CrashOutOfTurnAdmitsTwo(w: World, a: Action) returns (actions: seq<Action>)
    requires Good(w) && a.Crash? && !InTurn(w, a)
    ensures Successes(Run(Step(w, a), actions).runs, w.callers[a.actor].request.aggregate) >= 2
  {
    var request := w.callers[a.actor].request;
    assert KeyOk(w, request.aggregate) && Active(w, a.actor, request.aggregate) && HasRow(w, request);
    InsertIsFaithful(w, a);
    actions := RetrySucceeds(Step(w, a), a.actor, request);
  }

  lemma EntryEffect(w: World, a: Action, other: ActorId)
    requires Good(w) && Retries(w, a) && Active(w, other, a.request.aggregate)
    ensures Step(w, a) == w.(callers := w.callers[a.actor := Caller.Running(a.request)])
    ensures other != a.actor && HasRow(Step(w, a), w.callers[other].request) && w.callers[other].request == a.request
    ensures Faithful(Step(w, a)) && (Succeeded(w, other) ==> Successes(w.runs, a.request.aggregate) == 1)
  {
    assert KeyOk(w, a.request.aggregate) && HasRow(w, w.callers[other].request);
    assert w.table[a.pick.value].request == a.request && a.pick.value == a.request.aggregate;
    EnterIsFaithful(w, a);
  }

  /** A failed key entered while another caller is at work on it: both can succeed. If the other has already failed,
      its late update turns the newcomer's finished record back into a failed one, and a third call succeeds. */
  lemma EntryOutOfTurnAdmitsTwo(w: World, a: Action, other: ActorId) returns (actions: seq<Action>)
    requires Good(w) && Retries(w, a) && Active(w, other, a.request.aggregate)
    ensures Successes(Run(Step(w, a), actions).runs, a.request.aggregate) >= 2
  {
    var g, w1 := a.request.aggregate, Step(w, a);
    EntryEffect(w, a, other);
    var mine := OneMoreSuccess(w1, a.actor, g);
    if w.callers[other].Running? {
      actions := BothSucceed(w1, a.actor, other, g);
    } else if w.callers[other].outcome.Success? {
      actions := [mine] + [];
      RunFirst(w1, mine, []);
    } else {
      actions := LateFailure(w1, a.actor, other, a.request, mine);
    }
  }

  lemma BothSucceed(w: World, actor: ActorId, other: ActorId, g: string) returns (actions: seq<Action>)
    requires actor != other && actor in w.callers && other in w.callers
    requires w.callers[actor].Running? && w.callers[actor].request.aggregate == g
    requires w.callers[other].Running? && w.callers[other].request.aggregate == g
    ensures Successes(Run(w, actions).runs, g) == Successes(w.runs, g) + 2
  {
    var mine := OneMoreSuccess(w, actor, g);
    var w2 := Step(w, mine);
    var theirs := OneMoreSuccess(w2, other, g);
    actions := [mine] + ([theirs] + []);
    RunFirst(w, mine, [theirs] + []);
    RunFirst(w2, theirs, []);
  }

  lemma LateFailure(w1: World, actor: ActorId, other: ActorId, request: Request, mine: Action) returns (actions: seq<Action>)
    requires Faithful(w1) && actor != other && actor in w1.callers && w1.callers[actor] == Caller.Running(request)
    requires mine == Work(actor, Success("done"))
    requires other in w1.callers && w1.callers[other].Settling? && w1.callers[other].outcome.Failure?
    requires w1.callers[other].request.aggregate == request.aggregate && HasRow(w1, request)
    ensures Successes(Run(w1, actions).runs, request.aggregate) >= 2
  {
    var g := request.aggregate;
    var again := OneMoreSuccess(w1, actor, g);
    var w2 := Step(w1, mine);
    var w3 := Step(w2, Update(actor));
    var w4 := Step(w3, Update(other));
    WorkIsFaithful(w1, mine);
    UpdateIsFaithful(w2, Update(actor));
    UpdateIsFaithful(w3, Update(other));
    assert w2.callers[actor] == Settling(request, Success("done")) && w2.callers[other] == w1.callers[other];
    assert w3.callers[other] == w1.callers[other] && HasRow(w3, request);
    assert w4.table[g].status == Broken && HasRow(w4, request) && w4.runs == w2.runs && actor !in w4.callers;
    var last := RetrySucceeds(w4, actor, request);
    actions := [mine] + ([Update(actor)] + ([Update(other)] + last));
    RunFirst(w1, mine, [Update(actor)] + ([Update(other)] + last));
    RunFirst(w2, Update(actor), [Update(other)] + last);
    RunFirst(w3, Update(other), last);
  }

  lemma {:induction false} RunJoin(w: World, first: seq<Action>, second: seq<Action>)
    ensures Run(w, first + second) == Run(Run(w, first), second)
    decreases |first|
  {
    if first == [] {
      assert first + second == second;
    } else {
      assert (first + second)[0] == first[0] && (first + second)[1..] == first[1..] + second;
      RunJoin(Step(w, first[0]), first[1..], second);
    }
  }

  /** Both callers look before either inserts, and both insertions go through. */
  lemma BothReserve(sanitize: string -> string, first: Request, second: Request) returns (actions: seq<Action>)
    requires first.aggregate != second.aggregate
    ensures var w := Run(Start(sanitize), actions);
            w.runs == [] && w.callers == map["a" := Caller.Running(first), "b" := Caller.Running(second)]
  {
    var w0, e1, e2 := Start(sanitize), Enter("a", first, None), Enter("b", second, None);
    var w1 := w0.(callers := map["a" := Inserting(first)]);
    var w2 := w0.(callers := map["a" := Inserting(first), "b" := Inserting(second)]);
    var w3 := Step(w2, Insert("a"));
    assert Step(w0, e1) == w1 && Step(w1, e2) == w2;
    assert w3.table == map[first.aggregate := Reserved(first)] && w3.runs == [];
    assert w3.callers == map["a" := Caller.Running(first), "b" := Inserting(second)];
    actions := [e1] + ([e2] + ([Insert("a")] + ([Insert("b")] + [])));
    RunFirst(w0, e1, [e2] + ([Insert("a")] + ([Insert("b")] + [])));
    RunFirst(w1, e2, [Insert("a")] + ([Insert("b")] + []));
    RunFirst(w2, Insert("a"), [Insert("b")] + []);
    RunFirst(w3, Insert("b"), []);
  }

  /** Two requests under one key for different aggregates can both run, when both look before either inserts. */
  lemma KeyRaceAcrossAggregates(sanitize: string -> string, first: Request, second: Request) returns (actions: seq<Action>)
    requires first.aggregate != second.aggregate
    ensures Successes(Run(Start(sanitize), actions).runs, first.aggregate) == 1
    ensures Successes(Run(Start(sanitize), actions).runs, second.aggregate) == 1
  {
    var reserve := BothReserve(sanitize, first, second);
    var w := Run(Start(sanitize), reserve);
    var a, b := Work("a", Success("done")), Work("b", Success("done"));
    CountAppend([], WorkRun(first, Success("done")), first.aggregate);
    CountAppend([], WorkRun(first, Success("done")), second.aggregate);
    CountAppend([WorkRun(first, Success("done"))], WorkRun(second, Success("done")), first.aggregate);
    CountAppend([WorkRun(first, Success("done"))], WorkRun(second, Success("done")), second.aggregate);
    RunFirst(w, a, [b] + []);
    RunFirst(Step(w, a), b, []);
    actions := reserve + ([a] + ([b] + []));
    RunJoin(Start(sanitize), reserve, [a] + ([b] + []));
  }

  // ---- When a key runs one request only --------------------------------------------------------------------------------

  /** A caller that looked before the key had a row inserts one beside the row of another aggregate. */
  predicate InsertsBeside(w: World, a: Action) {
    && a.Insert? && a.actor in w.callers && w.callers[a.actor].Inserting?
    && w.table != map[] && w.callers[a.actor].request.aggregate !in w.table
  }

  predicate NeverInsertsBeside(w: World, actions: seq<Action>)
    decreases |actions|
  {
    actions == [] || (!InsertsBeside(w, actions[0]) && NeverInsertsBeside(Step(w, actions[0]), actions[1..]))
  }

  /** A step adds a row only by an insertion, and a second one only by an insertion beside another. */
  lemma StepOnTable(w: World, a: Action)
    requires Faithful(w)
    ensures w.table.Keys <= Step(w, a).table.Keys
    ensures InsertsBeside(w, a) ==> |Step(w, a).table.Keys| == |w.table.Keys| + 1 >= 2
    ensures |w.table.Keys| <= 1 && !InsertsBeside(w, a) ==> |Step(w, a).table.Keys| <= 1
  {
    var keys, keys' := w.table.Keys, Step(w, a).table.Keys;
    if a.Insert? && a.actor in w.callers && w.callers[a.actor].Inserting? && w.callers[a.actor].request.aggregate !in w.table {
      assert keys' == keys + {w.callers[a.actor].request.aggregate};
      assert w.table != map[] ==> keys != {};
    } else {
      SameKeys(w, a);
    }
  }

  lemma SameKeys(w: World, a: Action)
    requires Faithful(w)
    requires !(a.Insert? && a.actor in w.callers && w.callers[a.actor].Inserting? && w.callers[a.actor].request.aggregate !in w.table)
    ensures Step(w, a).table.Keys == w.table.Keys
  {
  }

  lemma StepIsFaithful(w: World, a: Action)
    requires Faithful(w)
    ensures Faithful(Step(w, a))
  {
    RunFirst(w, a, []);
    RunIsFaithful(w, [a] + []);
  }

  lemma {:induction false} RowsStay(w: World, actions: seq<Action>)
    requires Faithful(w)
    ensures w.table.Keys <= Run(w, actions).table.Keys
    decreases |actions|
  {
    if actions != [] {
      StepOnTable(w, actions[0]);
      StepIsFaithful(w, actions[0]);
      RowsStay(Step(w, actions[0]), actions[1..]);
    }
  }

  lemma {:induction false} OneRowIff(w: World, actions: seq<Action>)
    requires Faithful(w) && |w.table.Keys| <= 1
    ensures |Run(w, actions).table.Keys| <= 1 <==> NeverInsertsBeside(w, actions)
    decreases |actions|
  {
    if actions != [] {
      var w' := Step(w, actions[0]);
      StepOnTable(w, actions[0]);
      StepIsFaithful(w, actions[0]);
      if InsertsBeside(w, actions[0]) {
        RowsStay(w', actions[1..]);
        SubsetSize(w'.table.Keys, Run(w', actions[1..]).table.Keys);
      } else {
        OneRowIff(w', actions[1..]);
      }
    }
  }

  lemma OnlyRow(keys: set<string>, a: string, b: string)
    requires |keys| <= 1 && a in keys && b in keys
    ensures a == b
  {
    SubsetSize({a, b}, keys);
  }

  /** Over all runs: a key has at most one row exactly when no insertion went through beside the row of another aggregate;
      and then, failures, re-entries and crashes included, the work is only ever run for one request. */
  lemma OneRequestPerKeyIff(sanitize: string -> string, actions: seq<Action>)
    ensures |Run(Start(sanitize), actions).table.Keys| <= 1 <==> NeverInsertsBeside(Start(sanitize), actions)
    ensures NeverInsertsBeside(Start(sanitize), actions) ==>
              var w := Run(Start(sanitize), actions);
              forall i, k :: 0 <= i < |w.runs| && 0 <= k < |w.runs| ==> w.runs[i].request == w.runs[k].request
  {
    var w := Run(Start(sanitize), actions);
    OneRowIff(Start(sanitize), actions);
    RunIsFaithful(Start(sanitize), actions);
    if |w.table.Keys| <= 1 {
      forall i, k | 0 <= i < |w.runs| && 0 <= k < |w.runs| ensures w.runs[i].request == w.runs[k].request {
        assert HasRow(w, w.runs[i].request) && HasRow(w, w.runs[k].request);
        OnlyRow(w.table.Keys, w.runs[i].request.aggregate, w.runs[k].request.aggregate);
      }
    }
  }
}
