/** The tool registry and the budget of an agent call: policy, parameter check, budget, handler and the execution
    table that answers repeated calls. */
module ToolGate {
  import opened Wrappers
  import opened StateMachine

  datatype Access = Read | Write

  datatype Role = Developer | Approver | Admin | CoordinatorRole | AgentRole | OtherRole

  datatype Policy = Policy(allowed: set<string>, forbidden: set<string>)

  const COORDINATOR: string := "coordinator"

  /** Who calls: approved and humanRole are the two entries of the context that the gate looks at. */
  datatype Context = Context(task: string, agent: string, role: Role, approved: bool, humanRole: bool)

  /** The unique key of the execution table. */
  datatype ExecKey = ExecKey(task: string, agent: string, tool: string, key: string)

  datatype Row = Row(allowed: bool, access: Access, params: string, data: Option<string>, code: Option<ErrorCode>)

  /** A handler returns, raises an error of the program's own kind, or dies of anything else. */
  datatype Outcome = Returned(data: string) | Raised(code: ErrorCode) | Died

  datatype Call = Call(ctx: Context, tool: string, params: string, key: string, valid: bool, outcome: Outcome)

  datatype Answer = Erred(code: ErrorCode) | Crashed | Result(ok: bool, data: string, error: Option<ErrorCode>, replayed: bool)

  // ---- Budget --------------------------------------------------------------------------------------------------

  /** What one handler call is counted as: the tool and its parameters. */
  datatype Signature = Signature(tool: string, params: string)

  datatype Account = Account(
    callsLimit: int, threshold: int, stepsLimit: int, tokensLimit: int,
    callsUsed: nat, steps: nat, tokensUsed: nat, signatures: map<Signature, nat>)

  function Times(a: Account, s: Signature): nat {
    if s in a.signatures then a.signatures[s] else 0
  }

  /** The account after one charge, and the error it raises, if any. */
  function Charge(a: Account, s: Signature): (Account, Option<ErrorCode>) {
    var used := a.(callsUsed := a.callsUsed + 1);
    if used.callsUsed > a.callsLimit then (used, Some(BudgetExceeded))
    else
      var counted := used.(signatures := a.signatures[s := Times(a, s) + 1]);
      if Times(counted, s) >= a.threshold then (counted, Some(ToolLoopDetected)) else (counted, None)
  }

  class Budget {
    const callsLimit: int
    const threshold: int
    const stepsLimit: int
    const tokensLimit: int
    var callsUsed: nat
    var steps: nat
    var tokensUsed: nat
    var signatures: map<Signature, nat>

    constructor (callsLimit: int, threshold: int, stepsLimit: int, tokensLimit: int)
      ensures State() == Account(callsLimit, threshold, stepsLimit, tokensLimit, 0, 0, 0, map[])
    {
      this.callsLimit, this.threshold, this.stepsLimit, this.tokensLimit := callsLimit, threshold, stepsLimit, tokensLimit;
      callsUsed, steps, tokensUsed, signatures := 0, 0, 0, map[];
    }

    function State(): Account
      reads this
    {
      Account(callsLimit, threshold, stepsLimit, tokensLimit, callsUsed, steps, tokensUsed, signatures)
    }

    method ChargeTool(s: Signature) returns (error: Option<ErrorCode>)
      modifies this
      ensures (State(), error) == Charge(old(State()), s)
      ensures callsUsed == old(callsUsed) + 1 && steps == old(steps) && tokensUsed == old(tokensUsed)
      ensures error == Some(BudgetExceeded) <==> old(callsUsed) >= callsLimit
      ensures error == Some(ToolLoopDetected) <==> old(callsUsed) < callsLimit && Times(old(State()), s) + 1 >= threshold
      ensures error == None <==> old(callsUsed) < callsLimit && Times(old(State()), s) + 1 < threshold
      ensures signatures == if old(callsUsed) < callsLimit then old(signatures)[s := Times(old(State()), s) + 1] else old(signatures)
    {
      callsUsed := callsUsed + 1;
      if callsUsed > callsLimit {
        return Some(BudgetExceeded);
      }
      signatures := signatures[s := (if s in signatures then signatures[s] else 0) + 1];
      if signatures[s] >= threshold {
        return Some(ToolLoopDetected);
      }
      error := None;
    }

    method TakeStep() returns (error: Option<ErrorCode>)
      modifies this`steps
      ensures steps == old(steps) + 1
      ensures error == if steps > stepsLimit then Some(StepLimitExceeded) else None
    {
      steps := steps + 1;
      error := if steps > stepsLimit then Some(StepLimitExceeded) else None;
    }

    method ChargeTokens(tokens: int) returns (error: Option<ErrorCode>)
      modifies this`tokensUsed
      ensures tokensUsed == old(tokensUsed) + (if tokens > 0 then tokens else 0)
      ensures error == if tokensUsed > tokensLimit then Some(BudgetExceeded) else None
    {
      tokensUsed := tokensUsed + if tokens > 0 then tokens else 0;
      error := if tokensUsed > tokensLimit then Some(BudgetExceeded) else None;
    }
  }

  // ---- The gate --------------------------------------------------------------------------------------------------

  predicate RoleMay(role: Role, access: Access) {
    role.CoordinatorRole? || (access.Read? && role.AgentRole?)
  }

  /** Deny by default; None lets the call through. */
  function Authorize(ctx: Context, tool: string, access: Access, policies: map<string, Policy>): Option<ErrorCode> {
    if ctx.agent == COORDINATOR then
      if access.Write? && !ctx.approved then Some(Forbidden)
      else if access.Write? && !RoleMay(ctx.role, Write) && !ctx.humanRole then Some(PermissionDenied)
      else None
    else if ctx.agent !in policies then Some(PermissionDenied)
    else if tool in policies[ctx.agent].forbidden || tool !in policies[ctx.agent].allowed then Some(PermissionDenied)
    else if !RoleMay(ctx.role, access) then Some(PermissionDenied)
    else if access.Write? then Some(PermissionDenied)
    else None
  }

  function KeyOf(c: Call): ExecKey {
    ExecKey(c.ctx.task, c.ctx.agent, c.tool, c.key)
  }

  function Denied(access: Access, params: string, code: ErrorCode): Row {
    Row(false, access, params, None, Some(code))
  }

  /** What a call leaves: the table, the account, the answer, and whether the handler ran. */
  datatype Effect = Effect(rows: map<ExecKey, Row>, account: Account, answer: Answer, ran: bool)

  /** The registered tools, the policies of the agents, and what is kept of a result. */
  datatype Setup = Setup(specs: map<string, Access>, policies: map<string, Policy>, sanitize: string -> string)

  function Handled(sanitize: string -> string, rows: map<ExecKey, Row>, account: Account, access: Access, c: Call): Effect {
    match c.outcome
    case Returned(data) =>
      Effect(rows[KeyOf(c) := Row(true, access, c.params, Some(sanitize(data)), None)], account, Result(true, data, None, false), true)
    case Raised(code) => Effect(rows[KeyOf(c) := Row(true, access, c.params, None, Some(code))], account, Erred(code), true)
    case Died => Effect(rows, account, Crashed, true)
  }

  function CallOn(u: Setup, rows: map<ExecKey, Row>, account: Account, c: Call): Effect {
    if c.tool !in u.specs then Effect(rows, account, Erred(PermissionDenied), false)
    else
      var access := u.specs[c.tool];
      if KeyOf(c) in rows then
        var row := rows[KeyOf(c)];
        if row.params != c.params then Effect(rows, account, Erred(IdempotencyConflict), false)
        else Effect(rows, account, Result(row.allowed, if row.data.Some? then row.data.value else "", row.code, true), false)
      else if Authorize(c.ctx, c.tool, access, u.policies).Some? then
        var code := Authorize(c.ctx, c.tool, access, u.policies).value;
        Effect(rows[KeyOf(c) := Denied(access, c.params, code)], account, Erred(code), false)
      else if !c.valid then
        Effect(rows[KeyOf(c) := Denied(access, c.params, InvalidInput)], account, Erred(InvalidInput), false)
      else
        var (charged, error) := Charge(account, Signature(c.tool, c.params));
        if error.Some? then Effect(rows, charged, Erred(error.value), false)
        else Handled(u.sanitize, rows, charged, access, c)
  }

  class ToolRegistry {
    const policies: map<string, Policy>
    const sanitize: string -> string
    var specs: map<string, Access>
    var rows: map<ExecKey, Row>

    constructor (policies: map<string, Policy>, sanitize: string -> string)
      ensures this.policies == policies && this.sanitize == sanitize && specs == map[] && rows == map[]
    {
      this.policies, this.sanitize := policies, sanitize;
      specs, rows := map[], map[];
    }

    method Register(tool: string, access: Access) returns (error: Option<ErrorCode>)
      modifies this`specs
      ensures tool in old(specs) ==> error == Some(InternalError) && specs == old(specs)
      ensures tool !in old(specs) ==> error == None && specs == old(specs)[tool := access]
    {
      if tool in specs {
        return Some(InternalError);
      }
      specs := specs[tool := access];
      error := None;
    }

    method CallTool(budget: Budget, c: Call) returns (answer: Answer)
      modifies this`rows, budget
      ensures var e := CallOn(Setup(specs, policies, sanitize), old(rows), old(budget.State()), c);
              rows == e.rows && budget.State() == e.account && answer == e.answer
    {
      if c.tool !in specs {
        return Erred(PermissionDenied);
      }
      var access := specs[c.tool];
      if KeyOf(c) in rows {
        var row := rows[KeyOf(c)];
        if row.params != c.params {
          return Erred(IdempotencyConflict);
        }
        return Result(row.allowed, if row.data.Some? then row.data.value else "", row.code, true);
      }
      var refusal := Authorize(c.ctx, c.tool, access, policies);
      if refusal.Some? {
        rows := rows[KeyOf(c) := Denied(access, c.params, refusal.value)];
        return Erred(refusal.value);
      }
      if !c.valid {
        rows := rows[KeyOf(c) := Denied(access, c.params, InvalidInput)];
        return Erred(InvalidInput);
      }
      var error := budget.ChargeTool(Signature(c.tool, c.params));
      if error.Some? {
        return Erred(error.value);
      }
      match c.outcome
      case Returned(data) =>
        rows := rows[KeyOf(c) := Row(true, access, c.params, Some(sanitize(data)), None)];
        answer := Result(true, data, None, false);
      case Raised(code) =>
        rows := rows[KeyOf(c) := Row(true, access, c.params, None, Some(code))];
        answer := Erred(code);
      case Died => answer := Crashed;
    }
  }

  // ---- Whole sequences of calls --------------------------------------------------------------------------------------

  /** A handler run: the call, the access of its tool, and the budget it was charged to. */
  datatype HandlerRun = HandlerRun(call: Call, access: Access, budget: string)

  /** The execution table as the caller's session sees it and as it is committed, any number of budgets, and the handler
      runs so far: the first settled ones belong to finished transactions, and the rows of the erased ones were rolled
      back. */
  datatype Gate = Gate(
    setup: Setup, rows: map<ExecKey, Row>, saved: map<ExecKey, Row>, accounts: map<string, Account>,
    runs: seq<HandlerRun>, settled: nat, erased: set<nat>)

  /** A call made with a budget; errors are caught by the caller, who goes on. */
  datatype Request = Request(budget: string, call: Call)

  datatype Act =
    | Open(budget: string, callsLimit: int, threshold: int)
    | Do(request: Request)
    | Commit
    | Rollback

  function Serve(g: Gate, r: Request): Gate {
    if r.budget !in g.accounts then g
    else
      var e := CallOn(g.setup, g.rows, g.accounts[r.budget], r.call);
      var runs := if e.ran then g.runs + [HandlerRun(r.call, g.setup.specs[r.call.tool], r.budget)] else g.runs;
      g.(rows := e.rows, accounts := g.accounts[r.budget := e.account], runs := runs)
  }

  function Between(low: nat, high: nat): (s: set<nat>)
    ensures forall i :: i in s <==> low <= i < high
  {
    if low >= high then {} else Between(low, high - 1) + {high - 1}
  }

  function Step(g: Gate, a: Act): Gate {
    match a
    case Open(budget, calls, threshold) =>
      if budget in g.accounts then g
      else g.(accounts := g.accounts[budget := Account(calls, threshold, 0, 0, 0, 0, 0, map[])])
    case Do(r) => Serve(g, r)
    case Commit => g.(saved := g.rows, settled := |g.runs|)
    case Rollback =>
      g.(rows := g.saved, settled := |g.runs|, erased := g.erased + Between(g.settled, |g.runs|))
  }

  function Run(g: Gate, acts: seq<Act>): Gate
    decreases |acts|
  {
    if acts == [] then g else Run(Step(g, acts[0]), acts[1..])
  }

  function Charged(runs: seq<HandlerRun>, budget: string): nat {
    if runs == [] then 0
    else Charged(runs[..|runs| - 1], budget) + if runs[|runs| - 1].budget == budget then 1 else 0
  }

  function Repeated(runs: seq<HandlerRun>, budget: string, s: Signature): nat {
    if runs == [] then 0
    else
      var last := runs[|runs| - 1];
      Repeated(runs[..|runs| - 1], budget, s)
      + if last.budget == budget && Signature(last.call.tool, last.call.params) == s then 1 else 0
  }

  lemma CountAppend(runs: seq<HandlerRun>, r: HandlerRun, budget: string, s: Signature)
    ensures Charged(runs + [r], budget) == Charged(runs, budget) + if r.budget == budget then 1 else 0
    ensures Repeated(runs + [r], budget, s)
            == Repeated(runs, budget, s) + if r.budget == budget && Signature(r.call.tool, r.call.params) == s then 1 else 0
  {
    assert (runs + [r])[..|runs|] == runs;
  }

  lemma {:induction false} NothingCharged(runs: seq<HandlerRun>, budget: string, s: Signature)
    requires forall i :: 0 <= i < |runs| ==> runs[i].budget != budget
    ensures Charged(runs, budget) == 0 && Repeated(runs, budget, s) == 0
  {
    if runs != [] {
      NothingCharged(runs[..|runs| - 1], budget, s);
    }
  }

  function Max0(n: int): nat {
    if n < 0 then 0 else n
  }

  // ---- Budgets ---------------------------------------------------------------------------------------------------------

  /** No more runs than the budget's limit, and fewer runs of one call than its loop threshold. */
  predicate WithinLimits(runs: seq<HandlerRun>, budget: string, a: Account, s: Signature) {
    Charged(runs, budget) <= Max0(a.callsLimit) && Repeated(runs, budget, s) <= Max0(a.threshold - 1)
  }

  predicate BudgetOk(runs: seq<HandlerRun>, budget: string, a: Account, s: Signature) {
    && WithinLimits(runs, budget, a, s)
    && Charged(runs, budget) <= a.callsUsed && Repeated(runs, budget, s) <= Times(a, s)
  }

  ghost predicate BudgetsOk(g: Gate) {
    && (forall b, s :: b in g.accounts ==> BudgetOk(g.runs, b, g.accounts[b], s))
    && (forall i :: 0 <= i < |g.runs| ==> g.runs[i].budget in g.accounts)
  }

  lemma CallEffect(u: Setup, rows: map<ExecKey, Row>, account: Account, c: Call)
    ensures var e := CallOn(u, rows, account, c);
            && (e.ran ==> c.tool in u.specs && c.valid && KeyOf(c) !in rows && Authorize(c.ctx, c.tool, u.specs[c.tool], u.policies).None?
                          && Charge(account, Signature(c.tool, c.params)).1.None?
                          && e == Handled(u.sanitize, rows, Charge(account, Signature(c.tool, c.params)).0, u.specs[c.tool], c))
            && (!e.ran ==> (e.account == account || e.account == Charge(account, Signature(c.tool, c.params)).0)
                           && (e.rows == rows || (KeyOf(c) !in rows && exists row: Row :: !row.allowed && e.rows == rows[KeyOf(c) := row])))
  {
  }

  lemma ChargeKeepsBudget(runs: seq<HandlerRun>, budget: string, a: Account, t: Signature, s: Signature)
    requires BudgetOk(runs, budget, a, s)
    ensures BudgetOk(runs, budget, Charge(a, t).0, s)
    ensures Charge(a, t).1.None? ==>
              && Charged(runs, budget) + 1 <= Charge(a, t).0.callsUsed && Charged(runs, budget) + 1 <= Max0(a.callsLimit)
              && (s == t ==> Repeated(runs, budget, s) + 1 <= Times(Charge(a, t).0, s)
                             && Repeated(runs, budget, s) + 1 <= Max0(a.threshold - 1))
  {
  }

  lemma OneRunMore(runs: seq<HandlerRun>, run: HandlerRun, b: string, a: Account, s: Signature)
    requires BudgetOk(runs, b, a, s)
    requires Charge(a, Signature(run.call.tool, run.call.params)).1.None?
    ensures BudgetOk(runs + [run], b,
                     if run.budget == b then Charge(a, Signature(run.call.tool, run.call.params)).0 else a, s)
  {
    CountAppend(runs, run, b, s);
    ChargeKeepsBudget(runs, b, a, Signature(run.call.tool, run.call.params), s);
  }

  lemma AnotherBudgetsRun(runs: seq<HandlerRun>, run: HandlerRun, b: string, a: Account, s: Signature)
    requires BudgetOk(runs, b, a, s) && run.budget != b
    ensures BudgetOk(runs + [run], b, a, s)
  {
    CountAppend(runs, run, b, s);
  }

  lemma RanKeepsBudget(runs: seq<HandlerRun>, accounts: map<string, Account>, run: HandlerRun, b: string, s: Signature)
    requires b in accounts && run.budget in accounts && BudgetOk(runs, b, accounts[b], s)
    requires Charge(accounts[run.budget], Signature(run.call.tool, run.call.params)).1.None?
    ensures var charged := Charge(accounts[run.budget], Signature(run.call.tool, run.call.params)).0;
            BudgetOk(runs + [run], b, accounts[run.budget := charged][b], s)
  {
    if b == run.budget {
      OneRunMore(runs, run, b, accounts[b], s);
    } else {
      AnotherBudgetsRun(runs, run, b, accounts[b], s);
    }
  }

  lemma ServeEffect(g: Gate, r: Request)
    requires r.budget in g.accounts
    ensures var e, g' := CallOn(g.setup, g.rows, g.accounts[r.budget], r.call), Serve(g, r);
            && (e.ran ==> r.call.tool in g.setup.specs
                          && Charge(g.accounts[r.budget], Signature(r.call.tool, r.call.params)).1.None?
                          && g'.runs == g.runs + [HandlerRun(r.call, g.setup.specs[r.call.tool], r.budget)])
            && (e.ran ==> g'.accounts == g.accounts[r.budget := Charge(g.accounts[r.budget], Signature(r.call.tool, r.call.params)).0])
            && (!e.ran ==> g'.runs == g.runs && g'.accounts == g.accounts[r.budget := e.account])
            && (!e.ran ==> e.account == g.accounts[r.budget]
                           || e.account == Charge(g.accounts[r.budget], Signature(r.call.tool, r.call.params)).0)
  {
    CallEffect(g.setup, g.rows, g.accounts[r.budget], r.call);
  }

  lemma IdleKeepsBudget(runs: seq<HandlerRun>, accounts: map<string, Account>, b: string, s: Signature,
                        c: string, a: Account, t: Signature)
    requires b in accounts && BudgetOk(runs, b, accounts[b], s) && c in accounts
    requires a == accounts[c] || a == Charge(accounts[c], t).0
    ensures BudgetOk(runs, b, accounts[c := a][b], s)
  {
    if b == c {
      ChargeKeepsBudget(runs, b, accounts[b], t, s);
    }
  }

  lemma ServeKeepsBudget(g: Gate, r: Request, b: string, s: Signature)
    requires BudgetsOk(g) && b in g.accounts
    ensures BudgetOk(Serve(g, r).runs, b, Serve(g, r).accounts[b], s)
  {
    assert BudgetOk(g.runs, b, g.accounts[b], s);
    if r.budget in g.accounts {
      ServeEffect(g, r);
      var e := CallOn(g.setup, g.rows, g.accounts[r.budget], r.call);
      if e.ran {
        RanKeepsBudget(g.runs, g.accounts, HandlerRun(r.call, g.setup.specs[r.call.tool], r.budget), b, s);
      } else {
        IdleKeepsBudget(g.runs, g.accounts, b, s, r.budget, e.account, Signature(r.call.tool, r.call.params));
      }
    }
  }

  lemma OpenKeepsBudget(g: Gate, a: Act, b: string, s: Signature)
    requires BudgetsOk(g) && a.Open? && b in Step(g, a).accounts
    ensures BudgetOk(Step(g, a).runs, b, Step(g, a).accounts[b], s)
  {
    if b in g.accounts {
      assert BudgetOk(g.runs, b, g.accounts[b], s);
    } else {
      NothingCharged(g.runs, b, s);
    }
  }

  lemma StepKeepsBudgets(g: Gate, a: Act)
    requires BudgetsOk(g)
    ensures BudgetsOk(Step(g, a))
  {
    var g' := Step(g, a);
    forall b, s | b in g'.accounts ensures BudgetOk(g'.runs, b, g'.accounts[b], s) {
      match a {
        case Open(_, _, _) => OpenKeepsBudget(g, a, b, s);
        case Do(r) => ServeKeepsBudget(g, r, b, s);
        case _ => assert BudgetOk(g.runs, b, g.accounts[b], s);
      }
    }
    if a.Do? && a.request.budget in g.accounts {
      ServeEffect(g, a.request);
    }
  }

  // ---- The table ---------------------------------------------------------------------------------------------------------

  /** A write was made by the coordinator, with an approved context and a role or a person behind it. */
  predicate WriteOk(r: HandlerRun) {
    r.access.Write? ==>
      r.call.ctx.agent == COORDINATOR && r.call.ctx.approved && (r.call.ctx.role.CoordinatorRole? || r.call.ctx.humanRole)
  }

  /** A run had passed every test but the budget's. */
  predicate RunPassed(u: Setup, r: HandlerRun) {
    && r.call.valid && r.call.tool in u.specs && r.access == u.specs[r.call.tool]
    && Authorize(r.call.ctx, r.call.tool, r.access, u.policies).None?
  }

  /** The row a run left, if it did not die. */
  predicate RunRecorded(sanitize: string -> string, rows: map<ExecKey, Row>, r: HandlerRun) {
    match r.call.outcome
    case Returned(data) =>
      KeyOf(r.call) in rows && rows[KeyOf(r.call)] == Row(true, r.access, r.call.params, Some(sanitize(data)), None)
    case Raised(code) =>
      KeyOf(r.call) in rows && rows[KeyOf(r.call)] == Row(true, r.access, r.call.params, None, Some(code))
    case Died => true
  }

  /** An allowed row was left by a run that did not die. */
  ghost predicate RowExplained(runs: seq<HandlerRun>, k: ExecKey, row: Row) {
    row.allowed ==> exists i :: 0 <= i < |runs| && KeyOf(runs[i].call) == k && !runs[i].call.outcome.Died? && runs[i].access == row.access
  }

  ghost predicate TableExplained(runs: seq<HandlerRun>, rows: map<ExecKey, Row>) {
    forall k :: k in rows ==> RowExplained(runs, k, rows[k])
  }

  /** Later tables keep every row. */
  predicate Keeps(rows: map<ExecKey, Row>, later: map<ExecKey, Row>) {
    forall k :: k in rows ==> k in later && later[k] == rows[k]
  }

  ghost predicate RunsOk(g: Gate) {
    && g.settled <= |g.runs|
    && (forall i :: 0 <= i < |g.runs| ==> RunPassed(g.setup, g.runs[i]))
    && (forall i :: 0 <= i < |g.runs| && i !in g.erased ==> RunRecorded(g.setup.sanitize, g.rows, g.runs[i]))
    && (forall i :: 0 <= i < g.settled && i !in g.erased ==> RunRecorded(g.setup.sanitize, g.saved, g.runs[i]))
    && (forall i, j :: 0 <= i < j < |g.runs| && KeyOf(g.runs[i].call) == KeyOf(g.runs[j].call) ==>
          g.runs[i].call.outcome.Died? || i in g.erased)
  }

  ghost predicate TablesOk(g: Gate) {
    && TableExplained(g.runs, g.rows) && TableExplained(g.runs, g.saved) && Keeps(g.saved, g.rows)
    && (forall i :: i in g.erased ==> i < g.settled)
  }

  ghost predicate Inv(g: Gate) {
    BudgetsOk(g) && TablesOk(g) && RunsOk(g)
  }

  lemma PassedWrites(u: Setup, r: HandlerRun)
    requires RunPassed(u, r)
    ensures WriteOk(r)
  {
  }

  lemma RowsOnlyGrow(g: Gate, r: Request)
    ensures Keeps(g.rows, Serve(g, r).rows) && g.runs <= Serve(g, r).runs
    ensures Serve(g, r) == g.(rows := Serve(g, r).rows, accounts := Serve(g, r).accounts, runs := Serve(g, r).runs)
  {
    if r.budget in g.accounts {
      CallEffect(g.setup, g.rows, g.accounts[r.budget], r.call);
    }
  }

  lemma RecordStays(sanitize: string -> string, rows: map<ExecKey, Row>, later: map<ExecKey, Row>, r: HandlerRun)
    requires Keeps(rows, later) && RunRecorded(sanitize, rows, r)
    ensures RunRecorded(sanitize, later, r)
  {
  }

  lemma ExplanationStays(runs: seq<HandlerRun>, more: seq<HandlerRun>, rows: map<ExecKey, Row>)
    requires TableExplained(runs, rows) && runs <= more
    ensures TableExplained(more, rows)
  {
    forall k | k in rows ensures RowExplained(more, k, rows[k]) {
      assert RowExplained(runs, k, rows[k]);
      if rows[k].allowed {
        var i :| 0 <= i < |runs| && KeyOf(runs[i].call) == k && !runs[i].call.outcome.Died? && runs[i].access == rows[k].access;
        assert more[i] == runs[i];
      }
    }
  }

  /** What a call that ran its handler added. */
  lemma RunAdded(g: Gate, r: Request)
    requires r.budget in g.accounts && CallOn(g.setup, g.rows, g.accounts[r.budget], r.call).ran
    ensures KeyOf(r.call) !in g.rows && r.call.tool in g.setup.specs
    ensures var g', run := Serve(g, r), HandlerRun(r.call, g.setup.specs[r.call.tool], r.budget);
            && g'.runs == g.runs + [run] && RunPassed(g.setup, run) && RunRecorded(g.setup.sanitize, g'.rows, run)
            && (forall k :: k in g'.rows && k != KeyOf(r.call) ==> k in g.rows && g'.rows[k] == g.rows[k])
            && (KeyOf(r.call) in g'.rows ==> !r.call.outcome.Died? && g'.rows[KeyOf(r.call)].access == run.access)
  {
    CallEffect(g.setup, g.rows, g.accounts[r.budget], r.call);
  }

  lemma RanKeepsTables(g: Gate, r: Request)
    requires TablesOk(g) && r.budget in g.accounts && CallOn(g.setup, g.rows, g.accounts[r.budget], r.call).ran
    ensures TablesOk(Serve(g, r))
  {
    var g' := Serve(g, r);
    RunAdded(g, r);
    RowsOnlyGrow(g, r);
    ExplanationStays(g.runs, g'.runs, g.rows);
    ExplanationStays(g.runs, g'.runs, g.saved);
    forall k | k in g'.rows ensures RowExplained(g'.runs, k, g'.rows[k]) {
      if k == KeyOf(r.call) {
        assert KeyOf(g'.runs[|g.runs|].call) == k;
      } else {
        assert RowExplained(g'.runs, k, g.rows[k]);
      }
    }
  }

  lemma RanKeepsRuns(g: Gate, r: Request)
    requires TablesOk(g) && RunsOk(g) && r.budget in g.accounts && CallOn(g.setup, g.rows, g.accounts[r.budget], r.call).ran
    ensures RunsOk(Serve(g, r))
  {
    var g', n := Serve(g, r), |g.runs|;
    RunAdded(g, r);
    RowsOnlyGrow(g, r);
    forall i | 0 <= i < |g'.runs| && i !in g'.erased ensures RunRecorded(g.setup.sanitize, g'.rows, g'.runs[i]) {
      if i < n {
        RecordStays(g.setup.sanitize, g.rows, g'.rows, g.runs[i]);
      }
    }
    forall i, j | 0 <= i < j < |g'.runs| && KeyOf(g'.runs[i].call) == KeyOf(g'.runs[j].call)
      ensures g'.runs[i].call.outcome.Died? || i in g'.erased
    {
      assert g'.runs[i] == g.runs[i] && (j < n ==> g'.runs[j] == g.runs[j]);
      assert i !in g.erased ==> RunRecorded(g.setup.sanitize, g.rows, g.runs[i]);
    }
  }

  lemma IdleKeepsTables(g: Gate, r: Request)
    requires TablesOk(g) && RunsOk(g) && r.budget in g.accounts && !CallOn(g.setup, g.rows, g.accounts[r.budget], r.call).ran
    ensures TablesOk(Serve(g, r)) && RunsOk(Serve(g, r))
  {
    CallEffect(g.setup, g.rows, g.accounts[r.budget], r.call);
    RowsOnlyGrow(g, r);
    var g' := Serve(g, r);
    forall i | 0 <= i < |g.runs| && i !in g.erased ensures RunRecorded(g.setup.sanitize, g'.rows, g.runs[i]) {
      RecordStays(g.setup.sanitize, g.rows, g'.rows, g.runs[i]);
    }
  }

  lemma RollbackKeeps(g: Gate)
    requires TablesOk(g) && RunsOk(g)
    ensures TablesOk(Step(g, Rollback)) && RunsOk(Step(g, Rollback))
  {
  }

  lemma StepKeepsInv(g: Gate, a: Act)
    requires Inv(g)
    ensures Inv(Step(g, a))
  {
    StepKeepsBudgets(g, a);
    match a
    case Open(_, _, _) =>
    case Do(r) =>
      if r.budget in g.accounts {
        if CallOn(g.setup, g.rows, g.accounts[r.budget], r.call).ran {
          RanKeepsTables(g, r);
          RanKeepsRuns(g, r);
        } else {
          IdleKeepsTables(g, r);
        }
      }
    case Commit =>
    case Rollback => RollbackKeeps(g);
  }

  lemma {:induction false} RunKeepsInv(g: Gate, acts: seq<Act>)
    requires Inv(g)
    ensures Inv(Run(g, acts))
    decreases |acts|
  {
    if acts != [] {
      StepKeepsInv(g, acts[0]);
      RunKeepsInv(Step(g, acts[0]), acts[1..]);
    }
  }

  ghost predicate Fresh(g: Gate) {
    g.rows == map[] && g.saved == map[] && g.runs == [] && g.settled == 0 && g.erased == {}
  }

  /** Main result of the gate, over any sequence of calls, commits and rollbacks, whatever errors its callers catch:
      every write was made by the coordinator with an approved context; of the handler runs under one key all but the
      last died or were rolled back; and no budget pays for more runs than its limit, or for as many runs of one call
      as its loop threshold. */
  lemma GateHolds(g: Gate, acts: seq<Act>)
    requires Fresh(g)
    ensures var g' := Run(g, acts);
            && (forall k :: k in g'.rows && g'.rows[k].allowed && g'.rows[k].access.Write? ==>
                  k.agent == COORDINATOR
                  && exists i :: 0 <= i < |g'.runs| && KeyOf(g'.runs[i].call) == k && g'.runs[i].call.ctx.approved)
            && (forall i, j :: 0 <= i < j < |g'.runs| && KeyOf(g'.runs[i].call) == KeyOf(g'.runs[j].call) ==>
                  g'.runs[i].call.outcome.Died? || i in g'.erased)
            && (forall b, s :: b in g'.accounts ==> WithinLimits(g'.runs, b, g'.accounts[b], s))
  {
    RunKeepsInv(g, acts);
    var g' := Run(g, acts);
    forall k | k in g'.rows && g'.rows[k].allowed && g'.rows[k].access.Write?
      ensures k.agent == COORDINATOR
              && exists i :: 0 <= i < |g'.runs| && KeyOf(g'.runs[i].call) == k && g'.runs[i].call.ctx.approved
    {
      assert RowExplained(g'.runs, k, g'.rows[k]);
      var i :| 0 <= i < |g'.runs| && KeyOf(g'.runs[i].call) == k && g'.runs[i].access.Write?;
      PassedWrites(g'.setup, g'.runs[i]);
    }
    forall b, s | b in g'.accounts ensures WithinLimits(g'.runs, b, g'.accounts[b], s) {
      assert BudgetOk(g'.runs, b, g'.accounts[b], s);
    }
  }

  /** What may run at all: the coordinator reads anything, and writes with an approved context and a role or a person behind
      it; any other agent reads what its policy allows and does not forbid, under a role that may read, and never writes. */
  predicate MayRun(policies: map<string, Policy>, ctx: Context, tool: string, access: Access) {
    if ctx.agent == COORDINATOR then access.Read? || (ctx.approved && (ctx.role.CoordinatorRole? || ctx.humanRole))
    else
      && access.Read? && (ctx.role.CoordinatorRole? || ctx.role.AgentRole?)
      && ctx.agent in policies && tool in policies[ctx.agent].allowed && tool !in policies[ctx.agent].forbidden
  }

  /** Over every sequence of calls, commits and rollbacks, whatever is erased: every handler run was of a registered tool
      with valid parameters that its caller may run. */
  lemma EveryRunWasAllowed(g: Gate, acts: seq<Act>, i: nat)
    requires Fresh(g) && i < |Run(g, acts).runs|
    ensures var r := Run(g, acts).runs[i];
            && r.call.valid && r.call.tool in g.setup.specs && r.access == g.setup.specs[r.call.tool]
            && MayRun(g.setup.policies, r.call.ctx, r.call.tool, r.access)
  {
    RunKeepsInv(g, acts);
    SetupStays(g, acts);
    assert RunPassed(Run(g, acts).setup, Run(g, acts).runs[i]);
  }

  /** And nothing else is in the way: a new call of a registered tool with valid parameters is run exactly when its caller
      may run it and the budget pays for it. */
  lemma NewCallRunsIff(u: Setup, rows: map<ExecKey, Row>, account: Account, c: Call)
    requires c.tool in u.specs && KeyOf(c) !in rows && c.valid
    ensures CallOn(u, rows, account, c).ran <==>
            && MayRun(u.policies, c.ctx, c.tool, u.specs[c.tool])
            && account.callsUsed < account.callsLimit && Times(account, Signature(c.tool, c.params)) + 1 < account.threshold
  {
  }

  /** What a call that runs nothing answers and leaves, case by case: an unknown tool, a key on record, a call that is not
      allowed, parameters that are not valid, and a budget that does not pay. */
  lemma RefusalSays(u: Setup, rows: map<ExecKey, Row>, account: Account, c: Call)
    ensures var e, k := CallOn(u, rows, account, c), KeyOf(c);
            && (c.tool !in u.specs ==> e == Effect(rows, account, Erred(PermissionDenied), false))
            && (c.tool in u.specs && k in rows && rows[k].params != c.params ==>
                  e == Effect(rows, account, Erred(IdempotencyConflict), false))
            && (c.tool in u.specs && k in rows && rows[k].params == c.params ==>
                  e == Effect(rows, account, Result(rows[k].allowed, if rows[k].data.Some? then rows[k].data.value else "",
                                                    rows[k].code, true), false))
            && (c.tool in u.specs && k !in rows && !MayRun(u.policies, c.ctx, c.tool, u.specs[c.tool]) ==>
                  var code := if c.ctx.agent == COORDINATOR && !c.ctx.approved then Forbidden else PermissionDenied;
                  e == Effect(rows[k := Row(false, u.specs[c.tool], c.params, None, Some(code))], account, Erred(code), false))
            && (c.tool in u.specs && k !in rows && MayRun(u.policies, c.ctx, c.tool, u.specs[c.tool]) && !c.valid ==>
                  e == Effect(rows[k := Row(false, u.specs[c.tool], c.params, None, Some(InvalidInput))], account,
                              Erred(InvalidInput), false))
            && (c.tool in u.specs && k !in rows && MayRun(u.policies, c.ctx, c.tool, u.specs[c.tool]) && c.valid && !e.ran ==>
                  && e.rows == rows && e.account.callsUsed == account.callsUsed + 1
                  && e.answer == Erred(if account.callsUsed >= account.callsLimit then BudgetExceeded else ToolLoopDetected))
  {
  }

  /** What a call that runs its handler answers and leaves: the row of an allowed call with its result or its error, or
      nothing when the handler dies; it is counted and paid for. */
  lemma RunSays(u: Setup, rows: map<ExecKey, Row>, account: Account, c: Call)
    requires CallOn(u, rows, account, c).ran
    ensures var e, k, s := CallOn(u, rows, account, c), KeyOf(c), Signature(c.tool, c.params);
            && c.tool in u.specs
            && e.account == account.(callsUsed := account.callsUsed + 1, signatures := account.signatures[s := Times(account, s) + 1])
            && match c.outcome
               case Returned(data) =>
                 && e.answer == Result(true, data, None, false)
                 && e.rows == rows[k := Row(true, u.specs[c.tool], c.params, Some(u.sanitize(data)), None)]
               case Raised(code) =>
                 && e.answer == Erred(code) && e.rows == rows[k := Row(true, u.specs[c.tool], c.params, None, Some(code))]
               case Died => e.answer == Crashed && e.rows == rows
  {
  }

  // ---- Exactly when a handler can run again ---------------------------------------------------------------------------------

  lemma {:induction false} SetupStays(g: Gate, acts: seq<Act>)
    ensures Run(g, acts).setup == g.setup
    decreases |acts|
  {
    if acts != [] {
      SetupStays(Step(g, acts[0]), acts[1..]);
    }
  }

  /** Some way to go on runs a handler under this key. */
  ghost predicate CanRun(g: Gate, k: ExecKey) {
    exists acts: seq<Act> :: RunsUnder(g, acts, k)
  }

  ghost predicate RunsUnder(g: Gate, acts: seq<Act>, k: ExecKey) {
    exists j :: |g.runs| <= j < |Run(g, acts).runs| && KeyOf(Run(g, acts).runs[j].call) == k
  }

  /** A committed row stays, in the session and in the table. */
  lemma CommittedStays(g: Gate, a: Act, k: ExecKey)
    requires Inv(g) && k in g.saved
    ensures k in Step(g, a).saved
    ensures g.runs <= Step(g, a).runs
    ensures forall j :: |g.runs| <= j < |Step(g, a).runs| ==> KeyOf(Step(g, a).runs[j].call) != k
  {
    if a.Do? {
      RowsOnlyGrow(g, a.request);
      if a.request.budget in g.accounts && CallOn(g.setup, g.rows, g.accounts[a.request.budget], a.request.call).ran {
        RunAdded(g, a.request);
      }
    }
  }

  lemma {:induction false} NeverAgain(g: Gate, acts: seq<Act>, k: ExecKey)
    requires Inv(g) && k in g.saved
    ensures g.runs <= Run(g, acts).runs
    ensures forall j :: |g.runs| <= j < |Run(g, acts).runs| ==> KeyOf(Run(g, acts).runs[j].call) != k
    decreases |acts|
  {
    if acts != [] {
      var next, end := Step(g, acts[0]), Run(g, acts);
      StepKeepsInv(g, acts[0]);
      CommittedStays(g, acts[0], k);
      NeverAgain(next, acts[1..], k);
      forall j | |g.runs| <= j < |end.runs| ensures KeyOf(end.runs[j].call) != k {
        assert j < |next.runs| ==> end.runs[j] == next.runs[j];
      }
    }
  }

  /** A call that has passed before, made again with a new budget and no row in the way. */
  lemma PassesAgain(g: Gate, r: HandlerRun, b: string)
    requires RunPassed(g.setup, r) && KeyOf(r.call) !in g.rows && b !in g.accounts
    ensures var g' := Step(Step(g, Open(b, 1, 2)), Do(Request(b, r.call)));
            |g'.runs| == |g.runs| + 1 && g'.runs[|g.runs|].call == r.call
  {
    var account := Account(1, 2, 0, 0, 0, 0, 0, map[]);
    assert Charge(account, Signature(r.call.tool, r.call.params)).1.None?;
  }

  lemma RunThree(g: Gate, a: Act, b: Act, c: Act)
    ensures Run(g, [a, b, c]) == Step(Step(Step(g, a), b), c)
  {
    assert [a, b, c][1..] == [b, c] && [b, c][1..] == [c] && |[c][1..]| == 0;
    assert Run(Step(Step(g, a), b), [c]) == Step(Step(Step(g, a), b), c);
    assert Run(Step(g, a), [b, c]) == Run(Step(Step(g, a), b), [c]);
  }

  /** In every reachable state, and for every call whose handler has run: it can run again under its key exactly when
      the execution row is not committed. Committing the row is what protects the key; a rollback takes the protection
      away with the row. */
  lemma RunsAgainIff(g: Gate, i: nat, b: string)
    requires Inv(g) && i < |g.runs| && b !in g.accounts
    ensures CanRun(g, KeyOf(g.runs[i].call)) <==> KeyOf(g.runs[i].call) !in g.saved
  {
    var r := g.runs[i];
    var k := KeyOf(r.call);
    if k in g.saved {
      forall acts: seq<Act> ensures !RunsUnder(g, acts, k) {
        NeverAgain(g, acts, k);
      }
    } else {
      var g1 := Step(g, Rollback);
      var acts := [Rollback, Open(b, 1, 2), Do(Request(b, r.call))];
      PassesAgain(g1, r, b);
      RunThree(g, Rollback, Open(b, 1, 2), Do(Request(b, r.call)));
      assert KeyOf(Run(g, acts).runs[|g.runs|].call) == k;
      assert RunsUnder(g, acts, k);
    }
  }

  /** The merge's write is such a call: the branch is written, the intent that goes with it loses its version race, the
      session is rolled back, and the next merge writes again under the same key. */
  lemma RollbackRunsTwice(g: Gate, c: Call, first: string, second: string) returns (acts: seq<Act>)
    requires Fresh(g) && first != second && first !in g.accounts && second !in g.accounts
    requires RunPassed(g.setup, HandlerRun(c, if c.tool in g.setup.specs then g.setup.specs[c.tool] else Read, first))
    ensures var g' := Run(g, acts);
            |g'.runs| == 2 && g'.runs[0].call == c && g'.runs[1].call == c && g'.erased == {0}
  {
    var write := [Open(first, 1, 2), Do(Request(first, c)), Rollback];
    var again := [Open(second, 1, 2), Do(Request(second, c)), Commit];
    var r := HandlerRun(c, g.setup.specs[c.tool], first);
    PassesAgain(g, r, first);
    RunThree(g, write[0], write[1], write[2]);
    var g1 := Step(Step(Step(g, write[0]), write[1]), Rollback);
    assert g1.rows == map[] && |g1.runs| == 1 && g1.erased == {0} && second !in g1.accounts;
    PassesAgain(g1, r, second);
    RunThree(g1, again[0], again[1], again[2]);
    RunJoin(g, write, again);
    acts := write + again;
  }

  lemma {:induction false} RunJoin(g: Gate, first: seq<Act>, second: seq<Act>)
    ensures Run(g, first + second) == Run(Run(g, first), second)
    decreases |first|
  {
    if first == [] {
      assert first + second == second;
    } else {
      assert (first + second)[0] == first[0] && (first + second)[1..] == first[1..] + second;
      RunJoin(Step(g, first[0]), first[1..], second);
    }
  }

  // ---- Replays ---------------------------------------------------------------------------------------------------------------

  function ReplayOf(outcome: Outcome, sanitize: string -> string): Answer {
    match outcome
    case Returned(data) => Result(true, sanitize(data), None, true)
    case Raised(code) => Result(true, "", Some(code), true)
    case Died => Crashed
  }

  /** A repeated call whose row was not rolled back is answered from the table: ok says that the call had been allowed,
      not that its handler had succeeded, so a failure comes back as ok with its error code. */
  lemma ReplayTellsAllowed(g: Gate, acts: seq<Act>, i: nat, account: Account)
    requires Fresh(g) && i < |Run(g, acts).runs| && i !in Run(g, acts).erased
    requires !Run(g, acts).runs[i].call.outcome.Died?
    ensures var g', c := Run(g, acts), Run(g, acts).runs[i].call;
            CallOn(g.setup, g'.rows, account, c) == Effect(g'.rows, account, ReplayOf(c.outcome, g.setup.sanitize), false)
  {
    RunKeepsInv(g, acts);
    SetupStays(g, acts);
    var g' := Run(g, acts);
    RecordedReplays(g.setup, g'.rows, account, g'.runs[i]);
  }

  lemma RecordedReplays(u: Setup, rows: map<ExecKey, Row>, account: Account, r: HandlerRun)
    requires RunRecorded(u.sanitize, rows, r) && !r.call.outcome.Died? && r.call.tool in u.specs
    ensures CallOn(u, rows, account, r.call) == Effect(rows, account, ReplayOf(r.call.outcome, u.sanitize), false)
  {
  }
}
