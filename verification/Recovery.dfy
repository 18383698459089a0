/** What a restarted coordinator does with the children it finds, and why nothing that has ended runs again. */
module Recovery {
  import opened Wrappers
  import opened StateMachine
  import opened ChildStore
  import ChildRuns

  datatype TaskType = Review | Impact | Fix | Verify | OtherType

  datatype ArtifactType = Finding | ImpactReport | PatchCandidate | VerifyEvidence | PatchEvidence | ReviewComment

  datatype ChildRow = ChildRow(
    id: string, taskType: TaskType, status: ChildStatus, attempt: nat, code: StoredCode, maxAttempts: nat)

  datatype NextAction = Noop | StartReview | CreateChildren | FinalizeReview | AwaitChildren | RetryChildren | AskHuman

  datatype Class = Finished | Pending | RetryOnce | Lost

  datatype Plan = Plan(
    completed: seq<string>, pending: seq<string>, retryable: seq<string>, failed: seq<string>,
    missingChildren: seq<TaskType>, missingArtifacts: seq<ArtifactType>, next: NextAction, needsHuman: bool)

  function Required(t: TaskType): Option<ArtifactType> {
    match t
    case Review => Some(Finding)
    case Impact => Some(ImpactReport)
    case Fix => Some(PatchCandidate)
    case Verify => Some(VerifyEvidence)
    case OtherType => None
  }

  /** A child that says it has completed counts as such only with its valid artifact. */
  predicate LacksArtifact(c: ChildRow, validated: set<ArtifactType>) {
    c.status.Completed? && Required(c.taskType).Some? && Required(c.taskType).value !in validated
  }

  function Classify(c: ChildRow, validated: set<ArtifactType>): Class {
    match c.status
    case Completed => if LacksArtifact(c, validated) then Pending else Finished
    case Submitted => Pending
    case Working => Pending
    case InputRequired => Pending
    case ChildFailed => if CanRetryChild(c.status, c.attempt, c.code, c.maxAttempts) then RetryOnce else Lost
    case Canceled => Lost
  }

  /** The ids of a class, in the order of the rows. */
  function Ids(rows: seq<ChildRow>, validated: set<ArtifactType>, kind: Class): seq<string> {
    if rows == [] then []
    else
      var last := rows[|rows| - 1];
      Ids(rows[..|rows| - 1], validated, kind) + if Classify(last, validated) == kind then [last.id] else []
  }

  /** The artifacts that completed children lack, in the order of the rows. */
  function Lacking(rows: seq<ChildRow>, validated: set<ArtifactType>): seq<ArtifactType> {
    if rows == [] then []
    else
      var last := rows[|rows| - 1];
      Lacking(rows[..|rows| - 1], validated) + if LacksArtifact(last, validated) then [Required(last.taskType).value] else []
  }

  predicate HasType(rows: seq<ChildRow>, t: TaskType) {
    exists i :: 0 <= i < |rows| && rows[i].taskType == t
  }

  function MissingChildren(rows: seq<ChildRow>): seq<TaskType> {
    (if HasType(rows, Review) then [] else [Review]) + if HasType(rows, Impact) then [] else [Impact]
  }

  function MissingArtifacts(validated: set<ArtifactType>): seq<ArtifactType> {
    (if Finding in validated then [] else [Finding]) + if ImpactReport in validated then [] else [ImpactReport]
  }

  /** The branch a task in review takes. */
  function ReviewAction(completed: bool, pending: bool, retryable: bool, failed: bool, missingChildren: bool,
                        missingArtifacts: bool): NextAction {
    if failed && !pending && !retryable then AskHuman
    else if missingChildren && !completed then CreateChildren
    else if !missingArtifacts then FinalizeReview
    else if pending || missingChildren then AwaitChildren
    else if retryable then RetryChildren
    else AskHuman
  }

  function PlanOf(status: ParentStatus, rows: seq<ChildRow>, validated: set<ArtifactType>): Plan {
    var completed, pending := Ids(rows, validated, Finished), Ids(rows, validated, Pending);
    var retryable, failed := Ids(rows, validated, RetryOnce), Ids(rows, validated, Lost);
    var missing := MissingArtifacts(validated);
    var children := MissingChildren(rows);
    var next := match status
      case Draft => StartReview
      case Reviewing =>
        ReviewAction(completed != [], pending != [], retryable != [], failed != [], children != [], missing != [])
      case _ => Noop;
    Plan(completed, pending, retryable, failed, children,
         if status == Reviewing then missing else Lacking(rows, validated), next, next == AskHuman)
  }

  method BuildRecoveryPlan(status: ParentStatus, rows: seq<ChildRow>, validated: set<ArtifactType>) returns (plan: Plan)
    ensures plan == PlanOf(status, rows, validated)
  {
    var completed, pending, retryable, failed: seq<string> := [], [], [], [];
    var artifacts: seq<ArtifactType> := [];
    for i := 0 to |rows|
      invariant completed == Ids(rows[..i], validated, Finished) && pending == Ids(rows[..i], validated, Pending)
      invariant retryable == Ids(rows[..i], validated, RetryOnce) && failed == Ids(rows[..i], validated, Lost)
      invariant artifacts == Lacking(rows[..i], validated)
    {
      var c := rows[i];
      RowAdded(rows, validated, i);
      match c.status
      case Completed =>
        if LacksArtifact(c, validated) {
          pending := pending + [c.id];
          artifacts := artifacts + [Required(c.taskType).value];
        } else {
          completed := completed + [c.id];
        }
      case Submitted => pending := pending + [c.id];
      case Working => pending := pending + [c.id];
      case InputRequired => pending := pending + [c.id];
      case ChildFailed =>
        if CanRetryChild(c.status, c.attempt, c.code, c.maxAttempts) {
          retryable := retryable + [c.id];
        } else {
          failed := failed + [c.id];
        }
      case Canceled => failed := failed + [c.id];
    }
    assert rows[..|rows|] == rows;
    var missing, children := MissingArtifacts(validated), MissingChildren(rows);
    if status == Draft {
      return Plan(completed, pending, retryable, failed, children, artifacts, StartReview, false);
    }
    if status != Reviewing {
      return Plan(completed, pending, retryable, failed, children, artifacts, Noop, false);
    }
    var next := ReviewAction(completed != [], pending != [], retryable != [], failed != [], children != [], missing != []);
    plan := Plan(completed, pending, retryable, failed, children, missing, next, next == AskHuman);
  }

  lemma RowAdded(rows: seq<ChildRow>, validated: set<ArtifactType>, i: nat)
    requires i < |rows|
    ensures forall k :: Ids(rows[..i + 1], validated, k)
                        == Ids(rows[..i], validated, k) + if Classify(rows[i], validated) == k then [rows[i].id] else []
    ensures Lacking(rows[..i + 1], validated)
            == Lacking(rows[..i], validated) + if LacksArtifact(rows[i], validated) then [Required(rows[i].taskType).value] else []
  {
    assert rows[..i + 1][..i] == rows[..i];
  }

  // ---- What a plan promises -------------------------------------------------------------------------------------

  lemma {:induction false} ListsPartition(rows: seq<ChildRow>, validated: set<ArtifactType>)
    ensures multiset(Ids(rows, validated, Finished)) + multiset(Ids(rows, validated, Pending))
            + multiset(Ids(rows, validated, RetryOnce)) + multiset(Ids(rows, validated, Lost))
            == multiset(AllIds(rows))
  {
    if rows != [] {
      ListsPartition(rows[..|rows| - 1], validated);
    }
  }

  function AllIds(rows: seq<ChildRow>): seq<string> {
    if rows == [] then [] else AllIds(rows[..|rows| - 1]) + [rows[|rows| - 1].id]
  }

  lemma {:induction false} FinishedAreCompleted(rows: seq<ChildRow>, validated: set<ArtifactType>, id: string)
    requires id in Ids(rows, validated, Finished)
    ensures exists i :: 0 <= i < |rows| && rows[i].id == id && rows[i].status == Completed && !LacksArtifact(rows[i], validated)
  {
    var last := rows[|rows| - 1];
    if !(Classify(last, validated) == Finished && last.id == id) {
      FinishedAreCompleted(rows[..|rows| - 1], validated, id);
      var i :| 0 <= i < |rows| - 1 && rows[..|rows| - 1][i].id == id && rows[..|rows| - 1][i].status == Completed
               && !LacksArtifact(rows[..|rows| - 1][i], validated);
      assert rows[i] == rows[..|rows| - 1][i];
    }
  }

  /** For every task, child table and artifact table: the four lists share the children out among them, a person is
      asked only when nothing is left to wait for or retry, a review is finished only with both artifacts valid, and
      a child counted as completed has completed with its artifact. */
  lemma {:induction false} PlanIsSound(status: ParentStatus, rows: seq<ChildRow>, validated: set<ArtifactType>)
    ensures var p := PlanOf(status, rows, validated);
            && multiset(p.completed) + multiset(p.pending) + multiset(p.retryable) + multiset(p.failed) == multiset(AllIds(rows))
            && (p.needsHuman ==> status == Reviewing && p.pending == [] && p.retryable == [])
            && (p.next == FinalizeReview <==>
                  && status == Reviewing && Finding in validated && ImpactReport in validated
                  && (p.failed == [] || p.pending != [] || p.retryable != [])
                  && (p.missingChildren == [] || p.completed != []))
            && (p.needsHuman && p.failed == [] ==> Finding !in validated || ImpactReport !in validated)
            && (forall id :: id in p.completed ==>
                  exists i :: 0 <= i < |rows| && rows[i].id == id && rows[i].status == Completed && !LacksArtifact(rows[i], validated))
  {
    ListsPartition(rows, validated);
    var p := PlanOf(status, rows, validated);
    forall id | id in p.completed
      ensures exists i :: 0 <= i < |rows| && rows[i].id == id && rows[i].status == Completed && !LacksArtifact(rows[i], validated)
    {
      FinishedAreCompleted(rows, validated, id);
    }
  }

  // ---- When each action is chosen --------------------------------------------------------------------------------

  /** The artifact a task type must leave, if it must leave one, is there and valid. */
  predicate HasItsArtifact(c: ChildRow, validated: set<ArtifactType>) {
    && (c.taskType.Review? ==> Finding in validated) && (c.taskType.Impact? ==> ImpactReport in validated)
    && (c.taskType.Fix? ==> PatchCandidate in validated) && (c.taskType.Verify? ==> VerifyEvidence in validated)
  }

  predicate IsFinished(c: ChildRow, validated: set<ArtifactType>) {
    c.status == Completed && HasItsArtifact(c, validated)
  }

  predicate IsWaitedFor(c: ChildRow, validated: set<ArtifactType>) {
    c.status == Submitted || c.status == Working || c.status == InputRequired || (c.status == Completed && !HasItsArtifact(c, validated))
  }

  predicate IsRetryable(c: ChildRow) {
    c.status == ChildFailed && c.attempt < c.maxAttempts && c.code.Known? && Retryable(c.code.code)
  }

  predicate IsLost(c: ChildRow) {
    c.status == Canceled || (c.status == ChildFailed && !IsRetryable(c))
  }

  predicate InClass(c: ChildRow, validated: set<ArtifactType>, kind: Class) {
    match kind
    case Finished => IsFinished(c, validated)
    case Pending => IsWaitedFor(c, validated)
    case RetryOnce => IsRetryable(c)
    case Lost => IsLost(c)
  }

  lemma ClassOf(c: ChildRow, validated: set<ArtifactType>)
    ensures forall kind :: Classify(c, validated) == kind <==> InClass(c, validated, kind)
  {
  }

  predicate Has(rows: seq<ChildRow>, validated: set<ArtifactType>, kind: Class) {
    exists i :: 0 <= i < |rows| && InClass(rows[i], validated, kind)
  }

  lemma {:induction false} ListedIff(rows: seq<ChildRow>, validated: set<ArtifactType>, kind: Class)
    ensures Ids(rows, validated, kind) != [] <==> Has(rows, validated, kind)
  {
    if rows != [] {
      var front, last := rows[..|rows| - 1], rows[|rows| - 1];
      ListedIff(front, validated, kind);
      ClassOf(last, validated);
      if Has(front, validated, kind) {
        var i :| 0 <= i < |front| && InClass(front[i], validated, kind);
        assert rows[i] == front[i];
      }
      if i :| 0 <= i < |rows| && InClass(rows[i], validated, kind) {
        assert i < |front| ==> front[i] == rows[i];
      }
    }
  }

  /** A child that is beyond help while nothing is waited for or can be retried. */
  predicate Stuck(rows: seq<ChildRow>, validated: set<ArtifactType>) {
    Has(rows, validated, Lost) && !Has(rows, validated, Pending) && !Has(rows, validated, RetryOnce)
  }

  predicate NoneOf(rows: seq<ChildRow>, t: TaskType) {
    forall i :: 0 <= i < |rows| ==> rows[i].taskType != t
  }

  predicate Incomplete(rows: seq<ChildRow>) {
    NoneOf(rows, Review) || NoneOf(rows, Impact)
  }

  predicate Proven(validated: set<ArtifactType>) {
    Finding in validated && ImpactReport in validated
  }

  /** Something is under way, or the one child that is not there yet will be. */
  predicate MustWait(rows: seq<ChildRow>, validated: set<ArtifactType>) {
    if Incomplete(rows) then Has(rows, validated, Finished) else Has(rows, validated, Pending)
  }

  /** Both children are there, nothing is under way, and an artifact is still missing. */
  predicate MayOnlyRetry(rows: seq<ChildRow>, validated: set<ArtifactType>) {
    !Incomplete(rows) && !Proven(validated) && !Has(rows, validated, Pending)
  }

  /** A completed child stands there without the valid artifact its task type owes. */
  predicate Owes(rows: seq<ChildRow>, validated: set<ArtifactType>, a: ArtifactType) {
    a !in validated && exists i :: 0 <= i < |rows| && rows[i].status == Completed && Required(rows[i].taskType) == Some(a)
  }

  lemma {:induction false} LackingIff(rows: seq<ChildRow>, validated: set<ArtifactType>, a: ArtifactType)
    ensures a in Lacking(rows, validated) <==> Owes(rows, validated, a)
  {
    if rows != [] {
      var front, last := rows[..|rows| - 1], rows[|rows| - 1];
      LackingIff(front, validated, a);
      assert forall i :: 0 <= i < |front| ==> front[i] == rows[i];
    }
  }

  /** What the plan lists beside the children: the task types of the review that have no child, the artifacts that are still
      wanted, and whether a person is asked. */
  lemma PlanLists(status: ParentStatus, rows: seq<ChildRow>, validated: set<ArtifactType>, t: TaskType, a: ArtifactType)
    ensures var plan := PlanOf(status, rows, validated);
            && (t in plan.missingChildren <==> (t == Review || t == Impact) && NoneOf(rows, t))
            && (status == Reviewing ==> (a in plan.missingArtifacts <==> (a == Finding || a == ImpactReport) && a !in validated))
            && (status != Reviewing ==> (a in plan.missingArtifacts <==> Owes(rows, validated, a)))
            && (plan.needsHuman <==> plan.next == AskHuman)
  {
    LackingIff(rows, validated, a);
  }

  /** For every child table and artifact table, on the rows themselves: what a task in review is told to do next. Drafts are
      started, and every other status is left to its own phase. */
  lemma NextActionIff(status: ParentStatus, rows: seq<ChildRow>, validated: set<ArtifactType>)
    ensures var next, done := PlanOf(status, rows, validated).next, Has(rows, validated, Finished);
            && (next == StartReview <==> status == Draft)
            && (next == Noop <==> status != Draft && status != Reviewing)
            && (status == Reviewing ==>
                  && (next == CreateChildren <==> !Stuck(rows, validated) && Incomplete(rows) && !done)
                  && (next == FinalizeReview <==> !Stuck(rows, validated) && (Incomplete(rows) ==> done) && Proven(validated))
                  && (next == AwaitChildren <==> !Stuck(rows, validated) && !Proven(validated) && MustWait(rows, validated))
                  && (next == RetryChildren <==> Has(rows, validated, RetryOnce) && MayOnlyRetry(rows, validated))
                  && (next == AskHuman <==> Stuck(rows, validated) || (!Has(rows, validated, RetryOnce) && MayOnlyRetry(rows, validated))))
  {
    forall kind ensures Ids(rows, validated, kind) != [] <==> Has(rows, validated, kind) {
      ListedIff(rows, validated, kind);
    }
  }

  // ---- Nothing that has ended runs again ----------------------------------------------------------------------------

  /** An execution remembers the row it started from: only that read decides whether the handler is called. */
  datatype Execution = Execution(id: ChildId, seen: ChildHistory)

  datatype Invocation = Invocation(execution: Execution)

  datatype World = World(
    store: ChildRuns.System, executing: map<ChildRuns.ActorId, Execution>, invoked: seq<Invocation>)

  datatype Action =
    | Store(step: ChildRuns.Action)              // any read, guard or write of any caller
    | Begin(actor: ChildRuns.ActorId, id: ChildId)
    | Invoke(actor: ChildRuns.ActorId)
    | Restart                                    // every process dies; only what is committed is left

  function Step(w: World, a: Action): World {
    match a
    case Store(step) => w.(store := ChildRuns.Step(w.store, step))
    case Begin(actor, id) =>
      if id in w.store.children && !ChildTerminal(w.store.children[id].row.status)
      then w.(executing := w.executing[actor := Execution(id, w.store.children[id])]) else w
    case Invoke(actor) =>
      if actor in w.executing then w.(invoked := w.invoked + [Invocation(w.executing[actor])]) else w
    case Restart => w.(store := w.store.(callers := map[]), executing := map[])
  }

  function Run(w: World, actions: seq<Action>): World
    decreases |actions|
  {
    if actions == [] then w else Run(Step(w, actions[0]), actions[1..])
  }

  /** The child has ended for good: completed, canceled, or failed with no attempt left. */
  predicate Ended(w: World, id: ChildId) {
    id in w.store.children && ChildRuns.Spent(w.store.children[id].row)
  }

  lemma StepKeepsEnded(w: World, a: Action, id: ChildId)
    requires ChildRuns.Good(w.store) && Ended(w, id)
    ensures ChildRuns.Good(Step(w, a).store) && Ended(Step(w, a), id)
  {
    if a.Store? {
      ChildRuns.StepKeepsGood(w.store, a.step);
      ChildRuns.SpentStays(w.store, a.step, id);
    }
  }

  /** Executions of a child that are under way, and its handler calls from the n-th on, all started before. */
  ghost predicate OnlyOld(w: World, id: ChildId, before: set<Execution>, n: nat) {
    && (forall a :: a in w.executing && w.executing[a].id == id ==> w.executing[a] in before)
    && (forall i :: n <= i < |w.invoked| && w.invoked[i].execution.id == id ==> w.invoked[i].execution in before)
  }

  lemma StepKeepsOld(w: World, a: Action, id: ChildId, before: set<Execution>, n: nat)
    requires Ended(w, id) && OnlyOld(w, id, before, n)
    ensures OnlyOld(Step(w, a), id, before, n)
  {
    var w' := Step(w, a);
    match a
    case Store(_) => assert w'.executing == w.executing && w'.invoked == w.invoked;
    case Begin(actor, c) =>
      assert w'.invoked == w.invoked;
      assert c == id ==> w' == w;
    case Invoke(actor) =>
      assert w'.executing == w.executing;
    case Restart => assert w'.invoked == w.invoked;
  }

  lemma {:induction false} RunKeepsOld(w: World, actions: seq<Action>, id: ChildId, before: set<Execution>, n: nat)
    requires ChildRuns.Good(w.store) && Ended(w, id) && OnlyOld(w, id, before, n)
    ensures OnlyOld(Run(w, actions), id, before, n)
    decreases |actions|
  {
    if actions != [] {
      StepKeepsEnded(w, actions[0], id);
      StepKeepsOld(w, actions[0], id, before, n);
      RunKeepsOld(Step(w, actions[0]), actions[1..], id, before, n);
    }
  }

  function Underway(w: World, id: ChildId): set<Execution> {
    set a | a in w.executing && w.executing[a].id == id :: w.executing[a]
  }

  /** Once a child has ended, whatever is read, written, retried, resumed or restarted afterwards by anyone, its
      handler is called only by executions that were already under way. */
  lemma EndedOnlyFinishesWhatRuns(w: World, actions: seq<Action>, id: ChildId, i: nat)
    requires ChildRuns.Good(w.store) && Ended(w, id)
    requires |w.invoked| <= i < |Run(w, actions).invoked| && Run(w, actions).invoked[i].execution.id == id
    ensures Run(w, actions).invoked[i].execution in Underway(w, id)
  {
    RunKeepsOld(w, actions, id, Underway(w, id), |w.invoked|);
  }

  /** Main result of recovery: after a restart no handler is ever called again for a child that had completed, had
      been canceled or had spent its attempts, over any number of further crashes and recoveries. */
  lemma RestartIsSafe(w: World, actions: seq<Action>, id: ChildId, i: nat)
    requires ChildRuns.Good(w.store) && Ended(w, id)
    requires |w.invoked| <= i < |Run(Step(w, Restart), actions).invoked|
    ensures Run(Step(w, Restart), actions).invoked[i].execution.id != id
  {
    var w' := Step(w, Restart);
    StepKeepsEnded(w, Restart, id);
    RunKeepsOld(w', actions, id, {}, |w.invoked|);
  }
}
