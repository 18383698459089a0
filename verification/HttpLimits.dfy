/** Where the tracking's guarantee stops: a status query can complete the child without its artifacts, the agent row
    that the local row notes need not be the one whose completion it took over, and a completed agent row can be
    completed again with more artifacts. */
module HttpLimits {
  import opened Wrappers
  import opened StateMachine
  import opened ChildStore
  import opened HttpInvoker
  import opened HttpTracking
  import ChildRuns

  lemma {:induction false} RunAppend(u: Setup, w: World, first: seq<Action>, second: seq<Action>)
    ensures Run(u, w, first + second) == Run(u, Run(u, w, first), second)
    decreases |first|
  {
    if first == [] {
      assert first + second == second;
    } else {
      assert (first + second)[0] == first[0] && (first + second)[1..] == first[1..] + second;
      RunAppend(u, Step(u, w, first[0]), first[1..], second);
    }
  }

  lemma {:induction false} RunOne(u: Setup, w: World, a: Action)
    ensures Run(u, w, [a]) == Step(u, w, a)
  {
    assert |[a][1..]| == 0;
  }

  lemma {:induction false} RunThree(u: Setup, w: World, a: Action, b: Action, c: Action)
    ensures Run(u, w, [a, b, c]) == Step(u, Step(u, Step(u, w, a), b), c)
  {
    RunAppend(u, w, [a], [b, c]);
    RunAppend(u, Step(u, w, a), [b], [c]);
    RunOne(u, w, a);
    RunOne(u, Step(u, w, a), b);
    RunOne(u, Step(u, Step(u, w, a), b), c);
    assert [a] + [b, c] == [a, b, c] && [b] + [c] == [b, c];
  }

  // ---- Moves with nobody in between -------------------------------------------------------------------------------

  /** The history after a move that nothing stands in the way of. */
  function MovedOn(h: ChildHistory, target: ChildStatus, key: Key, code: StoredCode): ChildHistory {
    Swap(h, ChildRuns.MoveFrom(h.row, target, key, None, code))
  }

  predicate Free(h: ChildHistory, target: ChildStatus, key: Key, code: StoredCode) {
    Guard(h, ChildRuns.MoveFrom(h.row, target, key, None, code)).Go?
  }

  lemma AfterMove(h: ChildHistory, target: ChildStatus, key: Key, code: StoredCode)
    requires Free(h, target, key, code)
    ensures var h' := MovedOn(h, target, key, code);
            && h'.row.status == target && h'.row.code == code
            && h'.row.attempt == h.row.attempt + (if IsRetry(h.row, target) then 1 else 0)
            && forall other :: KeyUsed(h'.log, other) <==> KeyUsed(h.log, other) || other == key
  {
    var h' := MovedOn(h, target, key, code);
    var e := EventOf(ChildRuns.MoveFrom(h.row, target, key, None, code));
    assert h'.log == h.log + [e];
    forall other ensures KeyUsed(h'.log, other) <==> KeyUsed(h.log, other) || other == key {
      KeyUsedAppend(h.log, e, other);
    }
  }

  function Looked(w: World, actor: ActorId, id: ChildId): World
    requires id in w.store.children
  {
    w.(store := w.store.(callers := w.store.callers[actor := ChildRuns.Holding(id, w.store.children[id])]))
  }

  /** Everyone's notes, with one more source if there is one. */
  function Sources(w: World, actor: ActorId, source: Option<Source>): map<ActorId, Source> {
    if source.Some? then w.sources[actor := source.value] else w.sources
  }

  lemma AskGoes(w: World, actor: ActorId, id: ChildId, target: ChildStatus, key: Key, code: StoredCode, source: Option<Source>)
    requires id in w.store.children && Free(w.store.children[id], target, key, code)
    ensures var h := w.store.children[id];
            Asked(Looked(w, actor, id), actor, target, key, code, source)
            == w.(store := ChildRuns.System(w.store.children, w.store.callers[actor :=
                             ChildRuns.Moving(id, h, h, ChildRuns.MoveFrom(h.row, target, key, None, code))]),
                  sources := Sources(w, actor, source))
  {
    var h := w.store.children[id];
    var m := ChildRuns.Moving(id, h, h, ChildRuns.MoveFrom(h.row, target, key, None, code));
    assert w.store.callers[actor := ChildRuns.Holding(id, h)][actor := m] == w.store.callers[actor := m];
  }

  /** What a worker's move files. */
  function ArtifactsAfter(u: Setup, w: World, actor: ActorId, id: ChildId, target: ChildStatus): map<ChildId, seq<Artifact>> {
    if id != u.local && actor in w.products && (target.Completed? || target.ChildFailed?)
    then w.artifacts[id := Filed(Kept(w, id), w.products[actor])] else w.artifacts
  }

  function TakenAfter(u: Setup, w: World, actor: ActorId, id: ChildId, target: ChildStatus, source: Option<Source>): Option<Source> {
    if id == u.local && target.Completed? && actor in Sources(w, actor, source)
    then Some(Sources(w, actor, source)[actor]) else w.taken
  }

  /** The commit of a move that is in hand. */
  lemma CommitGoes(u: Setup, w: World, w2: World, actor: ActorId, id: ChildId, target: ChildStatus, key: Key, code: StoredCode,
                   source: Option<Source>)
    requires id in w.store.children
    requires var h := w.store.children[id];
             w2 == w.(store := ChildRuns.System(w.store.children, w.store.callers[actor :=
                                 ChildRuns.Moving(id, h, h, ChildRuns.MoveFrom(h.row, target, key, None, code))]),
                      sources := Sources(w, actor, source))
    ensures var w' := Step(u, w2, Commit(actor));
            && w'.store.children == w.store.children[id := MovedOn(w.store.children[id], target, key, code)]
            && w' == w.(store := w'.store, sources := Sources(w, actor, source),
                        taken := TakenAfter(u, w, actor, id, target, source),
                        artifacts := ArtifactsAfter(u, w, actor, id, target))
  {
  }

  /** Read, ask and write. */
  lemma Goes(u: Setup, w: World, actor: ActorId, id: ChildId, a: Action, target: ChildStatus, key: Key, code: StoredCode,
             source: Option<Source>)
    returns (w': World)
    requires id in w.store.children && Free(w.store.children[id], target, key, code)
    requires Step(u, Looked(w, actor, id), a) == Asked(Looked(w, actor, id), actor, target, key, code, source)
    ensures w' == Run(u, w, [Look(actor, id), a, Commit(actor)])
    ensures w'.store.children == w.store.children[id := MovedOn(w.store.children[id], target, key, code)]
    ensures w' == w.(store := w'.store, sources := Sources(w, actor, source),
                     taken := TakenAfter(u, w, actor, id, target, source),
                     artifacts := ArtifactsAfter(u, w, actor, id, target))
  {
    var w2 := Asked(Looked(w, actor, id), actor, target, key, code, source);
    AskGoes(w, actor, id, target, key, code, source);
    CommitGoes(u, w, w2, actor, id, target, key, code, source);
    RunThree(u, w, Look(actor, id), a, Commit(actor));
    assert Step(u, w, Look(actor, id)) == Looked(w, actor, id);
    w' := Step(u, w2, Commit(actor));
  }

  /** A coordinator moves the local row anywhere but to COMPLETED. */
  lemma LocalGoes(u: Setup, w: World, actor: ActorId, target: ChildStatus, key: Key, code: StoredCode) returns (w': World)
    requires u.local in w.store.children && !target.Completed? && Free(w.store.children[u.local], target, key, code)
    ensures w' == Run(u, w, [Look(actor, u.local), MoveLocal(actor, target, key, code), Commit(actor)])
    ensures w'.store.children == w.store.children[u.local := MovedOn(w.store.children[u.local], target, key, code)]
    ensures w' == w.(store := w'.store)
  {
    w' := Goes(u, w, actor, u.local, MoveLocal(actor, target, key, code), target, key, code, None);
  }

  /** A worker moves an agent row. */
  lemma RemoteGoes(u: Setup, w: World, actor: ActorId, id: ChildId, target: ChildStatus, key: Key, code: StoredCode)
    returns (w': World)
    requires id in w.store.children && id != u.local && Free(w.store.children[id], target, key, code)
    requires MayMoveRemote(u, Looked(w, actor, id), actor, target)
    ensures w' == Run(u, w, [Look(actor, id), MoveRemote(actor, target, key, code), Commit(actor)])
    ensures w'.store.children == w.store.children[id := MovedOn(w.store.children[id], target, key, code)]
    ensures w' == w.(store := w'.store, artifacts := ArtifactsAfter(u, w, actor, id, target))
  {
    w' := Goes(u, w, actor, id, MoveRemote(actor, target, key, code), target, key, code, None);
  }

  /** Submit, get the answer and note the agent row. */
  lemma SubmitGoes(u: Setup, w: World, actor: ActorId, newId: ChildId) returns (w': World)
    requires u.local in w.store.children && !ChildTerminal(w.store.children[u.local].row.status)
    requires newId !in w.store.children && KeyFor(u.base, w.store.children[u.local].row.attempt) !in w.keys
    ensures w' == Run(u, w, [Look(actor, u.local), Submit(actor, newId, false, 0), NoteRemote(actor)])
    ensures w'.store.children == w.store.children[newId := Copy(w.store.children[u.local].row, u.agent)]
    ensures w' == w.(store := w'.store, answers := w'.answers, remoteId := Some(newId), remotes := w.remotes + {newId},
                     keys := w.keys[KeyFor(u.base, w.store.children[u.local].row.attempt) := newId])
  {
    var w1 := Looked(w, actor, u.local);
    var w2 := Answered(Created(u, w1, KeyFor(u.base, w.store.children[u.local].row.attempt), w.store.children[u.local].row, newId),
                       actor, newId, 0, false);
    RunThree(u, w, Look(actor, u.local), Submit(actor, newId, false, 0), NoteRemote(actor));
    assert Step(u, w, Look(actor, u.local)) == w1;
    assert Step(u, w1, Submit(actor, newId, false, 0)) == w2;
    w' := Step(u, w2, NoteRemote(actor));
  }

  // ---- Stages -----------------------------------------------------------------------------------------------------

  /** A child whose agent must produce these. */
  function Plain(required: seq<string>): Setup {
    Setup(AgentPolicy(required, {}), "key", "local", "agent")
  }

  predicate IsAt(w: World, id: ChildId, status: ChildStatus, attempt: nat) {
    id in w.store.children && w.store.children[id].row.status == status && w.store.children[id].row.attempt == attempt
  }

  /** A worker begins an agent row, and its handler returns. */
  lemma WorkerBegins(u: Setup, w: World, worker: ActorId, id: ChildId, items: seq<Artifact>) returns (w': World)
    requires id in w.remotes && id in w.store.children && !ChildTerminal(w.store.children[id].row.status)
    ensures w' == Run(u, w, [Begin(worker, id)] + [Produce(worker, items)])
    ensures w' == w.(workers := w.workers[worker := id], products := w.products[worker := items])
  {
    var w1 := Step(u, w, Begin(worker, id));
    RunOne(u, w, Begin(worker, id));
    RunOne(u, w1, Produce(worker, items));
    RunAppend(u, w, [Begin(worker, id)], [Produce(worker, items)]);
    w' := Step(u, w1, Produce(worker, items));
  }

  /** A worker completes a row it has begun and that is at work or completed, filing what its handler returned. */
  lemma WorkerFinishes(u: Setup, w: World, worker: ActorId, id: ChildId, key: Key) returns (w': World)
    requires id in w.store.children && id != u.local && worker in w.products && worker in w.workers && w.workers[worker] == id
    requires var h := w.store.children[id]; (h.row.status.Working? || h.row.status.Completed?) && !KeyUsed(h.log, key)
    ensures w' == Run(u, w, [Look(worker, id), MoveRemote(worker, Completed, key, NoCode), Commit(worker)])
    ensures w'.store.children == w.store.children[id := MovedOn(w.store.children[id], Completed, key, NoCode)]
    ensures w' == w.(store := w'.store, artifacts := w.artifacts[id := Filed(Kept(w, id), w.products[worker])])
    ensures IsDone(w', id)
    ensures forall other :: KeyUsed(w'.store.children[id].log, other) <==> KeyUsed(w.store.children[id].log, other) || other == key
  {
    AfterMove(w.store.children[id], Completed, key, NoCode);
    w' := RemoteGoes(u, w, worker, id, Completed, key, NoCode);
  }

  /** A worker takes a fresh row to work. */
  lemma WorkerStarts(u: Setup, w: World, worker: ActorId, id: ChildId, key: Key) returns (w': World)
    requires id in w.store.children && id != u.local
    requires w.store.children[id].row.status == Submitted && w.store.children[id].log == []
    ensures w' == Run(u, w, [Look(worker, id), MoveRemote(worker, Working, key, NoCode), Commit(worker)])
    ensures id in w'.store.children && w'.store.children == w.store.children[id := w'.store.children[id]]
    ensures w' == w.(store := w'.store) && w'.store.children[id].row.status == Working
    ensures forall other :: KeyUsed(w'.store.children[id].log, other) <==> other == key
  {
    w' := RemoteGoes(u, w, worker, id, Working, key, NoCode);
    AfterMove(w.store.children[id], Working, key, NoCode);
  }

  /** The first coordinator submits the child, and its agent row is there. */
  lemma FirstSubmission(required: seq<string>) returns (actions: seq<Action>, w: World)
    ensures var u := Plain(required);
            && w == Run(u, Start(u), actions)
            && w == Start(u).(store := w.store, answers := w.answers, remoteId := Some("first"), remotes := {"first"},
                              keys := map["key" := "first"])
            && w.store.children == Start(u).store.children["first" := Copy(Start(u).store.children["local"].row, "agent")]
  {
    var u := Plain(required);
    w := SubmitGoes(u, Start(u), "a", "first");
    actions := [Look("a", u.local), Submit("a", "first", false, 0), NoteRemote("a")];
  }

  predicate LocalIs(w: World, status: ChildStatus, attempt: nat, free: Key) {
    IsAt(w, "local", status, attempt) && !KeyUsed(w.store.children["local"].log, free)
  }

  /** A coordinator gives the first attempt up and retries. */
  lemma Retries(u: Setup, w: World, actor: ActorId) returns (actions: seq<Action>, w': World)
    requires u.local in w.store.children
    requires var h := w.store.children[u.local]; h.row.status == Submitted && h.row.attempt == 1 && h.log == []
    ensures w' == Run(u, w, actions) && w' == w.(store := w'.store)
    ensures u.local in w'.store.children && w'.store.children == w.store.children[u.local := w'.store.children[u.local]]
    ensures var h := w'.store.children[u.local]; h.row.status == Working && h.row.attempt == 2 && !KeyUsed(h.log, "k5")
  {
    var w1 := LocalGoes(u, w, actor, ChildFailed, "k3", Known(TaskTimeout));
    AfterMove(w.store.children[u.local], ChildFailed, "k3", Known(TaskTimeout));
    w' := LocalGoes(u, w1, actor, Working, "k4", NoCode);
    AfterMove(w1.store.children[u.local], Working, "k4", NoCode);
    var giveUp := [Look(actor, u.local), MoveLocal(actor, ChildFailed, "k3", Known(TaskTimeout)), Commit(actor)];
    var retry := [Look(actor, u.local), MoveLocal(actor, Working, "k4", NoCode), Commit(actor)];
    RunAppend(u, w, giveUp, retry);
    actions := giveUp + retry;
  }

  lemma SecondKeyIsFree()
    ensures KeyFor("key", 2) != "key"
  {
    assert |KeyFor("key", 2)| > 3;
  }

  // ---- A completion without artifacts --------------------------------------------------------------------------------

  /** The first attempt is given up; the second one is submitted, and its agent row is at work. */
  lemma SecondAttempt(required: seq<string>) returns (actions: seq<Action>, w: World)
    ensures var u := Plain(required);
            && w == Run(u, Start(u), actions) && w.remotes == {"first", "second"} && w.remoteId == Some("second")
            && w.artifacts == map[] && w.taken.None? && w.store.children.Keys == {"local", "first", "second"}
            && LocalIs(w, Working, 2, "k5") && IsAt(w, "second", Working, 2) && w.store.children["second"].log == []
            && !IsDone(w, "first")
  {
    var u := Plain(required);
    var submit, w1 := FirstSubmission(required);
    var retry, w2 := Retries(u, w1, "a");
    SecondKeyIsFree();
    w := SubmitGoes(u, w2, "a", "second");
    var again := [Look("a", u.local), Submit("a", "second", false, 0), NoteRemote("a")];
    RunAppend(u, Start(u), submit, retry);
    RunAppend(u, Start(u), submit + retry, again);
    actions := submit + retry + again;
  }

  lemma FiledNone(have: seq<Artifact>)
    ensures Filed(have, []) == have
  {
  }

  /** A worker completes the second agent row and files nothing. */
  lemma SecondRowCompletesEmpty(u: Setup, w: World) returns (actions: seq<Action>, w': World)
    requires u.local == "local" && "second" in w.remotes && IsAt(w, "second", Working, 2) && w.store.children["second"].log == []
    ensures w' == Run(u, w, actions) && IsDone(w', "second")
    ensures w' == w.(store := w'.store, artifacts := w'.artifacts, workers := w'.workers, products := w'.products)
    ensures w'.store.children == w.store.children["second" := w'.store.children["second"]]
    ensures forall id :: Kept(w', id) == Kept(w, id)
  {
    FiledNone(Kept(w, "second"));
    var begin := [Begin("w", "second")] + [Produce("w", [])];
    var finish := [Look("w", "second"), MoveRemote("w", Completed, "k6", NoCode), Commit("w")];
    var w1 := WorkerBegins(u, w, "w", "second", []);
    w' := WorkerFinishes(u, w1, "w", "second", "k6");
    RunAppend(u, w, begin, finish);
    actions := begin + finish;
  }

  /** Another coordinator asks for the status of the agent row the local row notes, and applies it. */
  lemma StatusApplied(u: Setup, w: World, id: ChildId) returns (actions: seq<Action>, w': World)
    requires u.local == "local" && id in w.remotes && IsDone(w, id) && LocalIs(w, Working, 2, "k5")
    ensures w' == Run(u, w, actions) && IsDone(w', "local") && w'.taken == Some(Told(id))
    ensures w'.artifacts == w.artifacts && w'.remotes == w.remotes && w'.remoteId == w.remoteId
  {
    var w1 := Step(u, w, Poll("b", id));
    RunOne(u, w, Poll("b", id));
    var a := ApplyStatus("b", false, "k5");
    w' := Goes(u, w1, "b", "local", a, Completed, "k5", NoCode, Some(Told(id)));
    RunAppend(u, w, [Poll("b", id)], [Look("b", "local"), a, Commit("b")]);
    actions := [Poll("b", id)] + [Look("b", "local"), a, Commit("b")];
  }

  lemma NothingIsNoDelivery(u: Setup, w: World, id: ChildId)
    requires u.policy.required != [] && Kept(w, id) == []
    ensures !Delivered(u, w, id)
  {
    forall n: nat | n <= |Kept(w, id)| ensures !AcceptableUpTo(u, w, id, n) {
      assert !Produced(Kept(w, id)[..n], u.policy.required[0]);
    }
  }

  /** Two coordinators work on the child. One gives its first attempt up, retries and submits again; the new agent row
      completes without the artifact it must produce; the other one, still at the first failure, asks for the status
      before it would retry, and applies what it is told. The child is completed and nothing was delivered. */
  lemma StatusQueryCompletesUndelivered(kind: string) returns (actions: seq<Action>)
    ensures var u := Plain([kind]);
            var w := Run(u, Start(u), actions);
            && IsDone(w, "local") && w.taken == Some(Told("second")) && w.remoteId == Some("second")
            && (forall id :: !Delivered(u, w, id)) && !NeverAppliesUndelivered(u, Start(u), actions)
  {
    var u := Plain([kind]);
    var before, w1 := SecondAttempt([kind]);
    var work, w2 := SecondRowCompletesEmpty(u, w1);
    var told, w3 := StatusApplied(u, w2, "second");
    RunAppend(u, Start(u), before, work);
    RunAppend(u, Start(u), before + work, told);
    actions := before + work + told;
    forall id ensures !Delivered(u, w3, id) {
      assert Kept(w3, id) == Kept(w2, id) == Kept(w1, id);
      NothingIsNoDelivery(u, w3, id);
    }
    DeliveredIff(u, actions);
    LastDelivery(u, Start(u), actions);
  }

  lemma {:induction false} LastDelivery(u: Setup, w: World, actions: seq<Action>)
    ensures AlwaysHasDelivery(u, w, actions) ==> HasDelivery(u, Run(u, w, actions))
    decreases |actions|
  {
    if actions != [] {
      LastDelivery(u, Step(u, w, actions[0]), actions[1..]);
    }
  }

  // ---- A completed row is completed again -------------------------------------------------------------------------------

  /** Two workers have begun one agent row; the second to finish lands on a completed row and files its artifact too. */
  lemma CompletedRowFilesMore(first: Artifact, second: Artifact) returns (before: seq<Action>, after: seq<Action>)
    requires first.content != second.content
    ensures var u := Plain([]);
            var w, w' := Run(u, Start(u), before), Run(u, Start(u), before + after);
            && IsDone(w, "first") && Kept(w, "first") == [first]
            && IsDone(w', "first") && Kept(w', "first") == [first, second]
  {
    var u := Plain([]);
    var submit, w1 := FirstSubmission([]);
    var begins, w2 := BothBegin(u, w1, first, second);
    var finish, w3 := FirstFinishes(u, w2, [first]);
    FiledOne([], first);
    FiledOne([first], second);
    var h := w3.store.children["first"];
    after := [Look("v", "first"), MoveRemote("v", Completed, "k7", NoCode), Commit("v")];
    var w4 := WorkerFinishes(u, w3, "v", "first", "k7");
    RunAppend(u, Start(u), submit, begins);
    RunAppend(u, Start(u), submit + begins, finish);
    before := submit + begins + finish;
    RunAppend(u, Start(u), before, after);
  }

  lemma FiledOne(have: seq<Artifact>, item: Artifact)
    requires !Stored(have, item)
    ensures Filed(have, [item]) == have + [item]
  {
    assert |[item][1..]| == 0;
  }

  lemma BothBegin(u: Setup, w: World, first: Artifact, second: Artifact) returns (actions: seq<Action>, w': World)
    requires "first" in w.remotes && IsAt(w, "first", Submitted, 1)
    ensures w' == Run(u, w, actions)
    ensures w' == w.(workers := w.workers["w" := "first"]["v" := "first"], products := w.products["w" := [first]]["v" := [second]])
  {
    var w1 := WorkerBegins(u, w, "w", "first", [first]);
    w' := WorkerBegins(u, w1, "v", "first", [second]);
    var a, b := [Begin("w", "first")] + [Produce("w", [first])], [Begin("v", "first")] + [Produce("v", [second])];
    RunAppend(u, w, a, b);
    actions := a + b;
  }

  lemma FirstFinishes(u: Setup, w: World, items: seq<Artifact>) returns (actions: seq<Action>, w': World)
    requires u.local == "local" && IsAt(w, "first", Submitted, 1) && w.store.children["first"].log == []
    requires "w" in w.products && w.products["w"] == items && "w" in w.workers && w.workers["w"] == "first"
    ensures w' == Run(u, w, actions) && IsDone(w', "first") && !KeyUsed(w'.store.children["first"].log, "k7")
    ensures w' == w.(store := w'.store, artifacts := w.artifacts["first" := Filed(Kept(w, "first"), items)])
    ensures w'.store.children == w.store.children["first" := w'.store.children["first"]]
  {
    var w1 := WorkerStarts(u, w, "w", "first", "k1");
    w' := WorkerFinishes(u, w1, "w", "first", "k2");
    var start := [Look("w", "first"), MoveRemote("w", Working, "k1", NoCode), Commit("w")];
    var finish := [Look("w", "first"), MoveRemote("w", Completed, "k2", NoCode), Commit("w")];
    RunAppend(u, w, start, finish);
    actions := start + finish;
  }

  // ---- The noted row lags ---------------------------------------------------------------------------------------------------

  /** The first agent row completes, and the actor that submitted it is told so. */
  lemma FirstRowCompletes() returns (actions: seq<Action>, w: World)
    ensures var u := Plain([]);
            && w == Run(u, Start(u), actions)
            && w.store.children.Keys == {"local", "first"} && w.store.children["local"] == Start(u).store.children["local"]
            && w.keys == map["key" := "first"] && w.remotes == {"first"} && IsDone(w, "first")
            && w.snapshots == map["a" := Snapshot("first", Completed, [])]
  {
    var u := Plain([]);
    var submit, w1 := FirstSubmission([]);
    var work, w2 := FirstRowCompletesEmpty(u, w1);
    w := Step(u, w2, Poll("a", "first"));
    RunOne(u, w2, Poll("a", "first"));
    RunAppend(u, Start(u), submit, work);
    RunAppend(u, Start(u), submit + work, [Poll("a", "first")]);
    actions := submit + work + [Poll("a", "first")];
  }

  lemma FirstRowCompletesEmpty(u: Setup, w: World) returns (actions: seq<Action>, w': World)
    requires u.local == "local" && "first" in w.remotes && IsAt(w, "first", Submitted, 1) && w.store.children["first"].log == []
    requires w.artifacts == map[]
    ensures w' == Run(u, w, actions) && IsDone(w', "first") && Kept(w', "first") == []
    ensures w' == w.(store := w'.store, artifacts := w'.artifacts, workers := w'.workers, products := w'.products)
    ensures w'.store.children == w.store.children["first" := w'.store.children["first"]]
  {
    var begin := [Begin("w", "first")] + [Produce("w", [])];
    var w1 := WorkerBegins(u, w, "w", "first", []);
    var finish, w2 := FirstFinishes(u, w1, []);
    FiledNone([]);
    RunAppend(u, w, begin, finish);
    actions, w' := begin + finish, w2;
  }

  /** The second coordinator notes a second agent row, and then the first one completes the child. */
  lemma NotesThenCompletes(u: Setup, w: World) returns (actions: seq<Action>, w': World)
    requires u.local == "local" && u.base == "key" && LocalIs(w, Working, 2, "k5") && "second" !in w.store.children
    requires KeyFor("key", 2) !in w.keys && MayComplete(u, w, "a") && w.taken.None?
    ensures w' == Run(u, w, actions)
    ensures IsDone(w', "local") && w'.remoteId == Some("second") && "second" in w'.remotes && !IsDone(w', "second")
    ensures w'.taken == Some(Ingested(w.snapshots["a"].remote))
  {
    var w1 := SubmitGoes(u, w, "b", "second");
    var a := MoveLocal("a", Completed, "k5", NoCode);
    w' := Goes(u, w1, "a", "local", a, Completed, "k5", NoCode, Some(Ingested(w.snapshots["a"].remote)));
    var submit := [Look("b", u.local), Submit("b", "second", false, 0), NoteRemote("b")];
    var finish := [Look("a", "local"), a, Commit("a")];
    RunAppend(u, w, submit, finish);
    actions := submit + finish;
  }

  /** After one agent row has completed, another coordinator gives the first attempt up, retries and notes a second
      agent row; then the first coordinator takes its completion over. The child is completed, and the row it notes is
      not. */
  lemma NotedRowMayLag() returns (actions: seq<Action>)
    ensures var w := Run(Plain([]), Start(Plain([])), actions);
            && IsDone(w, "local") && w.taken == Some(Ingested("first"))
            && w.remoteId == Some("second") && "second" in w.remotes && !IsDone(w, "second")
            && !NeverPartsFromSource(Plain([]), Start(Plain([])), actions)
  {
    var u := Plain([]);
    var before, w0 := FirstRowCompletes();
    var retries, w1 := Retries(u, w0, "b");
    SecondKeyIsFree();
    TrackedTaken(u, before + retries);
    RunAppend(u, Start(u), before, retries);
    var completes, w2 := NotesThenCompletes(u, w1);
    RunAppend(u, Start(u), before + retries, completes);
    actions := before + retries + completes;
    NotedRowIsSourceIff(u, actions);
    if AlwaysNotesItsSource(u, Start(u), actions) {
      LastNote(u, Start(u), actions);
    }
  }

  /** What holds at every moment holds at the last. */
  lemma {:induction false} LastNote(u: Setup, w: World, actions: seq<Action>)
    requires AlwaysNotesItsSource(u, w, actions)
    ensures NotesItsSource(u, Run(u, w, actions))
    decreases |actions|
  {
    if actions != [] {
      LastNote(u, Step(u, w, actions[0]), actions[1..]);
    }
  }

  lemma TrackedTaken(u: Setup, actions: seq<Action>)
    ensures var w := Run(u, Start(u), actions); IsDone(w, u.local) <==> w.taken.Some?
  {
    TrackingIsSafe(u, actions);
  }
}
