/** One child task tracked over HTTP: a local row, agent rows created by idempotent submissions whose answers can get
    lost, and any number of coordinators, agent workers and restarts at work on them. */
module HttpTracking {
  import opened Wrappers
  import opened StateMachine
  import opened ChildStore
  import opened HttpInvoker
  import ChildRuns
  import Decimal

  type ActorId = string

  /** The child: its row's id, the key of its submission, its agent and what that agent must produce. */
  datatype Setup = Setup(policy: AgentPolicy, base: Key, local: ChildId, agent: string)

  /** An agent's answer to a status query. */
  datatype Snapshot = Snapshot(remote: ChildId, status: ChildStatus, artifacts: seq<Artifact>)

  /** A bare status of an agent row, as the answer to a submission carries it. */
  datatype Report = Report(remote: ChildId, status: ChildStatus)

  /** What a local completion goes back to: an agent row whose artifacts were taken in, or one that merely said that
      it had completed. */
  datatype Source = Ingested(remote: ChildId) | Told(remote: ChildId)

  datatype World = World(
    store: ChildRuns.System,                // the local row and the agent's rows, with everyone who reads or moves them
    keys: map<Key, ChildId>,                // the agent's table of submissions
    remotes: set<ChildId>,                  // the agent's rows
    artifacts: map<ChildId, seq<Artifact>>, // the agent's table of artifacts
    remoteId: Option<ChildId>,              // the local row's note of the agent row
    answers: map<ActorId, Report>,          // the last submission answered to each actor
    snapshots: map<ActorId, Snapshot>,      // the last status query answered to each actor
    sources: map<ActorId, Source>,          // the completion each actor asks to take over
    taken: Option<Source>,                  // the completion the local row took over
    workers: map<ActorId, ChildId>,         // the agent row each worker has begun
    products: map<ActorId, seq<Artifact>>)  // what the handler of each worker returned

  datatype Action =
    | Look(actor: ActorId, id: ChildId)
    | Submit(actor: ActorId, newId: ChildId, lost: bool, at: nat)
    | NoteRemote(actor: ActorId)
    | Poll(actor: ActorId, id: ChildId)
    | ApplyStatus(actor: ActorId, submission: bool, key: Key)
    | MoveLocal(actor: ActorId, target: ChildStatus, key: Key, code: StoredCode)
    | Begin(actor: ActorId, id: ChildId)
    | Produce(actor: ActorId, items: seq<Artifact>)
    | MoveRemote(actor: ActorId, target: ChildStatus, key: Key, code: StoredCode)
    | Commit(actor: ActorId)
    | Crash(actor: ActorId)

  /** A second attempt submits under a key of its own. */
  function KeyFor(base: Key, attempt: nat): Key {
    if attempt > 1 then base + ":r" + Decimal.Print(attempt) else base
  }

  predicate Holds(w: World, actor: ActorId) {
    actor in w.store.callers && w.store.callers[actor].Holding?
  }

  predicate HoldsLocal(u: Setup, w: World, actor: ActorId) {
    Holds(w, actor) && w.store.callers[actor].id == u.local
  }

  function SeenStatus(w: World, actor: ActorId): ChildStatus
    requires Holds(w, actor)
  {
    w.store.callers[actor].seen.row.status
  }

  // ---- Submission ---------------------------------------------------------------------------------------------------

  /** The agent's row starts as a copy of the local one. */
  function Copy(seen: Child, agent: string): ChildHistory {
    var row := Child(seen.status, seen.version, seen.attempt, NoCode, agent);
    ChildHistory(row, row, [])
  }

  function Created(u: Setup, w: World, key: Key, seen: Child, newId: ChildId): World {
    w.(keys := w.keys[key := newId], remotes := w.remotes + {newId},
       store := w.store.(children := w.store.children[newId := Copy(seen, u.agent)]))
  }

  /** The status a row had after the first n events of its log. */
  function StatusAt(h: ChildHistory, n: nat): ChildStatus {
    ChildRuns.RowAt(h, if n < |h.log| then n else |h.log|).status
  }

  /** A repeated submission is answered with a status the row has now or had when it was first answered. */
  function Answered(w: World, actor: ActorId, id: ChildId, at: nat, lost: bool): World {
    if lost || id !in w.store.children then w
    else w.(answers := w.answers[actor := Report(id, StatusAt(w.store.children[id], at))])
  }

  function DoSubmit(u: Setup, w: World, actor: ActorId, seen: Child, newId: ChildId, lost: bool, at: nat): World {
    var key := KeyFor(u.base, seen.attempt);
    if key in w.keys then Answered(w, actor, w.keys[key], at, lost)
    else if newId in w.store.children then w
    else Answered(Created(u, w, key, seen, newId), actor, newId, at, lost)
  }

  // ---- The local row --------------------------------------------------------------------------------------------------

  /** Taking a completion over with its artifacts: the snapshot is of a completed row and all of it is in order. */
  predicate MayComplete(u: Setup, w: World, actor: ActorId) {
    actor in w.snapshots && w.snapshots[actor].status.Completed?
    && Acceptable(u.policy, u.local, w.snapshots[actor].remote, w.snapshots[actor].artifacts)
  }

  /** The status an actor was last told, by the answer to a submission or to a query. */
  function LastReport(w: World, actor: ActorId, submission: bool): Option<Report> {
    if submission then (if actor in w.answers then Some(w.answers[actor]) else None)
    else if actor in w.snapshots then Some(Report(w.snapshots[actor].remote, w.snapshots[actor].status))
    else None
  }

  function Asked(w: World, actor: ActorId, target: ChildStatus, key: Key, code: StoredCode, source: Option<Source>): World {
    w.(store := ChildRuns.Step(w.store, ChildRuns.Ask(actor, target, key, None, code)),
       sources := if source.Some? then w.sources[actor := source.value] else w.sources)
  }

  /** The local row follows a bare status along an edge of the table; nobody looks at artifacts. */
  function DoApply(u: Setup, w: World, actor: ActorId, r: Report, key: Key): World
    requires Holds(w, actor)
  {
    if ChildTerminal(SeenStatus(w, actor)) || r.status.Submitted? || r.status == SeenStatus(w, actor)
       || !CanTransitionChild(SeenStatus(w, actor), r.status)
    then w else Asked(w, actor, r.status, key, NoCode, Some(Told(r.remote)))
  }

  function DoMoveLocal(u: Setup, w: World, actor: ActorId, target: ChildStatus, key: Key, code: StoredCode): World
    requires Holds(w, actor)
  {
    if !target.Completed? then Asked(w, actor, target, key, code, None)
    else if MayComplete(u, w, actor) && !SeenStatus(w, actor).Completed?
    then Asked(w, actor, target, key, code, Some(Ingested(w.snapshots[actor].remote)))
    else w
  }

  // ---- The agent's rows -------------------------------------------------------------------------------------------------

  function Kept(w: World, id: ChildId): seq<Artifact> {
    if id in w.artifacts then w.artifacts[id] else []
  }

  predicate Stored(have: seq<Artifact>, item: Artifact) {
    exists i :: 0 <= i < |have| && have[i].kind == item.kind && have[i].task == item.task && have[i].content == item.content
  }

  /** An artifact of a type and content that is already on file is not filed again. */
  function Filed(have: seq<Artifact>, items: seq<Artifact>): (all: seq<Artifact>)
    ensures have <= all
    decreases |items|
  {
    if items == [] then have else Filed(if Stored(have, items[0]) then have else have + [items[0]], items[1..])
  }

  /** A worker reads the row again before it completes it; every other move is of a row that is still open. */
  predicate MayMoveRemote(u: Setup, w: World, actor: ActorId, target: ChildStatus) {
    && Holds(w, actor) && w.store.callers[actor].id != u.local
    && (if target.Completed?
        then actor in w.products && actor in w.workers && w.workers[actor] == w.store.callers[actor].id
        else !ChildTerminal(SeenStatus(w, actor)))
  }

  predicate Lands(w: World, actor: ActorId) {
    && actor in w.store.callers && w.store.callers[actor].Moving?
    && w.store.callers[actor].id in w.store.children
    && w.store.children[w.store.callers[actor].id].row.version == w.store.callers[actor].m.expected
  }

  predicate CompletesLocal(u: Setup, w: World, actor: ActorId) {
    Lands(w, actor) && w.store.callers[actor].id == u.local && w.store.callers[actor].m.target.Completed?
  }

  /** A worker that completes or fails a row leaves what it has saved in the same transaction. */
  predicate Files(u: Setup, w: World, actor: ActorId) {
    && Lands(w, actor) && w.store.callers[actor].id != u.local && actor in w.products
    && (w.store.callers[actor].m.target.Completed? || w.store.callers[actor].m.target.ChildFailed?)
  }

  function DoCommit(u: Setup, w: World, actor: ActorId): World {
    w.(store := ChildRuns.Step(w.store, ChildRuns.Commit(actor)),
       taken := if CompletesLocal(u, w, actor) && actor in w.sources then Some(w.sources[actor]) else w.taken,
       artifacts := if Files(u, w, actor)
                    then w.artifacts[w.store.callers[actor].id := Filed(Kept(w, w.store.callers[actor].id), w.products[actor])]
                    else w.artifacts)
  }

  // ---- Runs -----------------------------------------------------------------------------------------------------------------

  function Step(u: Setup, w: World, a: Action): World {
    match a
    case Look(actor, id) => w.(store := ChildRuns.Step(w.store, ChildRuns.Look(actor, id)))
    case Submit(actor, newId, lost, at) =>
      if HoldsLocal(u, w, actor) && !ChildTerminal(SeenStatus(w, actor))
      then DoSubmit(u, w, actor, w.store.callers[actor].seen.row, newId, lost, at) else w
    case NoteRemote(actor) => if actor in w.answers then w.(remoteId := Some(w.answers[actor].remote)) else w
    case Poll(actor, id) =>
      if id in w.remotes && id in w.store.children
      then w.(snapshots := w.snapshots[actor := Snapshot(id, w.store.children[id].row.status, Kept(w, id))]) else w
    case ApplyStatus(actor, submission, key) =>
      if HoldsLocal(u, w, actor) && LastReport(w, actor, submission).Some?
      then DoApply(u, w, actor, LastReport(w, actor, submission).value, key) else w
    case MoveLocal(actor, target, key, code) =>
      if HoldsLocal(u, w, actor) then DoMoveLocal(u, w, actor, target, key, code) else w
    case Begin(actor, id) =>
      if id in w.remotes && id in w.store.children && !ChildTerminal(w.store.children[id].row.status)
      then w.(workers := w.workers[actor := id]) else w
    case Produce(actor, items) => w.(products := w.products[actor := items])
    case MoveRemote(actor, target, key, code) =>
      if MayMoveRemote(u, w, actor, target) then Asked(w, actor, target, key, code, None) else w
    case Commit(actor) => DoCommit(u, w, actor)
    case Crash(actor) =>
      w.(store := ChildRuns.Step(w.store, ChildRuns.Crash(actor)), answers := w.answers - {actor},
         snapshots := w.snapshots - {actor}, sources := w.sources - {actor}, workers := w.workers - {actor},
         products := w.products - {actor})
  }

  function Run(u: Setup, w: World, actions: seq<Action>): World
    decreases |actions|
  {
    if actions == [] then w else Run(u, Step(u, w, actions[0]), actions[1..])
  }

  /** A freshly created child: SUBMITTED, first attempt, nothing submitted to the agent. */
  function Start(u: Setup): World {
    var row := Child(Submitted, 1, 1, NoCode, u.agent);
    World(ChildRuns.System(map[u.local := ChildHistory(row, row, [])], map[]), map[], {}, map[], None, map[], map[], map[],
          None, map[], map[])
  }

  // ---- What every step keeps ------------------------------------------------------------------------------------------

  predicate IsDone(w: World, id: ChildId) {
    id in w.store.children && w.store.children[id].row.status.Completed?
  }

  /** An agent row of this child that has completed with all it must produce: some of the artifacts it filed, in the
      order of filing, include every required type and are all in order. */
  ghost predicate Delivered(u: Setup, w: World, id: ChildId) {
    id in w.remotes && IsDone(w, id) && exists n: nat :: n <= |Kept(w, id)| && AcceptableUpTo(u, w, id, n)
  }

  predicate AcceptableUpTo(u: Setup, w: World, id: ChildId, n: nat)
    requires n <= |Kept(w, id)|
  {
    Acceptable(u.policy, u.local, id, Kept(w, id)[..n])
  }

  predicate ReportOk(w: World, r: Report) {
    r.remote in w.remotes && (r.status.Completed? ==> IsDone(w, r.remote))
  }

  predicate SnapshotOk(w: World, s: Snapshot) {
    s.remote in w.remotes && (s.status.Completed? ==> IsDone(w, s.remote) && s.artifacts <= Kept(w, s.remote))
  }

  ghost predicate SourceOk(u: Setup, w: World, s: Source) {
    s.remote in w.remotes && IsDone(w, s.remote) && (s.Ingested? ==> Delivered(u, w, s.remote))
  }

  /** An agent row was created for an attempt, under that attempt's key. */
  predicate RemoteOk(u: Setup, w: World, id: ChildId) {
    && id in w.store.children && id != u.local
    && 1 <= w.store.children[id].first.attempt <= MAX_CHILD_ATTEMPTS
    && KeyFor(u.base, w.store.children[id].first.attempt) in w.keys
    && w.keys[KeyFor(u.base, w.store.children[id].first.attempt)] == id
  }

  ghost predicate RowsOk(u: Setup, w: World) {
    && u.local in w.store.children && w.store.children[u.local].first.attempt == 1
    && (forall id :: id in w.remotes ==> RemoteOk(u, w, id))
    && (forall k :: k in w.keys ==> w.keys[k] in w.remotes)
  }

  ghost predicate NotesOk(w: World) {
    && (w.remoteId.Some? ==> w.remoteId.value in w.remotes)
    && (forall a :: a in w.answers ==> ReportOk(w, w.answers[a]))
    && (forall a :: a in w.snapshots ==> SnapshotOk(w, w.snapshots[a]))
  }

  /** What a caller with a move in hand had to show for it. */
  ghost predicate MoverOk(u: Setup, w: World, actor: ActorId) {
    actor in w.store.callers && w.store.callers[actor].Moving? ==>
      var c := w.store.callers[actor];
      && (c.id == u.local && c.m.target.Completed? ==>
            !c.seen.row.status.Completed? && actor in w.sources && SourceOk(u, w, w.sources[actor]))
      && (c.id != u.local && !c.m.target.Completed? ==> !ChildTerminal(c.seen.row.status))
  }

  ghost predicate MoversOk(u: Setup, w: World) {
    forall a :: a in w.store.callers ==> MoverOk(u, w, a)
  }

  /** A completed local row took over the completion of an agent row. */
  ghost predicate TakenOk(u: Setup, w: World) {
    (IsDone(w, u.local) <==> w.taken.Some?) && (w.taken.Some? ==> SourceOk(u, w, w.taken.value))
  }

  ghost predicate Tracked(u: Setup, w: World) {
    RowsOk(u, w) && NotesOk(w) && MoversOk(u, w) && TakenOk(u, w)
  }

  ghost predicate Inv(u: Setup, w: World) {
    ChildRuns.Good(w.store) && Tracked(u, w)
  }

  // ---- Growth ---------------------------------------------------------------------------------------------------------

  /** Later worlds keep submissions, first rows and completions, and only file more artifacts. */
  ghost predicate Grows(w: World, w': World) {
    && w.remotes <= w'.remotes
    && (forall k :: k in w.keys ==> k in w'.keys && w'.keys[k] == w.keys[k])
    && (forall id :: id in w.store.children ==> id in w'.store.children && w'.store.children[id].first == w.store.children[id].first)
    && (forall id :: IsDone(w, id) ==> IsDone(w', id))
    && (forall id :: Kept(w, id) <= Kept(w', id))
  }

  lemma DeliveryStays(u: Setup, w: World, w': World, id: ChildId)
    requires Grows(w, w') && Delivered(u, w, id)
    ensures Delivered(u, w', id)
  {
    var n: nat :| n <= |Kept(w, id)| && AcceptableUpTo(u, w, id, n);
    assert Kept(w, id) <= Kept(w', id);
    assert Kept(w', id)[..n] == Kept(w, id)[..n];
    assert AcceptableUpTo(u, w', id, n);
  }

  lemma SourceStays(u: Setup, w: World, w': World, s: Source)
    requires Grows(w, w') && SourceOk(u, w, s)
    ensures SourceOk(u, w', s)
  {
    if s.Ingested? {
      DeliveryStays(u, w, w', s.remote);
    }
  }

  lemma SnapshotStays(w: World, w': World, s: Snapshot)
    requires Grows(w, w') && SnapshotOk(w, s)
    ensures SnapshotOk(w', s)
  {
    assert Kept(w, s.remote) <= Kept(w', s.remote);
  }

  /** Notes that were right stay right, and new ones are right if they were right before. */
  lemma NotesStay(w: World, w': World)
    requires Grows(w, w')
    requires w'.remoteId.Some? ==> w'.remoteId.value in w.remotes
    requires forall a :: a in w'.answers ==> ReportOk(w, w'.answers[a])
    requires forall a :: a in w'.snapshots ==> SnapshotOk(w, w'.snapshots[a])
    ensures NotesOk(w')
  {
    forall a | a in w'.snapshots ensures SnapshotOk(w', w'.snapshots[a]) {
      SnapshotStays(w, w', w'.snapshots[a]);
    }
  }

  /** The same mover in a world that grew. */
  lemma MoverStays(u: Setup, w: World, w': World, b: ActorId)
    requires Grows(w, w') && MoverOk(u, w, b)
    requires b in w.store.callers && b in w'.store.callers && w'.store.callers[b] == w.store.callers[b]
    requires b in w.sources ==> b in w'.sources && w'.sources[b] == w.sources[b]
    ensures MoverOk(u, w', b)
  {
    if b in w.sources && SourceOk(u, w, w.sources[b]) {
      SourceStays(u, w, w', w.sources[b]);
    }
  }

  lemma MoversStay(u: Setup, w: World, w': World)
    requires Grows(w, w') && MoversOk(u, w)
    requires forall b :: b in w'.store.callers ==> b in w.store.callers && w'.store.callers[b] == w.store.callers[b]
    requires forall b :: b in w'.store.callers && b in w.sources ==> b in w'.sources && w'.sources[b] == w.sources[b]
    ensures MoversOk(u, w')
  {
    forall b | b in w'.store.callers ensures MoverOk(u, w', b) {
      MoverStays(u, w, w', b);
    }
  }

  lemma TakenStays(u: Setup, w: World, w': World)
    requires Grows(w, w') && TakenOk(u, w) && w'.taken == w.taken && (IsDone(w', u.local) <==> IsDone(w, u.local))
    ensures TakenOk(u, w')
  {
    if w.taken.Some? {
      SourceStays(u, w, w', w.taken.value);
    }
  }

  // ---- Steps that change no row -----------------------------------------------------------------------------------------

  /** The tables stay as they are. */
  predicate SameTables(w: World, w': World) {
    && w'.store.children == w.store.children && w'.keys == w.keys && w'.remotes == w.remotes
    && w'.artifacts == w.artifacts && w'.taken == w.taken
  }

  lemma SameTablesGrow(u: Setup, w: World, w': World)
    requires SameTables(w, w') && RowsOk(u, w) && TakenOk(u, w)
    ensures Grows(w, w') && RowsOk(u, w') && TakenOk(u, w')
  {
    TakenStays(u, w, w');
  }

  /** Nobody moves; notes may change. */
  lemma NotesKeep(u: Setup, w: World, w': World)
    requires Tracked(u, w) && SameTables(w, w')
    requires forall b :: b in w'.store.callers ==> b in w.store.callers && w'.store.callers[b] == w.store.callers[b]
    requires forall b :: b in w'.store.callers && b in w.sources ==> b in w'.sources && w'.sources[b] == w.sources[b]
    requires w'.remoteId.Some? ==> w'.remoteId.value in w.remotes
    requires forall a :: a in w'.answers ==> ReportOk(w, w'.answers[a])
    requires forall a :: a in w'.snapshots ==> SnapshotOk(w, w'.snapshots[a])
    ensures Tracked(u, w')
  {
    SameTablesGrow(u, w, w');
    NotesStay(w, w');
    MoversStay(u, w, w');
  }

  lemma PollKeeps(u: Setup, w: World, actor: ActorId, id: ChildId)
    requires Tracked(u, w)
    ensures Tracked(u, Step(u, w, Poll(actor, id)))
  {
    var w' := Step(u, w, Poll(actor, id));
    if id in w.remotes && id in w.store.children {
      assert SnapshotOk(w, w'.snapshots[actor]);
    }
    NotesKeep(u, w, w');
  }

  /** One caller reads or asks, with something to show for it. */
  lemma CallerKeeps(u: Setup, w: World, w': World, actor: ActorId)
    requires Tracked(u, w) && w' == w.(store := w'.store, sources := w'.sources) && w'.store.children == w.store.children
    requires forall b :: b in w'.store.callers && b != actor ==> b in w.store.callers && w'.store.callers[b] == w.store.callers[b]
    requires forall b :: b in w.sources && b != actor ==> b in w'.sources && w'.sources[b] == w.sources[b]
    requires MoverOk(u, w', actor)
    ensures Tracked(u, w')
  {
    SameTablesGrow(u, w, w');
    NotesStay(w, w');
    forall b | b in w'.store.callers ensures MoverOk(u, w', b) {
      if b != actor {
        MoverStays(u, w, w', b);
      }
    }
  }

  lemma LookEffect(s: ChildRuns.System, actor: ActorId, id: ChildId)
    ensures var s' := ChildRuns.Step(s, ChildRuns.Look(actor, id));
            && s'.children == s.children
            && (forall b :: b in s'.callers && b != actor ==> b in s.callers && s'.callers[b] == s.callers[b])
            && (actor in s'.callers ==> s'.callers[actor].Holding? || (actor in s.callers && s'.callers[actor] == s.callers[actor]))
  {
  }

  lemma LookKeeps(u: Setup, w: World, actor: ActorId, id: ChildId)
    requires Tracked(u, w)
    ensures Tracked(u, w.(store := ChildRuns.Step(w.store, ChildRuns.Look(actor, id))))
  {
    LookEffect(w.store, actor, id);
    var w' := w.(store := ChildRuns.Step(w.store, ChildRuns.Look(actor, id)));
    if actor in w'.store.callers && !w'.store.callers[actor].Holding? {
      SameTablesGrow(u, w, w');
      MoverStays(u, w, w', actor);
    }
    CallerKeeps(u, w, w', actor);
  }

  lemma AskEffect(s: ChildRuns.System, actor: ActorId, target: ChildStatus, key: Key, code: StoredCode)
    requires actor in s.callers && s.callers[actor].Holding?
    ensures var s' := ChildRuns.Step(s, ChildRuns.Ask(actor, target, key, None, code));
            && s'.children == s.children
            && (forall b :: b in s'.callers && b != actor ==> b in s.callers && s'.callers[b] == s.callers[b])
            && (actor in s'.callers && s'.callers[actor].Moving? ==>
                  s'.callers[actor].id == s.callers[actor].id && s'.callers[actor].seen == s.callers[actor].seen
                  && s'.callers[actor].m.target == target)
  {
  }

  lemma AskedKeeps(u: Setup, w: World, actor: ActorId, target: ChildStatus, key: Key, code: StoredCode, source: Option<Source>)
    requires Tracked(u, w) && Holds(w, actor)
    requires w.store.callers[actor].id == u.local && target.Completed? ==>
               !SeenStatus(w, actor).Completed? && source.Some? && SourceOk(u, w, source.value)
    requires w.store.callers[actor].id != u.local && !target.Completed? ==> !ChildTerminal(SeenStatus(w, actor))
    ensures Tracked(u, Asked(w, actor, target, key, code, source))
  {
    var w' := Asked(w, actor, target, key, code, source);
    AskEffect(w.store, actor, target, key, code);
    SameTablesGrow(u, w, w');
    if source.Some? && SourceOk(u, w, source.value) {
      SourceStays(u, w, w', source.value);
    }
    CallerKeeps(u, w, w', actor);
  }

  lemma SnapshotDelivers(u: Setup, w: World, actor: ActorId)
    requires NotesOk(w) && MayComplete(u, w, actor)
    ensures SourceOk(u, w, Ingested(w.snapshots[actor].remote))
  {
    var s := w.snapshots[actor];
    assert SnapshotOk(w, s);
    assert Kept(w, s.remote)[..|s.artifacts|] == s.artifacts;
    assert AcceptableUpTo(u, w, s.remote, |s.artifacts|);
  }

  lemma ApplyKeeps(u: Setup, w: World, actor: ActorId, submission: bool, key: Key)
    requires Tracked(u, w)
    ensures Tracked(u, Step(u, w, ApplyStatus(actor, submission, key)))
  {
    if HoldsLocal(u, w, actor) && LastReport(w, actor, submission).Some? {
      var r := LastReport(w, actor, submission).value;
      assert ReportOk(w, r) by {
        assert actor in w.snapshots ==> SnapshotOk(w, w.snapshots[actor]);
      }
      if DoApply(u, w, actor, r, key) != w {
        AskedKeeps(u, w, actor, r.status, key, NoCode, Some(Told(r.remote)));
      }
    }
  }

  lemma MoveLocalKeeps(u: Setup, w: World, actor: ActorId, target: ChildStatus, key: Key, code: StoredCode)
    requires Tracked(u, w)
    ensures Tracked(u, Step(u, w, MoveLocal(actor, target, key, code)))
  {
    if HoldsLocal(u, w, actor) {
      if !target.Completed? {
        AskedKeeps(u, w, actor, target, key, code, None);
      } else if MayComplete(u, w, actor) && !SeenStatus(w, actor).Completed? {
        SnapshotDelivers(u, w, actor);
        AskedKeeps(u, w, actor, target, key, code, Some(Ingested(w.snapshots[actor].remote)));
      }
    }
  }

  lemma CrashKeeps(u: Setup, w: World, actor: ActorId)
    requires Tracked(u, w)
    ensures Tracked(u, Step(u, w, Crash(actor)))
  {
    assert Step(u, w, Crash(actor)).store == w.store.(callers := w.store.callers - {actor});
    NotesKeep(u, w, Step(u, w, Crash(actor)));
  }

  // ---- Submission ---------------------------------------------------------------------------------------------------------

  lemma SeenAttempt(u: Setup, w: World, actor: ActorId)
    requires Inv(u, w) && HoldsLocal(u, w, actor)
    ensures 1 <= w.store.callers[actor].seen.row.attempt <= MAX_CHILD_ATTEMPTS
  {
    var seen := w.store.callers[actor].seen;
    assert ChildRuns.CallerOk(w.store, w.store.callers[actor]);
    ChildRuns.AttemptCountsRetries(seen, |seen.log|);
  }

  lemma NewRowIsGood(s: ChildRuns.System, id: ChildId, h: ChildHistory)
    requires ChildRuns.Good(s) && id !in s.children && h.log == [] && h.row == h.first
    ensures ChildRuns.Good(s.(children := s.children[id := h]))
  {
    var s' := s.(children := s.children[id := h]);
    assert ChildRuns.Consistent(h);
    forall a | a in s'.callers ensures ChildRuns.CallerOk(s', s'.callers[a]) {
      assert ChildRuns.CallerOk(s, s.callers[a]);
    }
  }

  lemma CreatedGrows(u: Setup, w: World, key: Key, seen: Child, newId: ChildId)
    requires newId !in w.store.children && key !in w.keys
    ensures Grows(w, Created(u, w, key, seen, newId))
  {
  }

  lemma CreateKeeps(u: Setup, w: World, seen: Child, newId: ChildId)
    requires Tracked(u, w) && newId !in w.store.children && 1 <= seen.attempt <= MAX_CHILD_ATTEMPTS && !ChildTerminal(seen.status)
    requires KeyFor(u.base, seen.attempt) !in w.keys
    ensures Tracked(u, Created(u, w, KeyFor(u.base, seen.attempt), seen, newId))
  {
    var w' := Created(u, w, KeyFor(u.base, seen.attempt), seen, newId);
    CreatedGrows(u, w, KeyFor(u.base, seen.attempt), seen, newId);
    NotesStay(w, w');
    MoversStay(u, w, w');
    TakenStays(u, w, w');
    assert RemoteOk(u, w', newId);
    forall id | id in w'.remotes ensures RemoteOk(u, w', id) {
      assert id != newId ==> RemoteOk(u, w, id);
    }
  }

  /** A row that had completed is completed now. */
  lemma EarlierStatus(h: ChildHistory, at: nat)
    requires ChildRuns.Consistent(h) && StatusAt(h, at).Completed?
    ensures h.row.status.Completed?
  {
    ChildRuns.SpentRowsAbsorb(h, if at < |h.log| then at else |h.log|, |h.log|);
  }

  lemma AnswerIsRight(w: World, id: ChildId, at: nat)
    requires id in w.remotes && id in w.store.children && ChildRuns.Consistent(w.store.children[id])
    ensures ReportOk(w, Report(id, StatusAt(w.store.children[id], at)))
  {
    if StatusAt(w.store.children[id], at).Completed? {
      EarlierStatus(w.store.children[id], at);
    }
  }

  lemma ReportNoted(u: Setup, w: World, actor: ActorId, r: Report)
    requires Tracked(u, w) && ReportOk(w, r)
    ensures Tracked(u, w.(answers := w.answers[actor := r]))
  {
    NotesKeep(u, w, w.(answers := w.answers[actor := r]));
  }

  lemma AnswerKeeps(u: Setup, w: World, actor: ActorId, id: ChildId, at: nat, lost: bool)
    requires Inv(u, w) && id in w.remotes
    ensures Inv(u, Answered(w, actor, id, at, lost))
  {
    if !lost && id in w.store.children {
      var r := Report(id, StatusAt(w.store.children[id], at));
      AnswerIsRight(w, id, at);
      ReportNoted(u, w, actor, r);
    }
  }

  lemma SubmitKeeps(u: Setup, w: World, actor: ActorId, seen: Child, newId: ChildId, lost: bool, at: nat)
    requires Inv(u, w) && 1 <= seen.attempt <= MAX_CHILD_ATTEMPTS && !ChildTerminal(seen.status)
    ensures Inv(u, DoSubmit(u, w, actor, seen, newId, lost, at))
  {
    var key := KeyFor(u.base, seen.attempt);
    if key in w.keys {
      AnswerKeeps(u, w, actor, w.keys[key], at, lost);
    } else if newId !in w.store.children {
      CreateKeeps(u, w, seen, newId);
      NewRowIsGood(w.store, newId, Copy(seen, u.agent));
      AnswerKeeps(u, Created(u, w, key, seen, newId), actor, newId, at, lost);
    }
  }

  // ---- Commits ---------------------------------------------------------------------------------------------------------------

  /** Who lands overwrites the row it saw. */
  lemma LandsOnSeenRow(w: World, actor: ActorId)
    requires ChildRuns.Good(w.store) && Lands(w, actor)
    ensures var c := w.store.callers[actor];
            w.store.children[c.id].row == c.seen.row && MoveAllowed(c.seen.row, c.m.target)
  {
    var c := w.store.callers[actor];
    assert ChildRuns.CallerOk(w.store, c);
    var now := w.store.children[c.id];
    ChildRuns.SameVersionSameHistory(c.checked, now);
    ChildRuns.SameVersionSameHistory(c.seen, c.checked);
  }

  lemma SwapLands(s: ChildRuns.System, actor: ActorId)
    requires actor in s.callers && s.callers[actor].Moving? && s.callers[actor].id in s.children
    requires s.children[s.callers[actor].id].row.version == s.callers[actor].m.expected
    ensures var s', c := ChildRuns.Step(s, ChildRuns.Commit(actor)), s.callers[actor];
            c.id in s'.children && s'.children[c.id].row.status == c.m.target
  {
  }

  lemma FilesMore(u: Setup, w: World, actor: ActorId, id: ChildId)
    ensures Kept(w, id) <= Kept(DoCommit(u, w, actor), id)
  {
  }

  /** Where a worker's move may land: a completion on a row at work or already completed, anything else on an open row. */
  predicate WorkerMayLand(from: ChildStatus, target: ChildStatus) {
    if target.Completed? then from.Working? || from.Completed? else !ChildTerminal(from)
  }

  predicate NowAt(w: World, id: ChildId, status: ChildStatus) {
    id in w.store.children && w.store.children[id].row.status == status
  }

  lemma SeenRowMayLand(u: Setup, w: World, actor: ActorId, c: ChildRuns.Caller)
    requires MoverOk(u, w, actor) && actor in w.store.callers && c == w.store.callers[actor] && c.Moving?
    requires c.id != u.local && MoveAllowed(c.seen.row, c.m.target)
    ensures WorkerMayLand(c.seen.row.status, c.m.target)
  {
  }

  lemma CommitNow(u: Setup, w: World, actor: ActorId, c: ChildRuns.Caller)
    requires Lands(w, actor) && c == w.store.callers[actor]
    ensures NowAt(DoCommit(u, w, actor), c.id, c.m.target)
  {
    SwapLands(w.store, actor);
  }

  /** An agent's completion lands on a row at work, or on one that another worker has completed, which stays completed
      and files more; every other move of an agent's row lands while it is open. */
  lemma WorkerLandsOn(u: Setup, w: World, actor: ActorId, c: ChildRuns.Caller)
    requires Inv(u, w) && Lands(w, actor) && c == w.store.callers[actor] && c.id != u.local
    ensures WorkerMayLand(w.store.children[c.id].row.status, c.m.target)
    ensures NowAt(DoCommit(u, w, actor), c.id, c.m.target) && Kept(w, c.id) <= Kept(DoCommit(u, w, actor), c.id)
  {
    LandsOnSeenRow(w, actor);
    SeenRowMayLand(u, w, actor, c);
    CommitNow(u, w, actor, c);
    FilesMore(u, w, actor, c.id);
  }

  lemma StoreOnlyGrows(s: ChildRuns.System, a: ChildRuns.Action)
    requires ChildRuns.Good(s)
    ensures var s' := ChildRuns.Step(s, a);
            && (forall id :: id in s.children ==> id in s'.children && s'.children[id].first == s.children[id].first)
            && (forall id :: id in s.children && s.children[id].row.status.Completed? ==>
                  id in s'.children && s'.children[id].row.status.Completed?)
  {
    var s' := ChildRuns.Step(s, a);
    forall id | id in s.children ensures id in s'.children && s'.children[id].first == s.children[id].first {
      ChildRuns.ChildExtends(s, a, id);
    }
    forall id | id in s.children && s.children[id].row.status.Completed?
      ensures id in s'.children && s'.children[id].row.status.Completed?
    {
      ChildRuns.SpentStays(s, a, id);
    }
  }

  lemma CommitTables(u: Setup, w: World, actor: ActorId)
    ensures var w' := DoCommit(u, w, actor);
            w'.store == ChildRuns.Step(w.store, ChildRuns.Commit(actor)) && w'.keys == w.keys && w'.remotes == w.remotes
  {
  }

  lemma RowsGrow(w: World, w': World)
    requires w'.keys == w.keys && w'.remotes == w.remotes && forall id :: Kept(w, id) <= Kept(w', id)
    requires forall id :: id in w.store.children ==> id in w'.store.children && w'.store.children[id].first == w.store.children[id].first
    requires forall id :: id in w.store.children && w.store.children[id].row.status.Completed? ==>
               id in w'.store.children && w'.store.children[id].row.status.Completed?
    ensures Grows(w, w')
  {
  }

  lemma CommitGrows(u: Setup, w: World, actor: ActorId)
    requires ChildRuns.Good(w.store)
    ensures Grows(w, DoCommit(u, w, actor))
  {
    var w' := DoCommit(u, w, actor);
    CommitTables(u, w, actor);
    StoreOnlyGrows(w.store, ChildRuns.Commit(actor));
    forall id ensures Kept(w, id) <= Kept(w', id) {
      FilesMore(u, w, actor, id);
    }
    RowsGrow(w, w');
  }

  lemma CommitEffect(s: ChildRuns.System, actor: ActorId)
    ensures var s' := ChildRuns.Step(s, ChildRuns.Commit(actor));
            && (forall b :: b in s'.callers ==> b in s.callers && s'.callers[b] == s.callers[b])
            && s'.children.Keys == s.children.Keys
            && (forall id :: id in s.children && s'.children[id] != s.children[id] ==>
                  actor in s.callers && s.callers[actor].Moving? && s.callers[actor].id == id
                  && s.children[id].row.version == s.callers[actor].m.expected
                  && s'.children[id].row.status == s.callers[actor].m.target)
  {
  }

  lemma CommittedStatus(s: ChildRuns.System, actor: ActorId, id: ChildId)
    requires id in s.children
    ensures var s' := ChildRuns.Step(s, ChildRuns.Commit(actor));
            && id in s'.children
            && s'.children[id].row.status ==
                 if actor in s.callers && s.callers[actor].Moving? && s.callers[actor].id == id
                    && s.children[id].row.version == s.callers[actor].m.expected
                 then s.callers[actor].m.target else s.children[id].row.status
  {
  }

  /** The local row is completed by a commit exactly when it was before, or the commit lands its completion. */
  lemma LocalDoneAfter(u: Setup, w: World, actor: ActorId)
    requires ChildRuns.Good(w.store) && u.local in w.store.children
    ensures IsDone(DoCommit(u, w, actor), u.local) <==> IsDone(w, u.local) || CompletesLocal(u, w, actor)
  {
    CommittedStatus(w.store, actor, u.local);
    CommitTables(u, w, actor);
    if IsDone(w, u.local) {
      ChildRuns.SpentStays(w.store, ChildRuns.Commit(actor), u.local);
    }
  }

  lemma CommitTaken(u: Setup, w: World, actor: ActorId)
    requires Inv(u, w) && Grows(w, DoCommit(u, w, actor))
    ensures TakenOk(u, DoCommit(u, w, actor))
  {
    var w' := DoCommit(u, w, actor);
    LocalDoneAfter(u, w, actor);
    if CompletesLocal(u, w, actor) {
      assert MoverOk(u, w, actor);
      SourceStays(u, w, w', w.sources[actor]);
    } else {
      TakenStays(u, w, w');
    }
  }

  lemma CommitRows(u: Setup, w: World, actor: ActorId)
    requires RowsOk(u, w) && Grows(w, DoCommit(u, w, actor))
    ensures RowsOk(u, DoCommit(u, w, actor))
  {
    var w' := DoCommit(u, w, actor);
    forall id | id in w'.remotes ensures RemoteOk(u, w', id) {
      assert RemoteOk(u, w, id);
    }
  }

  lemma CommitKeeps(u: Setup, w: World, actor: ActorId)
    requires Inv(u, w)
    ensures Tracked(u, DoCommit(u, w, actor))
  {
    var w' := DoCommit(u, w, actor);
    CommitGrows(u, w, actor);
    CommitRows(u, w, actor);
    CommitTaken(u, w, actor);
    NotesStay(w, w');
    CommitEffect(w.store, actor);
    MoversStay(u, w, w');
  }

  // ---- Every step ---------------------------------------------------------------------------------------------------------------

  lemma AskedIsGood(w: World, actor: ActorId, target: ChildStatus, key: Key, code: StoredCode, source: Option<Source>)
    requires ChildRuns.Good(w.store)
    ensures ChildRuns.Good(Asked(w, actor, target, key, code, source).store)
  {
    ChildRuns.StepKeepsGood(w.store, ChildRuns.Ask(actor, target, key, None, code));
  }

  lemma ApplyEffect(u: Setup, w: World, actor: ActorId, submission: bool, key: Key, w': World)
    requires w' == Step(u, w, ApplyStatus(actor, submission, key)) && w' != w
    ensures var r := LastReport(w, actor, submission);
            r.Some? && w' == Asked(w, actor, r.value.status, key, NoCode, Some(Told(r.value.remote)))
  {
  }

  lemma ApplyIsGood(u: Setup, w: World, actor: ActorId, submission: bool, key: Key, w': World)
    requires w' == Step(u, w, ApplyStatus(actor, submission, key)) && w' != w && ChildRuns.Good(w.store)
    ensures ChildRuns.Good(w'.store)
  {
    ApplyEffect(u, w, actor, submission, key, w');
    var r := LastReport(w, actor, submission).value;
    AskedIsGood(w, actor, r.status, key, NoCode, Some(Told(r.remote)));
  }

  lemma MoveLocalIsGood(u: Setup, w: World, actor: ActorId, target: ChildStatus, key: Key, code: StoredCode)
    requires ChildRuns.Good(w.store)
    ensures ChildRuns.Good(Step(u, w, MoveLocal(actor, target, key, code)).store)
  {
    AskedIsGood(w, actor, target, key, code, None);
  }

  lemma MoveRemoteIsGood(u: Setup, w: World, actor: ActorId, target: ChildStatus, key: Key, code: StoredCode)
    requires ChildRuns.Good(w.store)
    ensures ChildRuns.Good(Step(u, w, MoveRemote(actor, target, key, code)).store)
  {
    AskedIsGood(w, actor, target, key, code, None);
  }

  /** Everything but submissions leaves the rows to the store. */
  lemma StoreStepIsGood(u: Setup, w: World, a: Action)
    requires ChildRuns.Good(w.store) && !a.Submit?
    ensures ChildRuns.Good(Step(u, w, a).store)
  {
    match a
    case Look(actor, id) => ChildRuns.StepKeepsGood(w.store, ChildRuns.Look(actor, id));
    case Commit(actor) => ChildRuns.StepKeepsGood(w.store, ChildRuns.Commit(actor));
    case Crash(actor) => ChildRuns.StepKeepsGood(w.store, ChildRuns.Crash(actor));
    case NoteRemote(_) =>
    case Poll(_, _) =>
    case Begin(_, _) =>
    case Produce(_, _) =>
    case ApplyStatus(actor, submission, key) =>
      if Step(u, w, a) != w {
        ApplyIsGood(u, w, actor, submission, key, Step(u, w, a));
      }
    case MoveLocal(actor, target, key, code) => MoveLocalIsGood(u, w, actor, target, key, code);
    case MoveRemote(actor, target, key, code) => MoveRemoteIsGood(u, w, actor, target, key, code);
  }

  lemma NoteRemoteKeeps(u: Setup, w: World, actor: ActorId)
    requires Tracked(u, w)
    ensures Tracked(u, Step(u, w, NoteRemote(actor)))
  {
    if actor in w.answers {
      RemoteNoted(u, w, w.answers[actor]);
    }
  }

  lemma RemoteNoted(u: Setup, w: World, r: Report)
    requires Tracked(u, w) && ReportOk(w, r)
    ensures Tracked(u, w.(remoteId := Some(r.remote)))
  {
    NotesKeep(u, w, w.(remoteId := Some(r.remote)));
  }

  lemma WorkerNotesKeep(u: Setup, w: World, w': World)
    requires Tracked(u, w) && w' == w.(workers := w'.workers, products := w'.products)
    ensures Tracked(u, w')
  {
    NotesKeep(u, w, w');
  }

  lemma MoveRemoteKeeps(u: Setup, w: World, actor: ActorId, target: ChildStatus, key: Key, code: StoredCode)
    requires Tracked(u, w)
    ensures Tracked(u, Step(u, w, MoveRemote(actor, target, key, code)))
  {
    if MayMoveRemote(u, w, actor, target) {
      AskedKeeps(u, w, actor, target, key, code, None);
    }
  }

  lemma QuietStepKeeps(u: Setup, w: World, a: Action)
    requires Tracked(u, w) && !a.Submit? && !a.Commit?
    ensures Tracked(u, Step(u, w, a))
  {
    match a
    case Look(actor, id) => LookKeeps(u, w, actor, id);
    case NoteRemote(actor) => NoteRemoteKeeps(u, w, actor);
    case Poll(actor, id) => PollKeeps(u, w, actor, id);
    case ApplyStatus(actor, submission, key) => ApplyKeeps(u, w, actor, submission, key);
    case MoveLocal(actor, target, key, code) => MoveLocalKeeps(u, w, actor, target, key, code);
    case Begin(_, _) => WorkerNotesKeep(u, w, Step(u, w, a));
    case Produce(_, _) => WorkerNotesKeep(u, w, Step(u, w, a));
    case MoveRemote(actor, target, key, code) => MoveRemoteKeeps(u, w, actor, target, key, code);
    case Crash(actor) => CrashKeeps(u, w, actor);
  }

  lemma StepKeeps(u: Setup, w: World, a: Action)
    requires Inv(u, w)
    ensures Inv(u, Step(u, w, a))
  {
    if a.Submit? {
      if HoldsLocal(u, w, a.actor) && !ChildTerminal(SeenStatus(w, a.actor)) {
        SeenAttempt(u, w, a.actor);
        SubmitKeeps(u, w, a.actor, w.store.callers[a.actor].seen.row, a.newId, a.lost, a.at);
      }
    } else {
      StoreStepIsGood(u, w, a);
      if a.Commit? {
        CommitKeeps(u, w, a.actor);
      } else {
        QuietStepKeeps(u, w, a);
      }
    }
  }

  lemma {:induction false} RunKeeps(u: Setup, w: World, actions: seq<Action>)
    requires Inv(u, w)
    ensures Inv(u, Run(u, w, actions))
    decreases |actions|
  {
    if actions != [] {
      StepKeeps(u, w, actions[0]);
      RunKeeps(u, Step(u, w, actions[0]), actions[1..]);
    }
  }

  // ---- What it comes to -----------------------------------------------------------------------------------------------------------

  lemma StartIsGood(u: Setup)
    ensures Inv(u, Start(u))
  {
    assert ChildRuns.Consistent(Start(u).store.children[u.local]);
  }

  lemma RemotesAreFew(u: Setup, w: World)
    requires RowsOk(u, w)
    ensures |w.remotes| <= 2
  {
    var k1, k2 := KeyFor(u.base, 1), KeyFor(u.base, 2);
    var few := (if k1 in w.keys then {w.keys[k1]} else {}) + if k2 in w.keys then {w.keys[k2]} else {};
    forall id | id in w.remotes ensures id in few {
      assert RemoteOk(u, w, id);
    }
    SubsetSize(w.remotes, few);
  }

  /** The agent row of an attempt is the one its key names. */
  predicate OnePerAttempt(w: World, id: ChildId, other: ChildId) {
    id in w.store.children && other in w.store.children
    && (w.store.children[id].first.attempt == w.store.children[other].first.attempt ==> id == other)
  }

  /** Main result of the tracking: whatever submissions, lost answers, polls, status reports, moves, retries and crashes
      interleave, the agent has at most two rows for the child and at most one for each attempt, the local row's log is
      a legal account of it, and a locally completed child took over the completion of an agent row that is completed,
      with every required artifact in order if it had taken them in. */
  lemma TrackingIsSafe(u: Setup, actions: seq<Action>)
    ensures var w := Run(u, Start(u), actions);
            && |w.remotes| <= 2
            && (forall id, other :: id in w.remotes && other in w.remotes ==> OnePerAttempt(w, id, other))
            && u.local in w.store.children && ChildRuns.Consistent(w.store.children[u.local])
            && (w.remoteId.Some? ==> w.remoteId.value in w.remotes)
            && (IsDone(w, u.local) <==> w.taken.Some?)
            && (w.taken.Some? ==> w.taken.value.remote in w.remotes && IsDone(w, w.taken.value.remote)
                                  && (w.taken.value.Ingested? ==> Delivered(u, w, w.taken.value.remote)))
  {
    StartIsGood(u);
    RunKeeps(u, Start(u), actions);
    var w := Run(u, Start(u), actions);
    RemotesAreFew(u, w);
    forall id, other | id in w.remotes && other in w.remotes ensures OnePerAttempt(w, id, other) {
      assert RemoteOk(u, w, id) && RemoteOk(u, w, other);
    }
  }

  // ---- When a completed child has its artifacts -------------------------------------------------------------------------------------

  /** The local row, if completed, took over a delivery. */
  ghost predicate HasDelivery(u: Setup, w: World) {
    IsDone(w, u.local) ==> w.taken.Some? && Delivered(u, w, w.taken.value.remote)
  }

  /** It does so at every moment of a run. */
  ghost predicate AlwaysHasDelivery(u: Setup, w: World, actions: seq<Action>)
    decreases |actions|
  {
    HasDelivery(u, w) && (actions != [] ==> AlwaysHasDelivery(u, Step(u, w, actions[0]), actions[1..]))
  }

  /** The commit of a bare status: completed, from an agent row whose artifacts are not all there and in order. */
  ghost predicate AppliesUndelivered(u: Setup, w: World, a: Action) {
    a.Commit? && CompletesLocal(u, w, a.actor) && a.actor in w.sources && w.sources[a.actor].Told?
    && !Delivered(u, w, w.sources[a.actor].remote)
  }

  ghost predicate NeverAppliesUndelivered(u: Setup, w: World, actions: seq<Action>)
    decreases |actions|
  {
    actions == [] || (!AppliesUndelivered(u, w, actions[0]) && NeverAppliesUndelivered(u, Step(u, w, actions[0]), actions[1..]))
  }

  lemma SameArtifactsSameDelivery(u: Setup, w: World, w': World, id: ChildId)
    requires w'.remotes == w.remotes && w'.artifacts == w.artifacts && (IsDone(w', id) ==> IsDone(w, id))
    ensures Delivered(u, w', id) ==> Delivered(u, w, id)
  {
    if Delivered(u, w', id) {
      var n: nat :| n <= |Kept(w', id)| && AcceptableUpTo(u, w', id, n);
      assert AcceptableUpTo(u, w, id, n);
    }
  }

  /** A commit leaves the local row with its delivery exactly when it does not apply an undelivered completion. */
  lemma CommitHasDelivery(u: Setup, w: World, actor: ActorId)
    requires Inv(u, w) && HasDelivery(u, w)
    ensures HasDelivery(u, DoCommit(u, w, actor)) <==> !AppliesUndelivered(u, w, Commit(actor))
  {
    var w' := DoCommit(u, w, actor);
    CommitGrows(u, w, actor);
    CommitTaken(u, w, actor);
    LocalDoneAfter(u, w, actor);
    if CompletesLocal(u, w, actor) {
      assert MoverOk(u, w, actor);
      var remote := w.sources[actor].remote;
      assert SourceOk(u, w, w.sources[actor]) && w'.artifacts == w.artifacts;
      SameArtifactsSameDelivery(u, w, w', remote);
      if Delivered(u, w, remote) {
        DeliveryStays(u, w, w', remote);
      }
    } else if IsDone(w, u.local) {
      DeliveryStays(u, w, w', w.taken.value.remote);
    }
  }

  /** The tables grow, and the local row and what it took over stay. */
  ghost predicate GrowsApart(u: Setup, w: World, w': World) {
    Grows(w, w') && w'.taken == w.taken && (IsDone(w', u.local) ==> IsDone(w, u.local))
  }

  lemma SubmitGrows(u: Setup, w: World, actor: ActorId, seen: Child, newId: ChildId, lost: bool, at: nat)
    requires u.local in w.store.children
    ensures GrowsApart(u, w, DoSubmit(u, w, actor, seen, newId, lost, at))
  {
    var key := KeyFor(u.base, seen.attempt);
    if key !in w.keys && newId !in w.store.children {
      CreatedGrows(u, w, key, seen, newId);
    }
  }

  lemma AskedGrows(u: Setup, w: World, actor: ActorId, target: ChildStatus, key: Key, code: StoredCode, source: Option<Source>)
    requires Holds(w, actor)
    ensures GrowsApart(u, w, Asked(w, actor, target, key, code, source))
  {
    AskEffect(w.store, actor, target, key, code);
  }

  lemma AskingGrows(u: Setup, w: World, a: Action)
    requires a.ApplyStatus? || a.MoveLocal? || a.MoveRemote?
    ensures GrowsApart(u, w, Step(u, w, a))
  {
    match a
    case ApplyStatus(actor, submission, key) =>
      var r := LastReport(w, actor, submission);
      if Holds(w, actor) && r.Some? {
        AskedGrows(u, w, actor, r.value.status, key, NoCode, Some(Told(r.value.remote)));
      }
    case MoveLocal(actor, target, key, code) =>
      if Holds(w, actor) {
        AskedGrows(u, w, actor, target, key, code, None);
        if actor in w.snapshots {
          AskedGrows(u, w, actor, target, key, code, Some(Ingested(w.snapshots[actor].remote)));
        }
      }
    case MoveRemote(actor, target, key, code) =>
      if Holds(w, actor) {
        AskedGrows(u, w, actor, target, key, code, None);
      }
  }

  lemma SameTablesGrowApart(u: Setup, w: World, w': World)
    requires SameTables(w, w')
    ensures GrowsApart(u, w, w')
  {
  }

  lemma CrashGrows(u: Setup, w: World, actor: ActorId)
    ensures GrowsApart(u, w, Step(u, w, Crash(actor)))
  {
    SameTablesGrowApart(u, w, Step(u, w, Crash(actor)));
  }

  lemma PollGrows(u: Setup, w: World, actor: ActorId, id: ChildId)
    ensures GrowsApart(u, w, Step(u, w, Poll(actor, id)))
  {
    SameTablesGrowApart(u, w, Step(u, w, Poll(actor, id)));
  }

  lemma NoteRemoteGrows(u: Setup, w: World, actor: ActorId)
    ensures GrowsApart(u, w, Step(u, w, NoteRemote(actor)))
  {
    SameTablesGrowApart(u, w, Step(u, w, NoteRemote(actor)));
  }

  lemma BeginGrows(u: Setup, w: World, actor: ActorId, id: ChildId)
    ensures GrowsApart(u, w, Step(u, w, Begin(actor, id)))
  {
    SameTablesGrowApart(u, w, Step(u, w, Begin(actor, id)));
  }

  lemma ProduceGrows(u: Setup, w: World, actor: ActorId, items: seq<Artifact>)
    ensures GrowsApart(u, w, Step(u, w, Produce(actor, items)))
  {
    SameTablesGrowApart(u, w, Step(u, w, Produce(actor, items)));
  }

  lemma OtherStepGrows(u: Setup, w: World, a: Action)
    requires u.local in w.store.children && !a.Commit?
    ensures GrowsApart(u, w, Step(u, w, a))
  {
    match a
    case Look(actor, id) => LookEffect(w.store, actor, id);
    case Submit(actor, newId, lost, at) =>
      if Holds(w, actor) {
        SubmitGrows(u, w, actor, w.store.callers[actor].seen.row, newId, lost, at);
      }
    case ApplyStatus(_, _, _) => AskingGrows(u, w, a);
    case MoveLocal(_, _, _, _) => AskingGrows(u, w, a);
    case MoveRemote(_, _, _, _) => AskingGrows(u, w, a);
    case Crash(actor) => CrashGrows(u, w, actor);
    case Poll(actor, id) => PollGrows(u, w, actor, id);
    case NoteRemote(actor) => NoteRemoteGrows(u, w, actor);
    case Begin(actor, id) => BeginGrows(u, w, actor, id);
    case Produce(actor, items) => ProduceGrows(u, w, actor, items);
  }

  lemma DeliveryOutlives(u: Setup, w: World, w': World)
    requires HasDelivery(u, w) && GrowsApart(u, w, w')
    ensures HasDelivery(u, w')
  {
    if IsDone(w, u.local) {
      DeliveryStays(u, w, w', w.taken.value.remote);
    }
  }

  lemma OtherStepHasDelivery(u: Setup, w: World, a: Action)
    requires Inv(u, w) && HasDelivery(u, w) && !a.Commit?
    ensures HasDelivery(u, Step(u, w, a))
  {
    OtherStepGrows(u, w, a);
    DeliveryOutlives(u, w, Step(u, w, a));
  }

  lemma {:induction false} DeliveryFrom(u: Setup, w: World, actions: seq<Action>)
    requires Inv(u, w) && HasDelivery(u, w)
    ensures AlwaysHasDelivery(u, w, actions) <==> NeverAppliesUndelivered(u, w, actions)
    decreases |actions|
  {
    if actions != [] {
      var a := actions[0];
      StepKeeps(u, w, a);
      if a.Commit? {
        CommitHasDelivery(u, w, a.actor);
      } else {
        OtherStepHasDelivery(u, w, a);
      }
      if HasDelivery(u, Step(u, w, a)) {
        DeliveryFrom(u, Step(u, w, a), actions[1..]);
      }
    }
  }

  /** For every run: the agent row whose completion a completed child took over has, at every moment, delivered every
      required artifact in order, exactly when no status query and no submission answer was ever applied as the completion of an agent row
      whose artifacts are not. */
  lemma DeliveredIff(u: Setup, actions: seq<Action>)
    ensures AlwaysHasDelivery(u, Start(u), actions) <==> NeverAppliesUndelivered(u, Start(u), actions)
  {
    StartIsGood(u);
    DeliveryFrom(u, Start(u), actions);
  }

  // ---- When the noted agent row is the one taken over --------------------------------------------------------------------------------

  /** The agent row a completed child notes is the one whose completion it took over. */
  predicate NotesItsSource(u: Setup, w: World) {
    IsDone(w, u.local) ==> w.taken.Some? && w.remoteId == Some(w.taken.value.remote)
  }

  predicate AlwaysNotesItsSource(u: Setup, w: World, actions: seq<Action>)
    decreases |actions|
  {
    NotesItsSource(u, w) && (actions != [] ==> AlwaysNotesItsSource(u, Step(u, w, actions[0]), actions[1..]))
  }

  /** A commit completes the child from an agent row it does not note. */
  predicate CompletesFromElsewhere(u: Setup, w: World, a: Action) {
    a.Commit? && CompletesLocal(u, w, a.actor) && a.actor in w.sources && w.remoteId != Some(w.sources[a.actor].remote)
  }

  /** The answer to a submission makes a completed child note another agent row. */
  predicate NotesAnother(u: Setup, w: World, a: Action) {
    a.NoteRemote? && a.actor in w.answers && IsDone(w, u.local) && w.taken != None
    && w.answers[a.actor].remote != w.taken.value.remote
  }

  predicate NeverPartsFromSource(u: Setup, w: World, actions: seq<Action>)
    decreases |actions|
  {
    actions == [] || (!CompletesFromElsewhere(u, w, actions[0]) && !NotesAnother(u, w, actions[0])
                      && NeverPartsFromSource(u, Step(u, w, actions[0]), actions[1..]))
  }

  lemma CommitNotesSource(u: Setup, w: World, actor: ActorId)
    requires Inv(u, w) && NotesItsSource(u, w)
    ensures NotesItsSource(u, DoCommit(u, w, actor)) <==> !CompletesFromElsewhere(u, w, Commit(actor))
  {
    LocalDoneAfter(u, w, actor);
    if CompletesLocal(u, w, actor) {
      assert MoverOk(u, w, actor);
    }
  }

  /** The notes on the local row and the agent's artifacts. */
  predicate SameNotes(w: World, w': World) {
    w'.remoteId == w.remoteId && w'.artifacts == w.artifacts && w'.taken == w.taken
  }

  lemma SubmitLeavesNotes(u: Setup, w: World, actor: ActorId, seen: Child, newId: ChildId, lost: bool, at: nat)
    ensures SameNotes(w, DoSubmit(u, w, actor, seen, newId, lost, at))
  {
  }

  lemma SubmissionLeavesNotes(u: Setup, w: World, a: Action)
    requires a.Submit?
    ensures SameNotes(w, Step(u, w, a))
  {
    if HoldsLocal(u, w, a.actor) {
      SubmitLeavesNotes(u, w, a.actor, w.store.callers[a.actor].seen.row, a.newId, a.lost, a.at);
    }
  }

  lemma ApplyLeavesNotes(u: Setup, w: World, a: Action)
    requires a.ApplyStatus?
    ensures SameNotes(w, Step(u, w, a))
  {
  }

  lemma MoveLocalLeavesNotes(u: Setup, w: World, a: Action)
    requires a.MoveLocal?
    ensures SameNotes(w, Step(u, w, a))
  {
  }

  lemma MoveRemoteLeavesNotes(u: Setup, w: World, a: Action)
    requires a.MoveRemote?
    ensures SameNotes(w, Step(u, w, a))
  {
  }

  lemma NoteStays(u: Setup, w: World, a: Action)
    requires !a.NoteRemote? && !a.Commit?
    ensures SameNotes(w, Step(u, w, a))
  {
    match a
    case Submit(_, _, _, _) => SubmissionLeavesNotes(u, w, a);
    case ApplyStatus(_, _, _) => ApplyLeavesNotes(u, w, a);
    case MoveLocal(_, _, _, _) => MoveLocalLeavesNotes(u, w, a);
    case MoveRemote(_, _, _, _) => MoveRemoteLeavesNotes(u, w, a);
    case Look(_, _) =>
    case Poll(_, _) =>
    case Begin(_, _) =>
    case Produce(_, _) =>
    case Crash(_) =>
  }

  lemma NotingNotesSource(u: Setup, w: World, actor: ActorId)
    requires NotesItsSource(u, w)
    ensures NotesItsSource(u, Step(u, w, NoteRemote(actor))) <==> !NotesAnother(u, w, NoteRemote(actor))
  {
  }

  lemma ApartKeepsSource(u: Setup, w: World, w': World)
    requires u.local in w.store.children && GrowsApart(u, w, w') && w'.remoteId == w.remoteId
    ensures NotesItsSource(u, w) ==> NotesItsSource(u, w')
  {
  }

  lemma OtherStepNotesSource(u: Setup, w: World, a: Action)
    requires Inv(u, w) && NotesItsSource(u, w) && !a.Commit?
    ensures NotesItsSource(u, Step(u, w, a)) <==> !NotesAnother(u, w, a)
  {
    if a.NoteRemote? {
      NotingNotesSource(u, w, a.actor);
    } else {
      OtherStepGrows(u, w, a);
      NoteStays(u, w, a);
      ApartKeepsSource(u, w, Step(u, w, a));
    }
  }

  lemma {:induction false} SourceNotedFrom(u: Setup, w: World, actions: seq<Action>)
    requires Inv(u, w) && NotesItsSource(u, w)
    ensures AlwaysNotesItsSource(u, w, actions) <==> NeverPartsFromSource(u, w, actions)
    decreases |actions|
  {
    if actions != [] {
      var a := actions[0];
      StepKeeps(u, w, a);
      if a.Commit? {
        CommitNotesSource(u, w, a.actor);
      } else {
        OtherStepNotesSource(u, w, a);
      }
      if NotesItsSource(u, Step(u, w, a)) {
        SourceNotedFrom(u, Step(u, w, a), actions[1..]);
      }
    }
  }

  /** For every run: a completed child notes, at every moment, the very agent row whose completion it took over, exactly
      when no commit completed it from a row it did not note and, once it was completed, no answer to a submission made it
      note another one. */
  lemma NotedRowIsSourceIff(u: Setup, actions: seq<Action>)
    ensures AlwaysNotesItsSource(u, Start(u), actions) <==> NeverPartsFromSource(u, Start(u), actions)
  {
    StartIsGood(u);
    SourceNotedFrom(u, Start(u), actions);
  }

  // ---- When the artifacts of a completed row stay ----------------------------------------------------------------------------------------

  /** A worker's commit lands on this row with an artifact that is not on file yet. */
  predicate FilesNew(u: Setup, w: World, a: Action, id: ChildId) {
    && a.Commit? && Files(u, w, a.actor) && w.store.callers[a.actor].id == id
    && exists i :: 0 <= i < |w.products[a.actor]| && !Stored(Kept(w, id), w.products[a.actor][i])
  }

  predicate NeverFilesNew(u: Setup, w: World, actions: seq<Action>, id: ChildId)
    decreases |actions|
  {
    actions == [] || (!FilesNew(u, w, actions[0], id) && NeverFilesNew(u, Step(u, w, actions[0]), actions[1..], id))
  }

  /** Two artifacts that count as one on file: type, owner and content are the same. */
  predicate SameFile(a: Artifact, b: Artifact) {
    a.kind == b.kind && a.task == b.task && a.content == b.content
  }

  predicate OnFile(have: seq<Artifact>, item: Artifact) {
    exists i :: 0 <= i < |have| && SameFile(have[i], item)
  }

  /** Nothing from position n on repeats what stands before it. */
  predicate NoRepeats(have: seq<Artifact>, n: nat) {
    forall i, k :: 0 <= i < k < |have| && n <= k ==> !SameFile(have[i], have[k])
  }

  lemma StoredIff(have: seq<Artifact>, item: Artifact)
    ensures Stored(have, item) <==> OnFile(have, item)
  {
    if i :| 0 <= i < |have| && SameFile(have[i], item) {
      assert Stored(have, item);
    }
  }

  lemma NoRepeatsMore(have: seq<Artifact>, item: Artifact, n: nat)
    requires n <= |have| && NoRepeats(have, n) && !OnFile(have, item)
    ensures NoRepeats(have + [item], n)
  {
  }

  lemma {:induction false} FilesAll(have: seq<Artifact>, items: seq<Artifact>, n: nat)
    requires n <= |have| && NoRepeats(have, n)
    ensures NoRepeats(Filed(have, items), n)
    ensures forall i :: 0 <= i < |items| ==> OnFile(Filed(have, items), items[i])
    decreases |items|
  {
    if items != [] {
      StoredIff(have, items[0]);
      var next := if Stored(have, items[0]) then have else have + [items[0]];
      if !Stored(have, items[0]) {
        NoRepeatsMore(have, items[0], n);
        assert SameFile(next[|have|], items[0]);
      }
      FilesAll(next, items[1..], n);
      OnFileStays(next, Filed(next, items[1..]), items[0]);
      assert forall i :: 0 < i < |items| ==> items[i] == items[1..][i - 1];
    }
  }

  lemma OnFileStays(have: seq<Artifact>, more: seq<Artifact>, item: Artifact)
    requires have <= more && OnFile(have, item)
    ensures OnFile(more, item)
  {
    var i :| 0 <= i < |have| && SameFile(have[i], item);
    assert more[i] == have[i];
  }

  /** What a worker's commit files: afterwards every artifact it made is on file, and none of them twice. */
  lemma FiledSays(have: seq<Artifact>, items: seq<Artifact>)
    ensures have <= Filed(have, items)
    ensures forall i :: 0 <= i < |items| ==> OnFile(Filed(have, items), items[i])
    ensures NoRepeats(Filed(have, items), |have|)
  {
    FilesAll(have, items, |have|);
  }

  lemma {:induction false} FiledNothingIff(have: seq<Artifact>, items: seq<Artifact>)
    ensures Filed(have, items) == have <==> forall i :: 0 <= i < |items| ==> Stored(have, items[i])
    decreases |items|
  {
    if items != [] {
      if Stored(have, items[0]) {
        FiledNothingIff(have, items[1..]);
        assert forall i :: 0 < i < |items| ==> items[i] == items[1..][i - 1];
      } else {
        assert have + [items[0]] <= Filed(have, items);
      }
    }
  }

  lemma CommitKeepsFileIff(u: Setup, w: World, actor: ActorId, id: ChildId)
    ensures Kept(DoCommit(u, w, actor), id) == Kept(w, id) <==> !FilesNew(u, w, Commit(actor), id)
  {
    if Files(u, w, actor) && w.store.callers[actor].id == id {
      FiledNothingIff(Kept(w, id), w.products[actor]);
    }
  }

  lemma OtherStepKeepsFile(u: Setup, w: World, a: Action, id: ChildId)
    requires !a.Commit?
    ensures Kept(Step(u, w, a), id) == Kept(w, id)
  {
    if !a.NoteRemote? {
      NoteStays(u, w, a);
    }
  }

  lemma StepKeepsFileIff(u: Setup, w: World, a: Action, id: ChildId)
    ensures Kept(Step(u, w, a), id) == Kept(w, id) <==> !FilesNew(u, w, a, id)
    ensures Kept(w, id) <= Kept(Step(u, w, a), id)
  {
    if a.Commit? {
      CommitKeepsFileIff(u, w, a.actor, id);
      FilesMore(u, w, a.actor, id);
    } else {
      OtherStepKeepsFile(u, w, a, id);
    }
  }

  lemma {:induction false} FileStaysFrom(u: Setup, w: World, actions: seq<Action>, id: ChildId)
    ensures Kept(w, id) <= Kept(Run(u, w, actions), id)
    ensures Kept(Run(u, w, actions), id) == Kept(w, id) <==> NeverFilesNew(u, w, actions, id)
    decreases |actions|
  {
    if actions != [] {
      var w' := Step(u, w, actions[0]);
      StepKeepsFileIff(u, w, actions[0], id);
      FileStaysFrom(u, w', actions[1..], id);
    }
  }

  lemma {:induction false} DoneStays(u: Setup, w: World, actions: seq<Action>, id: ChildId)
    requires Inv(u, w) && IsDone(w, id)
    ensures IsDone(Run(u, w, actions), id)
    decreases |actions|
  {
    if actions != [] {
      var a := actions[0];
      StepKeeps(u, w, a);
      if a.Commit? {
        CommitGrows(u, w, a.actor);
      } else {
        OtherStepGrows(u, w, a);
      }
      DoneStays(u, Step(u, w, a), actions[1..], id);
    }
  }

  /** For every run and every way it goes on: an agent row that has completed stays completed, what it has on file is never
      lost, and nothing is added to it exactly when no worker's commit lands on it with an artifact that is not on file. */
  lemma CompletedFileStaysIff(u: Setup, actions: seq<Action>, more: seq<Action>, id: ChildId)
    requires IsDone(Run(u, Start(u), actions), id)
    ensures var w := Run(u, Start(u), actions);
            var w' := Run(u, w, more);
            && IsDone(w', id) && Kept(w, id) <= Kept(w', id)
            && (Kept(w', id) == Kept(w, id) <==> NeverFilesNew(u, w, more, id))
  {
    StartIsGood(u);
    RunKeeps(u, Start(u), actions);
    DoneStays(u, Run(u, Start(u), actions), more, id);
    FileStaysFrom(u, Run(u, Start(u), actions), more, id);
  }
}
