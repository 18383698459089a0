/** The ledger of idempotent commands: a record per (actor, command, aggregate, key) that says whether the work is
    under way, done or failed, and the command wrapper that reserves, works and settles the record. */
module Ledger {
  import opened Wrappers
  import opened StateMachine

  /** What the request hash stands for: the aggregate and the request body. */
  datatype Request = Request(aggregate: string, body: string)

  datatype Status = InProgress | Done | Broken

  datatype Record = Record(request: Request, status: Status, response: string, code: Option<ErrorCode>)

  /** The records of one (actor, command, key), by aggregate: the rest of the unique key. */
  type Table = map<string, Record>

  datatype Scope = Scope(actor: string, command: string, key: string)

  const MIN_KEY_LENGTH: nat := 8

  datatype Verdict = Refused(code: ErrorCode) | Replay(response: string) | Retry | Vacant

  datatype Outcome = Success(result: string) | Failure(code: ErrorCode)

  datatype Answer = Raised(code: ErrorCode) | Returned(result: string) | Replayed(response: string)

  predicate TableOk(t: Table) {
    forall a :: a in t ==> t[a].request.aggregate == a
  }

  /** The row the lookup by key happens to find first, if there is any. */
  predicate Picks(t: Table, pick: Option<string>) {
    if t == map[] then pick.None? else pick.Some? && pick.value in t
  }

  /** What reserve makes of the row it finds. */
  function Examine(t: Table, pick: Option<string>, request: Request): Verdict
    requires Picks(t, pick)
  {
    if pick.None? then Vacant
    else
      var r := t[pick.value];
      if r.request != request then Refused(IdempotencyConflict)
      else
        match r.status
        case InProgress => Refused(Conflict)
        case Done => Replay(r.response)
        case Broken => Retry
  }

  function Reserved(request: Request): Record {
    Record(request, InProgress, "", None)
  }

  /** The row as complete or fail leave it, whatever it held before. */
  function Settle(r: Record, outcome: Outcome, sanitize: string -> string): Record {
    match outcome
    case Success(result) => r.(status := Done, response := sanitize(result), code := None)
    case Failure(code) => r.(status := Broken, code := Some(code))
  }

  class IdempotencyStore {
    const sanitize: string -> string
    var tables: map<Scope, Table>

    constructor (sanitize: string -> string)
      ensures this.sanitize == sanitize && tables == map[]
    {
      this.sanitize := sanitize;
      tables := map[];
    }

    function TableOf(s: Scope): Table
      reads this
    {
      if s in tables then tables[s] else map[]
    }

    /** Reserves the key or says why not; only a vacant key leaves a new row. */
    method Reserve(s: Scope, request: Request) returns (v: Verdict)
      modifies this`tables
      ensures |s.key| < MIN_KEY_LENGTH ==> v == Refused(IdempotencyKeyRequired) && tables == old(tables)
      ensures |s.key| >= MIN_KEY_LENGTH ==>
                exists pick :: Picks(old(TableOf(s)), pick) && v == Examine(old(TableOf(s)), pick, request)
      ensures tables == if v.Vacant? then old(tables)[s := old(TableOf(s))[request.aggregate := Reserved(request)]] else old(tables)
    {
      if |s.key| < MIN_KEY_LENGTH {
        return Refused(IdempotencyKeyRequired);
      }
      var t := TableOf(s);
      var pick: Option<string> := None;
      if t != map[] {
        var a :| a in t.Keys;
        pick := Some(a);
      }
      assert Picks(t, pick);
      v := Examine(t, pick, request);
      if v == Vacant {
        tables := tables[s := t[request.aggregate := Reserved(request)]];
      }
    }

    method Finish(s: Scope, aggregate: string, outcome: Outcome)
      modifies this`tables
      ensures aggregate !in old(TableOf(s)) ==> tables == old(tables)
      ensures aggregate in old(TableOf(s)) ==>
                tables == old(tables)[s := old(TableOf(s))[aggregate := Settle(old(TableOf(s))[aggregate], outcome, sanitize)]]
    {
      var t := TableOf(s);
      if aggregate in t {
        tables := tables[s := t[aggregate := Settle(t[aggregate], outcome, sanitize)]];
      }
    }

    /** One command with nobody else about: outcome is what its work would do. While the key has no row but this aggregate's,
        that row alone decides. */
    method ExecuteIdempotent(s: Scope, request: Request, outcome: Outcome) returns (answer: Answer, worked: bool)
      requires TableOk(TableOf(s))
      modifies this`tables
      ensures TableOk(TableOf(s))
      ensures !worked ==> tables == old(tables)
      ensures worked ==>
                && |s.key| >= MIN_KEY_LENGTH
                && answer == (if outcome.Success? then Returned(outcome.result) else Raised(outcome.code))
                && (old(TableOf(s)) == map[]
                    || (request.aggregate in old(TableOf(s)) && old(TableOf(s))[request.aggregate].request == request
                        && old(TableOf(s))[request.aggregate].status == Broken))
                && request.aggregate in TableOf(s)
                && TableOf(s)[request.aggregate].request == request
                && TableOf(s)[request.aggregate].status == (if outcome.Success? then Done else Broken)
                && (outcome.Success? ==> TableOf(s)[request.aggregate].response == sanitize(outcome.result))
                && TableOf(s)[request.aggregate].code == (if outcome.Success? then None else Some(outcome.code))
                && (forall a :: a in TableOf(s) && a != request.aggregate ==> a in old(TableOf(s)) && TableOf(s)[a] == old(TableOf(s))[a])
                && (forall other :: other in tables && other != s ==> other in old(tables) && tables[other] == old(tables)[other])
      ensures |s.key| < MIN_KEY_LENGTH ==> !worked && answer == Raised(IdempotencyKeyRequired)
      ensures |s.key| >= MIN_KEY_LENGTH && old(TableOf(s)) == map[] ==> worked
      ensures |s.key| >= MIN_KEY_LENGTH && old(TableOf(s)) != map[] && request.aggregate !in old(TableOf(s)) ==>
                !worked && answer == Raised(IdempotencyConflict)
      ensures |s.key| >= MIN_KEY_LENGTH && old(TableOf(s)).Keys == {request.aggregate} ==>
                var r := old(TableOf(s))[request.aggregate];
                if r.request != request then !worked && answer == Raised(IdempotencyConflict)
                else if r.status == InProgress then !worked && answer == Raised(Conflict)
                else if r.status == Done then !worked && answer == Replayed(r.response)
                else worked
      ensures !worked && answer.Replayed? ==>
                && request.aggregate in TableOf(s) && TableOf(s)[request.aggregate].request == request
                && TableOf(s)[request.aggregate].status == Done
                && answer.response == TableOf(s)[request.aggregate].response
    {
      var v := Reserve(s, request);
      match v
      case Refused(code) => answer, worked := Raised(code), false;
      case Replay(response) => answer, worked := Replayed(response), false;
      case Retry =>
        Finish(s, request.aggregate, outcome);
        answer, worked := if outcome.Success? then Returned(outcome.result) else Raised(outcome.code), true;
      case Vacant =>
        Finish(s, request.aggregate, outcome);
        answer, worked := if outcome.Success? then Returned(outcome.result) else Raised(outcome.code), true;
    }
  }

  /** What the lookup makes of the row it finds, and of none. */
  lemma VerdictSays(t: Table, pick: Option<string>, request: Request)
    requires Picks(t, pick)
    ensures var v := Examine(t, pick, request);
            && (v == Vacant <==> t == map[])
            && (t != map[] ==>
                  var r := t[pick.value];
                  && (v == Refused(IdempotencyConflict) <==> r.request != request)
                  && (v == Refused(Conflict) <==> r.request == request && r.status == InProgress)
                  && (v == Replay(r.response) <==> r.request == request && r.status == Done)
                  && (v == Retry <==> r.request == request && r.status == Broken))
  {
  }

  /** A key that is on record only for other requests never gets past the lookup. */
  lemma OtherRequestIsRefused(t: Table, pick: Option<string>, request: Request)
    requires Picks(t, pick) && t != map[] && forall a :: a in t ==> t[a].request != request
    ensures Examine(t, pick, request) == Refused(IdempotencyConflict)
  {
    assert t[pick.value].request != request;
  }
}
