/** SAML request tracking: whatever cookies are presented, and however often, an
    AuthnRequest id answers once, on its own connection and within ten minutes. */
module SamlRequests {
  import opened Common

  const TTL: Time := 10 * MINUTE

  datatype Request = Request(connection: Id, expiresAt: Time)

  /** The flow cookie: a connection and, once a request was sent, its id. */
  datatype Flow = Flow(connection: Id, requestId: Option<Id>)

  /** `issued` are the ids handed out so far; the SAML library draws each of them once. */
  datatype State = State(requests: map<Id, Request>, connections: set<Id>, issued: set<Id>)

  datatype Event =
    | RequestPhase(cookie: Option<Flow>, uuid: Id, now: Time)
    | CallbackPhase(cookie: Option<Flow>, now: Time)
    | Cleanup(now: Time)
    | AddConnection(connection: Id)
    | DestroyConnection(connection: Id)

  predicate Fresh(s: State, e: Event) { e.RequestPhase? ==> e.uuid !in s.issued }

  // ---- The model's operations

  /** Whether the pending scope has the id on that connection. */
  predicate Pending(s: State, id: Id, connection: Id, now: Time) {
    id in s.requests && s.requests[id].connection == connection && s.requests[id].expiresAt >= now
  }

  predicate Consumes(s: State, cookie: Option<Flow>, id: Id, now: Time) {
    cookie.Some? && cookie.value.requestId == Some(id) && Pending(s, id, cookie.value.connection, now)
  }

  /** SamlAuthRequest.consume */
  function AfterConsume(s: State, cookie: Option<Flow>, now: Time): State {
    if cookie.Some? && cookie.value.requestId.Some? && Consumes(s, cookie, cookie.value.requestId.value, now)
    then s.(requests := s.requests - {cookie.value.requestId.value})
    else s
  }

  /** The delete in start: this connection's rows past their time. */
  function WithoutStale(s: State, connection: Id, now: Time): State {
    s.(requests := map id | id in s.requests && !(s.requests[id].connection == connection && s.requests[id].expiresAt <= now) :: s.requests[id])
  }

  /** create! raises for a connection that is gone; what ran before it stays. */
  function AfterStart(s: State, uuid: Id, connection: Id, now: Time): State {
    var rest := WithoutStale(s, connection, now);
    if connection in s.connections
    then rest.(requests := rest.requests[uuid := Request(connection, now + TTL)], issued := s.issued + {uuid})
    else rest.(issued := s.issued + {uuid})
  }

  function Step(s: State, e: Event): State {
    match e
    case RequestPhase(cookie, uuid, now) =>
      if cookie.None? then s else AfterStart(AfterConsume(s, cookie, now), uuid, cookie.value.connection, now)
    case CallbackPhase(cookie, now) => AfterConsume(s, cookie, now)
    case Cleanup(now) => s.(requests := map id | id in s.requests && s.requests[id].expiresAt > now :: s.requests[id])
    case AddConnection(c) => s.(connections := s.connections + {c})
    case DestroyConnection(c) =>
      s.(requests := map id | id in s.requests && s.requests[id].connection != c :: s.requests[id], connections := s.connections - {c})
  }

  class SamlAuthRequests {
    var state: State

    constructor ()
      ensures state == State(map[], {}, {})
    {
      state := State(map[], {}, {});
    }

    method Consume(requestId: Option<Id>, connection: Id, now: Time) returns (ok: bool)
      modifies this
      ensures state == AfterConsume(old(state), Some(Flow(connection, requestId)), now)
      ensures ok <==> requestId.Some? && Pending(old(state), requestId.value, connection, now)
    {
      if requestId.None? {
        return false;
      }
      var id := requestId.value;
      ok := id in state.requests && state.requests[id].connection == connection && state.requests[id].expiresAt >= now;
      if ok {
        state := state.(requests := state.requests - {id});
      }
    }

    method Start(uuid: Id, connection: Id, now: Time) returns (ok: bool)
      modifies this
      ensures state == AfterStart(old(state), uuid, connection, now) && (ok <==> connection in state.connections)
    {
      state := WithoutStale(state, connection, now);
      state := state.(issued := state.issued + {uuid});
      ok := connection in state.connections;
      if ok {
        state := state.(requests := state.requests[uuid := Request(connection, now + TTL)]);
      }
    }

    /** request_phase: the cookie's id goes, a new one comes, and the cookie names it. */
    method RequestPhase(cookie: Option<Flow>, uuid: Id, now: Time) returns (written: Option<Flow>)
      modifies this
      ensures state == Step(old(state), Event.RequestPhase(cookie, uuid, now))
      ensures written == if cookie.Some? && cookie.value.connection in old(state).connections
                         then Some(Flow(cookie.value.connection, Some(uuid))) else None
    {
      if cookie.None? {
        return None;
      }
      var connection := cookie.value.connection;
      var _ := Consume(cookie.value.requestId, connection, now);
      var ok := Start(uuid, connection, now);
      return if ok then Some(Flow(connection, Some(uuid))) else None;
    }

    /** callback_phase: the id to match the response against, or refusal. */
    method CallbackPhase(cookie: Option<Flow>, now: Time) returns (matched: Option<Id>)
      modifies this
      ensures state == Step(old(state), Event.CallbackPhase(cookie, now))
      ensures forall id: Id :: matched == Some(id) <==> Consumes(old(state), cookie, id, now)
    {
      if cookie.None? {
        return None;
      }
      var ok := Consume(cookie.value.requestId, cookie.value.connection, now);
      return if ok then cookie.value.requestId else None;
    }
  }

  // ---- One use, one connection, ten minutes

  predicate Passes(s: State, e: Event, id: Id) {
    e.CallbackPhase? && Consumes(s, e.cookie, id, e.now)
  }

  predicate AllFresh(s: State, run: seq<Event>)
    decreases run
  {
    run == [] || (Fresh(s, run[0]) && AllFresh(Step(s, run[0]), run[1..]))
  }

  function Run(s: State, run: seq<Event>): State
    decreases run
  {
    if run == [] then s else Run(Step(s, run[0]), run[1..])
  }

  function TimesPassed(s: State, run: seq<Event>, id: Id): nat
    decreases run
  {
    if run == [] then 0 else (if Passes(s, run[0], id) then 1 else 0) + TimesPassed(Step(s, run[0]), run[1..], id)
  }

  /** Rows only exist for ids handed out. */
  ghost predicate Inv(s: State) {
    s.requests.Keys <= s.issued
  }

  lemma StepKeepsInv(s: State, e: Event)
    requires Inv(s)
    ensures Inv(Step(s, e)) && s.issued <= Step(s, e).issued
  {
  }

  lemma {:induction false} SpentNeverPasses(s: State, run: seq<Event>, id: Id)
    requires Inv(s) && id in s.issued && id !in s.requests && AllFresh(s, run)
    ensures TimesPassed(s, run, id) == 0
    decreases run
  {
    if run != [] {
      StepKeepsInv(s, run[0]);
      SpentNeverPasses(Step(s, run[0]), run[1..], id);
    }
  }

  /** Replays of a cookie are harmless: no id passes the callback check twice. */
  lemma {:induction false} PassesAtMostOnce(s: State, run: seq<Event>, id: Id)
    requires Inv(s) && AllFresh(s, run)
    ensures TimesPassed(s, run, id) <= 1
    decreases run
  {
    if run != [] {
      StepKeepsInv(s, run[0]);
      if Passes(s, run[0], id) {
        SpentNeverPasses(Step(s, run[0]), run[1..], id);
      } else {
        PassesAtMostOnce(Step(s, run[0]), run[1..], id);
      }
    }
  }

  /** Event `j` of the run started `id` as the row `row`. */
  ghost predicate StartedBy(run: seq<Event>, j: nat, id: Id, row: Request) {
    && j < |run| && run[j].RequestPhase? && run[j].uuid == id && run[j].now + TTL == row.expiresAt
    && run[j].cookie.Some? && run[j].cookie.value.connection == row.connection
  }

  predicate Holds(s: State, id: Id, row: Request) { id in s.requests && s.requests[id] == row }

  lemma {:induction false} RowsWereStarted(s: State, run: seq<Event>, id: Id, row: Request)
    requires Holds(Run(s, run), id, row)
    ensures Holds(s, id, row) || exists j: nat :: StartedBy(run, j, id, row)
    decreases run
  {
    if run != [] {
      var s', rest := Step(s, run[0]), run[1..];
      RowsWereStarted(s', rest, id, row);
      if !Holds(s', id, row) {
        var j: nat :| StartedBy(rest, j, id, row);
        assert rest[j] == run[j + 1];
        assert StartedBy(run, j + 1, id, row);
      } else if !Holds(s, id, row) {
        assert StartedBy(run, 0, id, row);
      }
    }
  }

  /** A pass answers a request some request phase sent on that very connection,
      at most ten minutes before; whoever presents the cookie. */
  lemma PassWasStarted(connections: set<Id>, run: seq<Event>, e: Event, id: Id)
    requires Passes(Run(State(map[], connections, {}), run), e, id)
    ensures exists j: nat :: j < |run| && run[j].RequestPhase? && run[j].uuid == id && e.now <= run[j].now + 10 * MINUTE
                             && run[j].cookie.Some? && run[j].cookie.value.connection == e.cookie.value.connection
  {
    var s := State(map[], connections, {});
    var row := Run(s, run).requests[id];
    RowsWereStarted(s, run, id, row);
    var j: nat :| StartedBy(run, j, id, row);
  }

  /** The event leaves the request alone: it presents no cookie with the id, and it comes
      before the request's time is up and does not destroy its connection. */
  predicate Spares(e: Event, id: Id, row: Request) {
    match e
    case RequestPhase(cookie, uuid, now) => uuid != id && now < row.expiresAt && !(cookie.Some? && cookie.value.requestId == Some(id))
    case CallbackPhase(cookie, now) => !(cookie.Some? && cookie.value.requestId == Some(id))
    case Cleanup(now) => now < row.expiresAt
    case AddConnection(_) => true
    case DestroyConnection(c) => c != row.connection
  }

  lemma {:induction false} SparedStays(s: State, run: seq<Event>, id: Id, row: Request)
    requires Holds(s, id, row) && forall e :: e in run ==> Spares(e, id, row)
    ensures Holds(Run(s, run), id, row)
    decreases run
  {
    if run != [] {
      assert run[0] in run && forall e :: e in run[1..] ==> e in run;
      SparedStays(Step(s, run[0]), run[1..], id, row);
    }
  }

  /** A request that nobody consumed and whose connection still exists passes for ten
      minutes, whatever else happens meanwhile. */
  lemma StartedPasses(s: State, cookie: Flow, uuid: Id, now: Time, run: seq<Event>, later: Time)
    requires cookie.connection in s.connections && later <= now + 10 * MINUTE
    requires forall e :: e in run ==> Spares(e, uuid, Request(cookie.connection, now + 10 * MINUTE))
    ensures var s' := Run(Step(s, RequestPhase(Some(cookie), uuid, now)), run);
            Passes(s', CallbackPhase(Some(Flow(cookie.connection, Some(uuid))), later), uuid)
  {
    SparedStays(Step(s, RequestPhase(Some(cookie), uuid, now)), run, uuid, Request(cookie.connection, now + TTL));
  }

  // ---- One browser

  /** A browser with its cookie jar, and the ids it started. */
  datatype World = World(s: State, jar: Option<Flow>, mine: set<Id>)

  /** What the browser does, always with its latest cookie; `Elsewhere` is anybody else. */
  datatype Move =
    | Choose(connection: Id, now: Time)   // sso#create writes a cookie without an id
    | Go(uuid: Id, now: Time)             // the request phase
    | Return(now: Time)                   // the callback phase
    | Drop(now: Time)                     // sso#callback and sso#failure delete the cookie
    | Elsewhere(event: Event, now: Time)

  predicate Goes(w: World, m: Move) {
    m.Go? && w.jar.Some? && w.jar.value.connection in w.s.connections
  }

  function Next(w: World, m: Move): World {
    match m
    case Choose(c, _) => w.(jar := Some(Flow(c, None)))
    case Go(uuid, now) =>
      var s := Step(w.s, RequestPhase(w.jar, uuid, now));
      if Goes(w, m) then World(s, Some(Flow(w.jar.value.connection, Some(uuid))), w.mine + {uuid}) else w.(s := s)
    case Return(now) => w.(s := Step(w.s, CallbackPhase(w.jar, now)))
    case Drop(_) => w.(jar := None)
    case Elsewhere(e, _) => w.(s := Step(w.s, e))
  }

  predicate MoveFresh(w: World, m: Move) {
    match m
    case Go(uuid, now) => uuid !in w.s.issued
    case Elsewhere(e, _) => Fresh(w.s, e)
    case _ => true
  }

  /** The browser's ids in the pending scope. */
  function Open(w: World, now: Time): set<Id> {
    set id | id in w.mine && id in w.s.requests && Pending(w.s, id, w.s.requests[id].connection, now)
  }

  /** The browser's id that its cookie would consume. */
  function Named(w: World): set<Id> {
    set id | id in w.mine && id in w.s.requests && w.jar == Some(Flow(w.s.requests[id].connection, Some(id)))
  }

  ghost predicate WorldInv(w: World) {
    Inv(w.s) && w.mine <= w.s.issued
  }

  /** The rows of the cookie's connection that start deletes as stale. The scopes share
      one instant: a row that expires right now is pending and stale. */
  function Lapsing(w: World, now: Time): set<Id> {
    set id | id in w.s.requests && w.jar.Some? && w.s.requests[id].connection == w.jar.value.connection && w.s.requests[id].expiresAt <= now
  }

  /** Starting a request leaves the new id as the only pending one exactly when every
      other pending id is the one the cookie names or lapses on that connection right now. */
  lemma OnePendingIff(w: World, m: Move)
    requires Goes(w, m) && MoveFresh(w, m) && WorldInv(w)
    ensures Open(Next(w, m), m.now) == {m.uuid} <==> Open(w, m.now) <= Named(w) + Lapsing(w, m.now)
  {
    var w' := Next(w, m);
    forall id | id != m.uuid
      ensures id in Open(w', m.now) <==> id in Open(w, m.now) && id !in Named(w) && id !in Lapsing(w, m.now)
    {
    }
    assert m.uuid in Open(w', m.now) && m.uuid !in Open(w, m.now);
    if Open(w', m.now) == {m.uuid} {
      forall id | id in Open(w, m.now) ensures id in Named(w) + Lapsing(w, m.now) {
        assert id != m.uuid && id !in Open(w', m.now);
      }
    }
  }

  /** The two moves that can lose track of a pending id: choosing a connection again, dropping the cookie. */
  predicate Abandons(w: World, m: Move) {
    (m.Choose? || m.Drop?) && Open(w, m.now) != {}
  }

  ghost predicate Tidy(w: World, now: Time) {
    Open(w, now) <= Named(w)
  }

  /** A row of the browser's is deleted or stays as it is. */
  lemma RowsStay(w: World, m: Move, id: Id)
    requires WorldInv(w) && MoveFresh(w, m) && id in w.mine && id in Next(w, m).s.requests
    ensures id in w.s.requests && Next(w, m).s.requests[id] == w.s.requests[id]
    ensures m.Go? && Goes(w, m) ==> id !in Named(w)
  {
  }

  /** Every other move keeps the cookie naming all that is pending; these two keep it
      exactly when nothing is. */
  lemma TidyUnlessAbandoned(w: World, m: Move)
    requires WorldInv(w) && MoveFresh(w, m) && Tidy(w, m.now)
    ensures WorldInv(Next(w, m)) && (Tidy(Next(w, m), m.now) <==> !Abandons(w, m))
  {
    if Abandons(w, m) {
      var id :| id in Open(w, m.now);
      assert id in Open(Next(w, m), m.now) && id !in Named(Next(w, m));
    } else {
      var w' := Next(w, m);
      forall id | id in Open(w', m.now) ensures id in Named(w') {
        if id in w.mine {
          RowsStay(w, m, id);
          assert id in Open(w, m.now);
        }
      }
    }
  }

  function After(w: World, moves: seq<Move>): World
    decreases moves
  {
    if moves == [] then w else After(Next(w, moves[0]), moves[1..])
  }

  /** Fresh ids, a clock that does not go back, and no pending id abandoned. */
  predicate Careful(w: World, moves: seq<Move>, from: Time, to: Time)
    decreases moves
  {
    if moves == [] then from <= to
    else from <= moves[0].now && MoveFresh(w, moves[0]) && !Abandons(w, moves[0])
         && Careful(Next(w, moves[0]), moves[1..], moves[0].now, to)
  }

  /** A browser that never abandons a pending request has at most one, whatever others do. */
  lemma {:induction false} AtMostOnePending(w: World, moves: seq<Move>, from: Time, to: Time)
    requires WorldInv(w) && Tidy(w, from) && Careful(w, moves, from, to)
    ensures forall a, b :: a in Open(After(w, moves), to) && b in Open(After(w, moves), to) ==> a == b
    decreases moves
  {
    if moves == [] {
      assert Open(w, to) <= Open(w, from);
    } else {
      assert Open(w, moves[0].now) <= Open(w, from);
      TidyUnlessAbandoned(w, moves[0]);
      AtMostOnePending(Next(w, moves[0]), moves[1..], moves[0].now, to);
    }
  }

  /** Choosing again at the very instant the first id expires abandons it: it is still pending. */
  lemma ExpiringIdIsAbandoned()
    ensures var w := After(World(State(map[], {0, 1}, {}), None, {}), [Choose(0, 0), Go(1, 0)]);
            Abandons(w, Choose(1, TTL)) && Open(Next(Next(w, Choose(1, TTL)), Go(2, TTL)), TTL) == {1, 2}
  {
    var w0 := World(State(map[], {0, 1}, {}), None, {});
    var w1 := Next(w0, Choose(0, 0));
    var w2 := Next(w1, Go(1, 0));
    assert After(w2, []) == w2 && After(w1, [Go(1, 0)]) == w2;
    assert w2.s.requests == map[1 := Request(0, TTL)];
    assert 1 in Open(w2, TTL);
    var w3 := Next(Next(w2, Choose(1, TTL)), Go(2, TTL));
    assert w3.s.requests == map[1 := Request(0, TTL), 2 := Request(1, TTL + TTL)];
  }

  /** One that starts over in the middle does not: two pending ids. */
  lemma StartingOverLeavesTwo()
    ensures var moves := [Choose(0, 0), Go(1, 0), Choose(0, 1), Go(2, 1)];
            var w := After(World(State(map[], {0}, {}), None, {}), moves);
            w.jar == Some(Flow(0, Some(2))) && Open(w, 1) == {1, 2}
  {
    var w0 := World(State(map[], {0}, {}), None, {});
    var w1 := Next(w0, Choose(0, 0));
    var w2 := Next(w1, Go(1, 0));
    var w3 := Next(w2, Choose(0, 1));
    var w4 := Next(w3, Go(2, 1));
    assert w2.s.requests == map[1 := Request(0, TTL)];
    assert w4.s.requests == map[1 := Request(0, TTL), 2 := Request(0, 1 + TTL)];
    assert After(w4, []) == w4;
    assert After(w3, [Go(2, 1)]) == w4;
    assert After(w2, [Choose(0, 1), Go(2, 1)]) == w4;
    assert After(w1, [Go(1, 0), Choose(0, 1), Go(2, 1)]) == w4;
  }
}
