/** The hub over its table of mesh connections: adding, removing, scanning, broadcasting and tunnelling. */
module Hubs {
  import opened Messages
  import opened Sequences
  import opened Balancers
  import opened MeshIndexes
  import opened Handlers
  import W = Withdraws

  const TUNNEL_RETRY_COUNT := 32

  /** The entry `Next` would read after `i` more calls. */
  function EntryAfter(b: Rota, i: nat): string
    requires InRange(b) && b.uuids != []
  {
    b.uuids[After(b.index, |b.uuids|, i)]
  }

  /** With no more entries than tries, one working entry anywhere is reached. */
  lemma OneEntrySuffices(b: Rota, live: set<string>, p: nat)
    requires InRange(b) && p < |b.uuids| <= TUNNEL_RETRY_COUNT && b.uuids[p] in live
    ensures exists i :: 0 <= i < TUNNEL_RETRY_COUNT && EntryAfter(b, i) in live
  {
    var i := ReachedWithinOneTurn(b.index, |b.uuids|, p);
    assert EntryAfter(b, i) in live;
  }

  /** The first `n` calls of `Next` meet none of `live`. */
  ghost predicate NoneOf(b: Rota, live: set<string>, n: nat)
    requires InRange(b) && b.uuids != []
  {
    forall i :: 0 <= i < n ==> EntryAfter(b, i) !in live
  }

  function StepMany(b: Rota, n: nat): (r: Rota)
    requires InRange(b) && b.uuids != []
    ensures InRange(r) && r.uuids == b.uuids
  {
    b.(index := After(b.index, |b.uuids|, n))
  }

  /** The first `n` tries missed. */
  ghost predicate Missed(was: Rota, live: set<string>, n: nat, now: Rota)
    requires InRange(was) && was.uuids != []
  {
    NoneOf(was, live, n) && now == StepMany(was, n)
  }

  lemma MissedOneMore(was: Rota, live: set<string>, n: nat)
    requires InRange(was) && was.uuids != [] && NoneOf(was, live, n)
    ensures EntryAfter(StepMany(was, n), 0) == EntryAfter(was, n)
    ensures Stepped(StepMany(was, n)) == StepMany(was, n + 1)
    ensures EntryAfter(was, n) !in live ==> NoneOf(was, live, n + 1)
  {
    AfterSplit(was.index, |was.uuids|, n, 1);
    assert After(NextPos(StepMany(was, n).index, |was.uuids|), |was.uuids|, 0) == NextPos(StepMany(was, n).index, |was.uuids|);
  }

  /** Each capability has a balancer of its own, in range. */
  ghost predicate Apart(bs: map<string, Balancer>)
    reads bs.Values
  {
    forall c :: c in bs ==> bs[c].capability == c && bs[c].Valid()
  }

  ghost function Rotas(bs: map<string, Balancer>): map<string, Rota>
    reads bs.Values
  {
    map c | c in bs :: bs[c].Value()
  }

  /** Handlers stand under the UUID of the peer they are connected to; `addConnection` is always given a connection. */
  ghost predicate Tabled(ms: map<string, ConnectionHandler>) {
    forall u :: u in ms ==> ms[u].uuid == u && ms[u].conn != null && ms[u].conn.peer == u && ms[u].signaler.peer == u
  }

  ghost function Links(ms: map<string, ConnectionHandler>): set<Link> {
    set h | h in ms.Values && h.conn != null :: h.conn
  }

  ghost function Interests(ms: map<string, ConnectionHandler>): map<string, seq<string>> {
    map u | u in ms :: ms[u].interests
  }

  lemma EntryReplaced(ms: map<string, ConnectionHandler>, h: ConnectionHandler)
    requires Tabled(ms) && h.conn != null && h.conn.peer == h.uuid && h.signaler.peer == h.uuid
    ensures Tabled(ms[h.uuid := h])
    ensures Interests(ms[h.uuid := h]) == Interests(ms)[h.uuid := h.interests]
  {
  }

  lemma EntryRemoved(ms: map<string, ConnectionHandler>, uuid: string)
    requires Tabled(ms)
    ensures Tabled(ms - {uuid})
    ensures Interests(ms - {uuid}) == Interests(ms) - {uuid}
  {
  }

  /** The UUIDs of the closed connections. */
  ghost function Shut(ms: map<string, ConnectionHandler>): set<string>
    reads Links(ms)`closed
  {
    set u | u in ms && ms[u].conn != null && ms[u].conn.closed
  }

  /** What each connection has been sent, by UUID. */
  ghost function SentSoFar(ms: map<string, ConnectionHandler>): map<string, seq<Message>>
    reads Links(ms)`sent
  {
    map u | u in ms && ms[u].conn != null :: ms[u].conn.sent
  }

  /** A send on the connection under `uuid` gets through: the peer has not withdrawn and the link works. */
  ghost predicate Takes(ms: map<string, ConnectionHandler>, uuid: string)
    reads (set h | h in ms.Values :: h.signaler)`peerWithdrawn, Links(ms)`working
  {
    uuid in ms && ms[uuid].conn != null && ms[uuid].conn.working && !ms[uuid].signaler.peerWithdrawn
  }

  /** A send on this connection fails: the peer has not withdrawn, but the link does not work. */
  ghost predicate Fails(h: ConnectionHandler)
    reads h.signaler`peerWithdrawn, (if h.conn == null then {} else {h.conn})`working
  {
    h.conn != null && !h.conn.working && !h.signaler.peerWithdrawn
  }

  ghost function Failing(ms: map<string, ConnectionHandler>): set<string>
    reads (set h | h in ms.Values :: h.signaler)`peerWithdrawn, Links(ms)`working
  {
    set u | u in ms && Fails(ms[u])
  }

  /** The errors each connection has offered, by UUID. */
  ghost function ErrorsSoFar(ms: map<string, ConnectionHandler>): map<string, nat>
    reads ms.Values`errors
  {
    map u | u in ms :: ms[u].errors
  }

  /** One more error for each of `failing`. */
  ghost function Blamed(errors: map<string, nat>, failing: set<string>): map<string, nat> {
    map u | u in errors :: if u in failing then errors[u] + 1 else errors[u]
  }

  lemma BlamedOneMore(errors: map<string, nat>, failing: set<string>, rest: set<string>, uuid: string)
    requires uuid in rest && uuid in errors
    ensures var sofar := Blamed(errors, failing - rest);
      Blamed(errors, failing - (rest - {uuid})) == if uuid in failing then sofar[uuid := sofar[uuid] + 1] else sofar
  {
  }

  lemma BlamedEnds(errors: map<string, nat>, failing: set<string>, all: set<string>)
    requires failing <= all
    ensures Blamed(errors, failing - all) == errors
    ensures Blamed(errors, failing - {}) == Blamed(errors, failing)
  {
    assert failing - {} == failing;
  }

  /** One more message for `uuid` and nothing for anyone else. */
  ghost function Delivered(sent: map<string, seq<Message>>, uuid: string, msg: Message): map<string, seq<Message>>
    requires uuid in sent
  {
    sent[uuid := sent[uuid] + [msg]]
  }

  /** What a tunnelled send comes to. Reading an empty list is out of range. */
  datatype TunnelResult = Tunneled | NotEstablished | OutOfRange

  /** `failed` tries missed; if one more was made it hit, and its entry alone got the message. */
  ghost predicate Tunnelled(was: Rota, live: set<string>, sentBefore: map<string, seq<Message>>, msg: Message,
                            ok: bool, failed: nat, now: Rota, sentAfter: map<string, seq<Message>>)
    requires InRange(was) && was.uuids != []
  {
    && NoneOf(was, live, failed)
    && now == StepMany(was, if ok then failed + 1 else failed)
    && if ok then
         failed < TUNNEL_RETRY_COUNT && EntryAfter(was, failed) in live && EntryAfter(was, failed) in sentBefore
           && sentAfter == Delivered(sentBefore, EntryAfter(was, failed), msg)
       else failed == TUNNEL_RETRY_COUNT && sentAfter == sentBefore
  }

  /** One try: the list steps on, and its entry gets the message if it is live. */
  ghost predicate Tried(was: Rota, live: set<string>, sentBefore: map<string, seq<Message>>, msg: Message,
                        hit: bool, now: Rota, sentAfter: map<string, seq<Message>>)
    requires InRange(was) && was.uuids != []
  {
    var uuid := EntryAfter(was, 0);
    && now == Stepped(was) && (hit <==> uuid in live) && (hit ==> uuid in sentBefore)
    && sentAfter == if hit then Delivered(sentBefore, uuid, msg) else sentBefore
  }

  lemma TryAgain(was: Rota, live: set<string>, n: nat, now: Rota, sentBefore: map<string, seq<Message>>, msg: Message,
                 hit: bool, next: Rota, sentAfter: map<string, seq<Message>>)
    requires InRange(was) && was.uuids != [] && n < TUNNEL_RETRY_COUNT
    requires Missed(was, live, n, now) && Tried(now, live, sentBefore, msg, hit, next, sentAfter)
    ensures if hit then Tunnelled(was, live, sentBefore, msg, true, n, next, sentAfter)
            else Missed(was, live, n + 1, next) && sentAfter == sentBefore
  {
    MissedOneMore(was, live, n);
  }

  /** The same for the errors: a try that misses may cost one, a hit does not. */
  lemma ChargeAgain(was: Rota, live: set<string>, n: nat, now: Rota, errors: map<string, nat>, failing: set<string>, hit: bool)
    requires InRange(was) && was.uuids != [] && Missed(was, live, n, now) && (hit ==> EntryAfter(now, 0) !in failing)
    ensures Charged(ChargedTries(errors, failing, was, n), failing, EntryAfter(now, 0)) ==
      ChargedTries(errors, failing, was, if hit then n else n + 1)
  {
    MissedOneMore(was, live, n);
  }

  /** A tunnelled send succeeds if and only if one of the next 32 entries is live. */
  lemma TunnelledIff(was: Rota, live: set<string>, sentBefore: map<string, seq<Message>>, msg: Message,
                     ok: bool, failed: nat, now: Rota, sentAfter: map<string, seq<Message>>)
    requires InRange(was) && was.uuids != []
    requires Tunnelled(was, live, sentBefore, msg, ok, failed, now, sentAfter)
    ensures ok <==> exists i :: 0 <= i < TUNNEL_RETRY_COUNT && EntryAfter(was, i) in live
  {
  }

  /** One more error for `uuid` if its link fails. */
  function Charged(errors: map<string, nat>, failing: set<string>, uuid: string): map<string, nat> {
    if uuid in failing && uuid in errors then errors[uuid := errors[uuid] + 1] else errors
  }

  /** The errors after `n` tries from a balancer's state on. */
  function ChargedTries(errors: map<string, nat>, failing: set<string>, b: Rota, n: nat): map<string, nat>
    requires InRange(b) && b.uuids != []
  {
    if n == 0 then errors else Charged(ChargedTries(errors, failing, b, n - 1), failing, EntryAfter(b, n - 1))
  }

  /** How many of the first `n` tries are made on `uuid`. */
  function TriesOn(b: Rota, uuid: string, n: nat): nat
    requires InRange(b) && b.uuids != []
  {
    if n == 0 then 0 else TriesOn(b, uuid, n - 1) + if EntryAfter(b, n - 1) == uuid then 1 else 0
  }

  /** Every try on a connection whose link fails leaves one error with it, and no other try does. */
  lemma {:induction false} ChargedOncePerTry(errors: map<string, nat>, failing: set<string>, b: Rota, n: nat, uuid: string)
    requires InRange(b) && b.uuids != [] && uuid in errors
    ensures ChargedTries(errors, failing, b, n).Keys == errors.Keys
    ensures ChargedTries(errors, failing, b, n)[uuid] == errors[uuid] + if uuid in failing then TriesOn(b, uuid, n) else 0
  {
    if n > 0 {
      ChargedOncePerTry(errors, failing, b, n - 1, uuid);
    }
  }

  function WithBalancer(rotas: map<string, Rota>, c: string): map<string, Rota> {
    if c in rotas then rotas else rotas[c := NO_ROTA]
  }

  lemma EnlistedOne(rotas: map<string, Rota>, uuid: string, c: string)
    ensures var with := WithBalancer(rotas, c); with[c := Added(with[c], uuid)] == EnlistOne(rotas, uuid, c)
  {
  }

  /** `uuid` is taken out of the balancers of all capabilities but `rest`. */
  function DelistBut(rotas: map<string, Rota>, rest: set<string>, uuid: string): map<string, Rota> {
    map c | c in rotas :: if c in rest then rotas[c] else Removed(rotas[c], uuid)
  }

  lemma DelistOneMore(rotas: map<string, Rota>, rest: set<string>, c: string, uuid: string)
    requires c in rest && c in rotas
    ensures DelistBut(rotas, rest - {c}, uuid) ==
      DelistBut(rotas, rest, uuid)[c := Removed(DelistBut(rotas, rest, uuid)[c], uuid)]
  {
  }

  /** Every connection in `live` is sent the message once more. */
  ghost function Broadcast(sent: map<string, seq<Message>>, live: set<string>, msg: Message): map<string, seq<Message>> {
    map u | u in sent :: if u in live then sent[u] + [msg] else sent[u]
  }

  lemma BroadcastOneMore(sent: map<string, seq<Message>>, live: set<string>, rest: set<string>, uuid: string, msg: Message)
    requires uuid in rest && uuid in sent
    ensures var sofar := Broadcast(sent, live - rest, msg);
      Broadcast(sent, live - (rest - {uuid}), msg) == if uuid in live then Delivered(sofar, uuid, msg) else sofar
  {
  }

  lemma BroadcastEnds(sent: map<string, seq<Message>>, live: set<string>, all: set<string>, msg: Message)
    requires live <= all
    ensures Broadcast(sent, live - all, msg) == sent
    ensures Broadcast(sent, live - {}, msg) == Broadcast(sent, live, msg)
  {
    assert live - {} == live;
  }

  lemma BroadcastMeans(ms: map<string, ConnectionHandler>, before: map<string, seq<Message>>, live: set<string>,
                       errors: map<string, nat>, failing: set<string>, msg: Message)
    requires Tabled(ms) && failing == Failing(ms) && forall u :: u in live <==> Takes(ms, u)
    requires SentSoFar(ms) == Broadcast(before, live, msg) && ErrorsSoFar(ms) == Blamed(errors, failing)
    ensures before.Keys == ms.Keys && errors.Keys == ms.Keys
    ensures forall u :: u in ms ==>
      var h := ms[u];
      && h.conn.sent == before[u] + (if h.conn.working && !h.signaler.peerWithdrawn then [msg] else [])
      && h.errors == errors[u] + if !h.conn.working && !h.signaler.peerWithdrawn then 1 else 0
  {
    assert before.Keys == SentSoFar(ms).Keys == ms.Keys;
    assert errors.Keys == ErrorsSoFar(ms).Keys == ms.Keys;
    forall u | u in ms
      ensures ms[u].conn.sent == before[u] + (if ms[u].conn.working && !ms[u].signaler.peerWithdrawn then [msg] else []) {
      assert ms[u].conn.sent == SentSoFar(ms)[u];
      assert u in live <==> Takes(ms, u);
    }
    forall u | u in ms
      ensures ms[u].errors == errors[u] + if !ms[u].conn.working && !ms[u].signaler.peerWithdrawn then 1 else 0 {
      assert ms[u].errors == ErrorsSoFar(ms)[u];
      assert u in failing <==> Fails(ms[u]);
    }
  }

  /** The index after removing connections one by one. */
  function DroppedAll(ix: Index, uuids: seq<string>): Index {
    if uuids == [] then ix else Dropped(DroppedAll(ix, uuids[..|uuids| - 1]), uuids[|uuids| - 1])
  }

  lemma {:induction false} DroppedAllTable(ix: Index, uuids: seq<string>)
    ensures DroppedAll(ix, uuids).table == ix.table - (set u | u in uuids)
    ensures Agrees(ix) ==> Agrees(DroppedAll(ix, uuids))
    ensures Exact(ix) ==> Exact(DroppedAll(ix, uuids))
  {
    if uuids != [] {
      var k := |uuids| - 1;
      DroppedAllTable(ix, uuids[..k]);
      assert uuids == uuids[..k] + [uuids[k]];
      if Agrees(ix) {
        DropKeepsAgrees(DroppedAll(ix, uuids[..k]), uuids[k]);
      }
      if Exact(ix) {
        DropKeepsExact(DroppedAll(ix, uuids[..k]), uuids[k]);
      }
    }
  }

  class Hub {
    var meshConnections: map<string, ConnectionHandler>
    var capabilityBalancers: map<string, Balancer>

    ghost predicate Valid()
      reads this, capabilityBalancers.Values
    {
      Tabled(meshConnections) && Apart(capabilityBalancers)
    }

    ghost function Value(): Index
      reads this, capabilityBalancers.Values
    {
      Index(Interests(meshConnections), Rotas(capabilityBalancers))
    }

    /** The UUIDs whose connection would take a message now. */
    ghost function Reachable(): (live: set<string>)
      reads this`meshConnections, (set h | h in meshConnections.Values :: h.signaler)`peerWithdrawn, Links(meshConnections)`working
      ensures forall u :: u in live <==> Takes(meshConnections, u)
    {
      set u | u in meshConnections && Takes(meshConnections, u)
    }

    constructor ()
      ensures Valid() && Value() == NO_MESH
    {
      meshConnections, capabilityBalancers := map[], map[];
    }

    method FindConnection(uuid: string) returns (conn: Link?)
      ensures conn == if uuid in meshConnections then meshConnections[uuid].conn else null
    {
      if uuid in meshConnections && meshConnections[uuid].conn != null {
        return meshConnections[uuid].conn;
      }
      conn := null;
    }

    /** Takes a connection in under a UUID, also when one is there already. */
    method AddConnection(connection: Link, uuid: string, interests: seq<string>)
      requires Valid() && connection.peer == uuid
      modifies this, capabilityBalancers.Values
      ensures Valid() && Value() == Entered(old(Value()), uuid, interests)
      ensures uuid in meshConnections && meshConnections == old(meshConnections)[uuid := meshConnections[uuid]]
      ensures var h := meshConnections[uuid];
        fresh(h) && fresh(h.signaler) && h.conn == connection && h.errors == 0 && !h.signaler.peerWithdrawn
    {
      var signaler := new Signaler(uuid);
      var handler := new ConnectionHandler(uuid, connection, signaler, interests);
      EnterEntry(handler);
      AddInterests(uuid, interests);
    }

    method EnterEntry(handler: ConnectionHandler)
      requires Tabled(meshConnections) && handler.conn != null
      requires handler.conn.peer == handler.uuid && handler.signaler.peer == handler.uuid
      modifies this`meshConnections
      ensures Tabled(meshConnections) && meshConnections == old(meshConnections)[handler.uuid := handler]
      ensures Interests(meshConnections) == old(Interests(meshConnections))[handler.uuid := handler.interests]
      ensures Rotas(capabilityBalancers) == old(Rotas(capabilityBalancers))
    {
      EntryReplaced(meshConnections, handler);
      meshConnections := meshConnections[handler.uuid := handler];
    }

    /** Lists a UUID for each of its interests. */
    method AddInterests(uuid: string, interests: seq<string>)
      requires Apart(capabilityBalancers)
      modifies this`capabilityBalancers, capabilityBalancers.Values
      ensures Apart(capabilityBalancers)
      ensures Rotas(capabilityBalancers) == Enlist(old(Rotas(capabilityBalancers)), uuid, interests)
    {
      assert interests[..0] == [];
      for i := 0 to |interests|
        invariant Apart(capabilityBalancers)
        invariant forall k :: k in capabilityBalancers ==>
          fresh(capabilityBalancers[k]) || (k in old(capabilityBalancers) && capabilityBalancers[k] == old(capabilityBalancers)[k])
        invariant Rotas(capabilityBalancers) == Enlist(old(Rotas(capabilityBalancers)), uuid, interests[..i])
      {
        assert interests[..i + 1][..i] == interests[..i];
        AddCapability(interests[i], uuid);
      }
      assert interests[..|interests|] == interests;
    }

    /** Lists a UUID for one capability, creating its balancer if there is none. */
    method AddCapability(c: string, uuid: string)
      requires Apart(capabilityBalancers)
      modifies this`capabilityBalancers, capabilityBalancers.Values
      ensures Apart(capabilityBalancers)
      ensures forall k :: k in capabilityBalancers ==>
        fresh(capabilityBalancers[k]) || (k in old(capabilityBalancers) && capabilityBalancers[k] == old(capabilityBalancers)[k])
      ensures Rotas(capabilityBalancers) == EnlistOne(old(Rotas(capabilityBalancers)), uuid, c)
    {
      EnlistedOne(Rotas(capabilityBalancers), uuid, c);
      EnsureBalancer(c);
      AddTo(c, uuid);
    }

    method EnsureBalancer(c: string)
      requires Apart(capabilityBalancers)
      modifies this`capabilityBalancers
      ensures c in capabilityBalancers && (c in old(capabilityBalancers) || fresh(capabilityBalancers[c]))
      ensures capabilityBalancers == old(capabilityBalancers)[c := capabilityBalancers[c]]
      ensures c in old(capabilityBalancers) ==> capabilityBalancers == old(capabilityBalancers)
      ensures Apart(capabilityBalancers) && Rotas(capabilityBalancers) == WithBalancer(old(Rotas(capabilityBalancers)), c)
    {
      if c !in capabilityBalancers {
        var b := new Balancer(c);
        capabilityBalancers := capabilityBalancers[c := b];
      }
    }

    method AddTo(c: string, uuid: string)
      requires Apart(capabilityBalancers) && c in capabilityBalancers
      modifies capabilityBalancers[c]
      ensures Apart(capabilityBalancers)
      ensures Rotas(capabilityBalancers) ==
        old(Rotas(capabilityBalancers))[c := Added(old(Rotas(capabilityBalancers)[c]), uuid)]
    {
      capabilityBalancers[c].Add(uuid);
    }

    method SetupNewConnection(connection: Link, uuid: string, interests: seq<string>)
      requires Valid() && connection.peer == uuid
      modifies this, capabilityBalancers.Values, connection`closed
      ensures Valid()
      ensures Value() == if uuid in old(meshConnections) then old(Value()) else Entered(old(Value()), uuid, interests)
      ensures uuid in old(meshConnections) ==> connection.closed && meshConnections == old(meshConnections)
      ensures uuid !in old(meshConnections) ==> connection.closed == old(connection.closed)
    {
      var found := FindConnection(uuid);
      if found != null {
        connection.Close();
      } else {
        AddConnection(connection, uuid, interests);
      }
    }

    /** Takes a UUID out of every balancer and its handler out of the table. */
    method RemoveMeshConnection(uuid: string)
      requires Valid()
      modifies this`meshConnections, capabilityBalancers.Values
      ensures Valid() && Value() == Dropped(old(Value()), uuid)
      ensures meshConnections == old(meshConnections) - {uuid}
    {
      RemoveFromBalancers(uuid);
      RemoveEntry(uuid);
    }

    method RemoveEntry(uuid: string)
      requires Tabled(meshConnections)
      modifies this`meshConnections
      ensures Tabled(meshConnections) && meshConnections == old(meshConnections) - {uuid}
      ensures Interests(meshConnections) == old(Interests(meshConnections)) - {uuid}
    {
      EntryRemoved(meshConnections, uuid);
      meshConnections := meshConnections - {uuid};
    }

    method RemoveFromBalancers(uuid: string)
      requires Apart(capabilityBalancers)
      modifies capabilityBalancers.Values
      ensures Apart(capabilityBalancers)
      ensures Rotas(capabilityBalancers) == Delist(old(Rotas(capabilityBalancers)), uuid)
    {
      ghost var rotas := Rotas(capabilityBalancers);
      var rest := capabilityBalancers.Keys;
      assert rotas == DelistBut(rotas, rest, uuid);
      while rest != {}
        invariant Apart(capabilityBalancers) && rest <= capabilityBalancers.Keys
        invariant Rotas(capabilityBalancers) == DelistBut(rotas, rest, uuid)
        decreases rest
      {
        var c :| c in rest;
        RemoveFrom(c, uuid);
        DelistOneMore(rotas, rest, c, uuid);
        rest := rest - {c};
      }
      assert DelistBut(rotas, {}, uuid) == Delist(rotas, uuid);
    }

    method RemoveFrom(c: string, uuid: string)
      requires Apart(capabilityBalancers) && c in capabilityBalancers
      modifies capabilityBalancers[c]
      ensures Apart(capabilityBalancers)
      ensures Rotas(capabilityBalancers) == old(Rotas(capabilityBalancers))[c := Removed(old(Rotas(capabilityBalancers)[c]), uuid)]
    {
      capabilityBalancers[c].Remove(uuid);
    }

    /** The next entry of a balancer and its handler, if it has one. */
    method NextHandler(balancer: Balancer) returns (handler: ConnectionHandler?)
      requires Valid() && balancer in capabilityBalancers.Values && balancer.uuids != []
      modifies balancer`index
      ensures Valid() && balancer.Value() == Stepped(old(balancer.Value()))
      ensures Reachable() == old(Reachable()) && SentSoFar(meshConnections) == old(SentSoFar(meshConnections))
      ensures Failing(meshConnections) == old(Failing(meshConnections))
      ensures ErrorsSoFar(meshConnections) == old(ErrorsSoFar(meshConnections))
      ensures var uuid := old(balancer.Value()).uuids[old(balancer.index)];
        handler == if uuid in meshConnections then meshConnections[uuid] else null
    {
      var uuid := balancer.Next();
      handler := if uuid in meshConnections then meshConnections[uuid] else null;
    }

    /** One try of a tunnelled send, on the next entry of the balancer. */
    method TryNext(balancer: Balancer, msg: Message) returns (sent: bool)
      requires Valid() && balancer in capabilityBalancers.Values && balancer.uuids != []
      modifies balancer`index, meshConnections.Values`errors, Links(meshConnections)`sent
      ensures Valid() && InRange(old(balancer.Value())) && Reachable() == old(Reachable())
      ensures Tried(old(balancer.Value()), old(Reachable()), old(SentSoFar(meshConnections)), msg,
                    sent, balancer.Value(), SentSoFar(meshConnections))
      ensures Failing(meshConnections) == old(Failing(meshConnections)) && (sent ==> EntryAfter(old(balancer.Value()), 0) !in Failing(meshConnections))
      ensures ErrorsSoFar(meshConnections) ==
        Charged(old(ErrorsSoFar(meshConnections)), old(Failing(meshConnections)), EntryAfter(old(balancer.Value()), 0))
    {
      var handler := NextHandler(balancer);
      sent := false;
      if handler != null && handler.conn != null {
        sent := SendCounted(handler.uuid, msg);
      }
    }

    /** One handler's `Send`, seen from the table. */
    method SendTo(handler: ConnectionHandler, msg: Message) returns (sent: bool)
      requires Valid() && handler.uuid in meshConnections && meshConnections[handler.uuid] == handler
      modifies handler`errors, {handler.conn}`sent
      ensures Valid() && Reachable() == old(Reachable()) && (sent <==> handler.uuid in Reachable())
      ensures handler.errors == old(handler.errors) + if sent || handler.signaler.peerWithdrawn then 0 else 1
      ensures handler.uuid in old(SentSoFar(meshConnections))
      ensures SentSoFar(meshConnections) ==
        if sent then Delivered(old(SentSoFar(meshConnections)), handler.uuid, msg) else old(SentSoFar(meshConnections))
    {
      ghost var before := SentSoFar(meshConnections);
      var r := handler.Send(msg);
      sent := r.SentOn?;
      forall u | u in before && u != handler.uuid ensures meshConnections[u].conn.sent == before[u] {
        assert meshConnections[u].conn.peer == u;
      }
    }

    /** Each message from the bus goes to every connection that takes it; failures are left for the scan. */
    method MessageHandler(msg: Message)
      requires Valid()
      modifies meshConnections.Values`errors, Links(meshConnections)`sent
      ensures Valid()
      ensures SentSoFar(meshConnections) == Broadcast(old(SentSoFar(meshConnections)), Reachable(), msg)
      ensures forall u :: u in meshConnections ==>
        var h := meshConnections[u];
        && h.conn.sent == old(h.conn.sent) + (if h.conn.working && !h.signaler.peerWithdrawn then [msg] else [])
        && h.errors == old(h.errors) + if !h.conn.working && !h.signaler.peerWithdrawn then 1 else 0
    {
      ghost var before, live, errors, failing :=
        SentSoFar(meshConnections), Reachable(), ErrorsSoFar(meshConnections), Failing(meshConnections);
      BroadcastAll(msg, before, live, errors, failing);
      BroadcastMeans(meshConnections, before, live, errors, failing, msg);
    }

    method BroadcastAll(msg: Message, ghost before: map<string, seq<Message>>, ghost live: set<string>,
                        ghost errors: map<string, nat>, ghost failing: set<string>)
      requires Valid() && Reachable() == live && Failing(meshConnections) == failing
      requires SentSoFar(meshConnections) == before && ErrorsSoFar(meshConnections) == errors
      modifies meshConnections.Values`errors, Links(meshConnections)`sent
      ensures Valid() && Reachable() == live
      ensures SentSoFar(meshConnections) == Broadcast(before, live, msg)
      ensures ErrorsSoFar(meshConnections) == Blamed(errors, failing)
    {
      var rest := meshConnections.Keys;
      BroadcastEnds(before, live, rest, msg);
      BlamedEnds(errors, failing, rest);
      while rest != {}
        invariant Valid() && rest <= meshConnections.Keys && Reachable() == live && Failing(meshConnections) == failing
        invariant SentSoFar(meshConnections) == Broadcast(before, live - rest, msg)
        invariant ErrorsSoFar(meshConnections) == Blamed(errors, failing - rest)
        decreases rest
      {
        var uuid :| uuid in rest;
        BroadcastOne(uuid, msg, before, live, errors, failing, rest);
        rest := rest - {uuid};
      }
    }

    method BroadcastOne(uuid: string, msg: Message, ghost before: map<string, seq<Message>>, ghost live: set<string>,
                        ghost errors: map<string, nat>, ghost failing: set<string>, ghost rest: set<string>)
      requires Valid() && uuid in rest && uuid in meshConnections
      requires Reachable() == live && Failing(meshConnections) == failing
      requires SentSoFar(meshConnections) == Broadcast(before, live - rest, msg)
      requires ErrorsSoFar(meshConnections) == Blamed(errors, failing - rest)
      modifies {meshConnections[uuid]}`errors, {meshConnections[uuid].conn}`sent
      ensures Valid() && Reachable() == live && Failing(meshConnections) == failing
      ensures SentSoFar(meshConnections) == Broadcast(before, live - (rest - {uuid}), msg)
      ensures ErrorsSoFar(meshConnections) == Blamed(errors, failing - (rest - {uuid}))
    {
      assert uuid in SentSoFar(meshConnections) && uuid in ErrorsSoFar(meshConnections);
      var _ := SendCounted(uuid, msg);
      BroadcastOneMore(before, live, rest, uuid, msg);
      BlamedOneMore(errors, failing, rest, uuid);
    }

    /** One handler's `Send`, with the errors of all. */
    method SendCounted(uuid: string, msg: Message) returns (sent: bool)
      requires Valid() && uuid in meshConnections
      modifies {meshConnections[uuid]}`errors, {meshConnections[uuid].conn}`sent
      ensures Valid() && Reachable() == old(Reachable()) && Failing(meshConnections) == old(Failing(meshConnections))
      ensures uuid in old(SentSoFar(meshConnections)) && (sent <==> uuid in Reachable())
      ensures sent ==> uuid !in Failing(meshConnections)
      ensures SentSoFar(meshConnections) == if uuid in Reachable() then Delivered(old(SentSoFar(meshConnections)), uuid, msg)
                                            else old(SentSoFar(meshConnections))
      ensures ErrorsSoFar(meshConnections) ==
        Charged(old(ErrorsSoFar(meshConnections)), Failing(meshConnections), uuid)
    {
      sent := SendTo(meshConnections[uuid], msg);
    }

    /** Has the connection reported an error, or has its peer withdrawn? */
    predicate Failed(u: string)
      requires u in meshConnections
      reads this`meshConnections, {meshConnections[u]}`errors, {meshConnections[u].signaler}`peerWithdrawn
    {
      meshConnections[u].errors > 0 || meshConnections[u].signaler.peerWithdrawn
    }

    /** One round of the scan: exactly the failed connections are closed and taken out. */
    method ScanFailedMeshConnections() returns (toRemove: seq<string>)
      requires Valid()
      modifies this`meshConnections, capabilityBalancers.Values, meshConnections.Values`errors, Links(meshConnections)`closed
      ensures Valid() && Value() == DroppedAll(old(Value()), toRemove)
      ensures forall u :: u in toRemove <==>
        u in old(meshConnections) && (old(meshConnections[u].errors > 0) || old(meshConnections[u].signaler.peerWithdrawn))
      ensures Shut(old(meshConnections)) == old(Shut(meshConnections)) + set u | u in toRemove
    {
      toRemove := CloseFailed();
      RemoveAll(toRemove, old(meshConnections));
    }

    method RemoveAll(uuids: seq<string>, ghost was: map<string, ConnectionHandler>)
      requires Valid()
      modifies this`meshConnections, capabilityBalancers.Values
      ensures Valid() && Value() == DroppedAll(old(Value()), uuids)
      ensures Shut(was) == old(Shut(was))
    {
      ghost var value := Value();
      for i := 0 to |uuids|
        invariant Valid() && Value() == DroppedAll(value, uuids[..i]) && Shut(was) == old(Shut(was))
      {
        assert uuids[..i + 1][..i] == uuids[..i];
        RemoveNext(uuids[i], was);
      }
      assert uuids[..|uuids|] == uuids;
    }

    method RemoveNext(uuid: string, ghost was: map<string, ConnectionHandler>)
      requires Valid()
      modifies this`meshConnections, capabilityBalancers.Values
      ensures Valid() && Value() == Dropped(old(Value()), uuid) && Shut(was) == old(Shut(was))
    {
      RemoveMeshConnection(uuid);
    }

    /** Closes the failed connections; an error found is taken off its channel. */
    method CloseFailed() returns (toRemove: seq<string>)
      requires Valid()
      modifies meshConnections.Values`errors, Links(meshConnections)`closed
      ensures Valid() && Value() == old(Value())
      ensures forall u :: u in toRemove <==> u in meshConnections && old(Failed(u))
      ensures Shut(meshConnections) == old(Shut(meshConnections)) + set u | u in toRemove
    {
      toRemove := [];
      ghost var bad, shut, value := (set u | u in meshConnections && Failed(u)), Shut(meshConnections), Value();
      var rest := meshConnections.Keys;
      while rest != {}
        invariant Valid() && Value() == value && Scanning(bad, shut, rest, toRemove)
        decreases rest
      {
        var uuid :| uuid in rest;
        toRemove := ScanOne(uuid, toRemove, bad, shut, rest);
        rest := rest - {uuid};
      }
      ScanEnds(bad, shut, toRemove);
    }

    lemma ScanEnds(bad: set<string>, shut: set<string>, toRemove: seq<string>)
      requires Scanning(bad, shut, {}, toRemove)
      ensures forall u :: u in toRemove <==> u in bad
      ensures Shut(meshConnections) == shut + set u | u in toRemove
    {
    }

    /** A scan that has yet to look at `rest`: it has closed the failed ones among the others, and nothing else. */
    ghost predicate Scanning(bad: set<string>, shut: set<string>, rest: set<string>, toRemove: seq<string>)
      reads this`meshConnections, meshConnections.Values`errors,
            (set h | h in meshConnections.Values :: h.signaler)`peerWithdrawn, Links(meshConnections)`closed
    {
      && rest <= meshConnections.Keys && bad <= meshConnections.Keys
      && (forall u :: u in rest ==> Failed(u) == (u in bad))
      && (forall u :: u in toRemove <==> u in bad && u !in rest)
      && Shut(meshConnections) == shut + (bad - rest)
    }

    method ScanOne(uuid: string, toRemove: seq<string>, ghost bad: set<string>, ghost shut: set<string>, ghost rest: set<string>)
      returns (found: seq<string>)
      requires Valid() && Scanning(bad, shut, rest, toRemove) && uuid in rest
      modifies {meshConnections[uuid]}`errors, {meshConnections[uuid].conn}`closed
      ensures Valid() && Value() == old(Value()) && Scanning(bad, shut, rest - {uuid}, found)
    {
      found := toRemove;
      var failed := CloseIfFailed(uuid);
      if failed {
        found := toRemove + [meshConnections[uuid].uuid];
      }
    }

    method CloseIfFailed(uuid: string) returns (failed: bool)
      requires Valid() && uuid in meshConnections
      modifies {meshConnections[uuid]}`errors, {meshConnections[uuid].conn}`closed
      ensures failed == old(Failed(uuid))
      ensures forall u :: u in meshConnections && u != uuid ==> Failed(u) == old(Failed(u))
      ensures meshConnections[uuid].errors == old(meshConnections[uuid].errors) - if old(meshConnections[uuid].errors) > 0 then 1 else 0
      ensures Shut(meshConnections) == old(Shut(meshConnections)) + if failed then {uuid} else {}
    {
      var conn := meshConnections[uuid];
      if conn.errors > 0 {
        conn.errors := conn.errors - 1;
        conn.conn.Close();
        return true;
      } else if conn.signaler.peerWithdrawn {
        conn.conn.Close();
        return true;
      }
      failed := false;
    }

    /** Sends to the first of the next 32 entries of the capability's balancer whose connection takes the
        message, and to nobody else; if there is none, to nobody. */
    method SendTunneledMessage(capability: string, msg: Message) returns (result: TunnelResult, ghost failed: nat)
      requires Valid()
      modifies capabilityBalancers.Values`index, meshConnections.Values`errors, Links(meshConnections)`sent
      ensures Valid()
      ensures result.OutOfRange? <==> capability in capabilityBalancers && capabilityBalancers[capability].uuids == []
      ensures result.Tunneled? <==>
        && capability in capabilityBalancers && capabilityBalancers[capability].uuids != []
        && exists i :: 0 <= i < 32
             && var u := EntryAfter(old(capabilityBalancers[capability].Value()), i);
               u in meshConnections && meshConnections[u].conn.working && !meshConnections[u].signaler.peerWithdrawn
      ensures if capability in capabilityBalancers && capabilityBalancers[capability].uuids != [] then
          Tunnelled(old(capabilityBalancers[capability].Value()), old(Reachable()), old(SentSoFar(meshConnections)), msg,
                    result.Tunneled?, failed, capabilityBalancers[capability].Value(), SentSoFar(meshConnections))
        else
          SentSoFar(meshConnections) == old(SentSoFar(meshConnections)) && Value() == old(Value())
      ensures ErrorsSoFar(meshConnections) ==
        if capability in capabilityBalancers && capabilityBalancers[capability].uuids != [] then
          ChargedTries(old(ErrorsSoFar(meshConnections)), old(Failing(meshConnections)),
                       old(capabilityBalancers[capability].Value()), failed)
        else old(ErrorsSoFar(meshConnections))
      ensures forall k :: k in capabilityBalancers && k != capability ==>
        capabilityBalancers[k].Value() == old(capabilityBalancers[k].Value())
    {
      if capability !in capabilityBalancers {
        return NotEstablished, 0;
      }
      var balancer := capabilityBalancers[capability];
      if |balancer.uuids| == 0 {
        return OutOfRange, 0;
      }
      var ok;
      ok, failed := TryAll(balancer, msg);
      result := if ok then Tunneled else NotEstablished;
    }

    /** All tries, for whoever asks if one gets through. */
    method TryAll(balancer: Balancer, msg: Message) returns (ok: bool, ghost failed: nat)
      requires Valid() && balancer in capabilityBalancers.Values && balancer.uuids != []
      modifies balancer`index, meshConnections.Values`errors, Links(meshConnections)`sent
      ensures Valid() && InRange(balancer.Value())
      ensures Tunnelled(old(balancer.Value()), old(Reachable()), old(SentSoFar(meshConnections)), msg, ok, failed,
                        balancer.Value(), SentSoFar(meshConnections))
      ensures ErrorsSoFar(meshConnections) ==
        ChargedTries(old(ErrorsSoFar(meshConnections)), old(Failing(meshConnections)), old(balancer.Value()), failed)
      ensures ok <==>
        exists i :: 0 <= i < 32
          && var u := EntryAfter(old(balancer.Value()), i);
             u in meshConnections && meshConnections[u].conn.working && !meshConnections[u].signaler.peerWithdrawn
    {
      ghost var was, live, sentBefore := balancer.Value(), Reachable(), SentSoFar(meshConnections);
      ok, failed := TryBalancer(balancer, msg);
      TunnelledIff(was, live, sentBefore, msg, ok, failed, balancer.Value(), SentSoFar(meshConnections));
      assert forall u :: u in live <==> Takes(meshConnections, u);
    }

    /** Iterates a bounded number of times to find a connection that takes the message. */
    method TryBalancer(balancer: Balancer, msg: Message) returns (ok: bool, ghost failed: nat)
      requires Valid() && balancer in capabilityBalancers.Values && balancer.uuids != []
      modifies balancer`index, meshConnections.Values`errors, Links(meshConnections)`sent
      ensures Valid() && InRange(balancer.Value())
      ensures Tunnelled(old(balancer.Value()), old(Reachable()), old(SentSoFar(meshConnections)), msg, ok, failed,
                        balancer.Value(), SentSoFar(meshConnections))
      ensures ErrorsSoFar(meshConnections) ==
        ChargedTries(old(ErrorsSoFar(meshConnections)), old(Failing(meshConnections)), old(balancer.Value()), failed)
    {
      ghost var was, live, sentBefore := balancer.Value(), Reachable(), SentSoFar(meshConnections);
      ghost var errors, failing := ErrorsSoFar(meshConnections), Failing(meshConnections);
      for i := 0 to TUNNEL_RETRY_COUNT
        invariant Valid() && Reachable() == live && SentSoFar(meshConnections) == sentBefore
        invariant Missed(was, live, i, balancer.Value())
        invariant Failing(meshConnections) == failing && ErrorsSoFar(meshConnections) == ChargedTries(errors, failing, was, i)
      {
        ghost var now := balancer.Value();
        var sent := TryNext(balancer, msg);
        TryAgain(was, live, i, now, sentBefore, msg, sent, balancer.Value(), SentSoFar(meshConnections));
        ChargeAgain(was, live, i, now, errors, failing, sent);
        if sent {
          return true, i;
        }
      }
      ok, failed := false, TUNNEL_RETRY_COUNT;
    }

    /** The withdraw so far of the connection under `u`. */
    ghost function Signals(u: string): W.Signals
      requires u in meshConnections
      reads this`meshConnections, meshConnections[u].signaler
    {
      meshConnections[u].signaler.Value()
    }

    /** The first part of a first withdraw: every connection is signalled, once. */
    method SignalAll()
      requires Valid() && forall u :: u in meshConnections ==> Signals(u).withdrawChan == 0
      modifies set h | h in meshConnections.Values :: h.signaler
      ensures Valid()
      ensures forall u :: u in meshConnections ==>
        Signals(u) == W.Marked(W.Marked(old(Signals(u)), W.Raise(u)), W.Action.Signal(u))
    {
      var rest := meshConnections.Keys;
      while rest != {}
        invariant rest <= meshConnections.Keys
        invariant forall u :: u in rest ==> Signals(u) == old(Signals(u))
        invariant forall u :: u in meshConnections && u !in rest ==>
          Signals(u) == W.Marked(W.Marked(old(Signals(u)), W.Raise(u)), W.Action.Signal(u))
        decreases rest
      {
        var uuid :| uuid in rest;
        SignalOne(uuid);
        rest := rest - {uuid};
      }
    }

    method SignalOne(uuid: string)
      requires Valid() && uuid in meshConnections && Signals(uuid).withdrawChan == 0
      modifies meshConnections[uuid].signaler
      ensures forall u :: u in meshConnections ==>
        Signals(u) == if u == uuid then W.Marked(W.Marked(old(Signals(u)), W.Raise(u)), W.Action.Signal(u)) else old(Signals(u))
    {
      var done := meshConnections[uuid].signaler.Signal();
      assert done;
    }
  }
}
