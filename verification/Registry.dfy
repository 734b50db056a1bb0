/**
 The client registry of src/server/Server.cpp as one value: the client map, the socket map, the server's clock and
 what each locked region of its methods and listener threads does to them.
 */
module Registry {
  import opened Integers

  const HEARTBEAT_INTERVAL := 1000
  const HEARTBEAT_RETRIES := 5
  const CLIENT_TIMEOUT := 10000
  const HIGHEST_TIMESTAMP := 2147483647

  type ClientId = int

  const NO_CLIENT: ClientId := -1

  datatype Protocol = Tcp | Udp

  datatype Endpoint = Endpoint(address: nat, port: nat)

  // Times are in microseconds, as sf::Time holds them.
  datatype ClientInfo = ClientInfo(
    protocol: Protocol, endpoint: Endpoint, lastHeartbeat: int, heartbeatSent: int, waiting: bool, retry: nat,
    ping: nat)

  datatype ServerState = ServerState(
    running: bool, time: int, lastId: nat, clients: map<ClientId, ClientInfo>, sockets: set<ClientId>)

  const STOPPED := ServerState(false, 0, 0, map[], {})

  // sf::Time::asMilliseconds and sf::milliseconds
  function Ms(time: int): int {
    ToInt32(Quotient(time, 1000))
  }

  function Milliseconds(ms: int): int {
    ms * 1000
  }

  function AbsInt(x: int): nat {
    if x < 0 then -x else x
  }

  // ---------- update ----------

  // The silence of a client as update reports it, in milliseconds.
  function Elapsed(time: int, c: ClientInfo): int {
    Ms(time) - Ms(c.lastHeartbeat)
  }

  function Rolled(c: ClientInfo): ClientInfo {
    c.(lastHeartbeat := Milliseconds(AbsInt(Ms(c.lastHeartbeat) - HIGHEST_TIMESTAMP)))
  }

  // The clock moves on, and rolls over when its milliseconds turn negative.
  function Advance(s: ServerState, dt: nat): ServerState {
    var moved := s.time + dt;
    if Ms(moved) < 0 then
      s.(time := moved - Milliseconds(HIGHEST_TIMESTAMP), clients := map id | id in s.clients :: Rolled(s.clients[id]))
    else
      s.(time := moved)
  }

  predicate Expired(time: int, c: ClientInfo) {
    && Elapsed(time, c) >= HEARTBEAT_INTERVAL
    && (Elapsed(time, c) >= CLIENT_TIMEOUT || c.retry > HEARTBEAT_RETRIES)
  }

  predicate Due(time: int, c: ClientInfo) {
    && Elapsed(time, c) >= HEARTBEAT_INTERVAL
    && !c.waiting && Elapsed(time, c) >= HEARTBEAT_INTERVAL * (c.retry + 1)
  }

  function Beaten(time: int, c: ClientInfo): ClientInfo {
    c.(heartbeatSent := if c.retry == 0 then time else c.heartbeatSent, waiting := true, retry := c.retry + 1)
  }

  function Swept(time: int, clients: map<ClientId, ClientInfo>): map<ClientId, ClientInfo> {
    map id | id in clients && !Expired(time, clients[id]) ::
      if Due(time, clients[id]) then Beaten(time, clients[id]) else clients[id]
  }

  function Updated(s: ServerState, dt: nat): ServerState {
    if !s.running then s
    else
      var a := Advance(s, dt);
      a.(clients := Swept(a.time, a.clients))
  }

  // Whom the timeout handler is called for, and who is sent a heartbeat.
  function TimedOut(s: ServerState, dt: nat): set<ClientId> {
    if !s.running then {}
    else
      var a := Advance(s, dt);
      set id | id in a.clients && Expired(a.time, a.clients[id])
  }

  function Beats(s: ServerState, dt: nat): set<ClientId> {
    if !s.running then {}
    else
      var a := Advance(s, dt);
      set id | id in a.clients && !Expired(a.time, a.clients[id]) && Due(a.time, a.clients[id])
  }

  // ---------- the other operations ----------

  predicate Known(s: ServerState, endpoint: Endpoint) {
    exists id :: id in s.clients && s.clients[id].endpoint == endpoint
  }

  // The id of the client at an endpoint.
  ghost function IdAt(s: ServerState, endpoint: Endpoint): (id: ClientId)
    ensures s.running && Known(s, endpoint) ==> id in s.clients && s.clients[id].endpoint == endpoint
    ensures !s.running || !Known(s, endpoint) ==> id == NO_CLIENT
  {
    if s.running && Known(s, endpoint) then
      var id :| id in s.clients && s.clients[id].endpoint == endpoint;
      id
    else NO_CLIENT
  }

  function NewClient(protocol: Protocol, endpoint: Endpoint, time: int): ClientInfo {
    ClientInfo(protocol, endpoint, time, 0, false, 0, 0)
  }

  // addClient; NO_CLIENT if the endpoint is taken.
  function AddedId(s: ServerState, endpoint: Endpoint): ClientId {
    if !s.running || Known(s, endpoint) then NO_CLIENT else s.lastId
  }

  function AddClient(s: ServerState, protocol: Protocol, endpoint: Endpoint): ServerState {
    if AddedId(s, endpoint) == NO_CLIENT then s
    else s.(clients := s.clients[s.lastId := NewClient(protocol, endpoint, s.time)], lastId := s.lastId + 1)
  }

  function Without(clients: map<ClientId, ClientInfo>, id: ClientId): map<ClientId, ClientInfo> {
    clients - {id}
  }

  function RemoveClient(s: ServerState, id: ClientId): ServerState {
    if s.running then s.(clients := Without(s.clients, id)) else s
  }

  // A client answers a heartbeat.
  function Answered(time: int, c: ClientInfo): ClientInfo {
    if !c.waiting then c
    else c.(ping := ToUnsigned(Ms(time) - Ms(c.lastHeartbeat)), waiting := false, lastHeartbeat := time, retry := 0)
  }

  function HeardFrom(s: ServerState, id: ClientId): ServerState {
    if s.running && id in s.clients then s.(clients := s.clients[id := Answered(s.time, s.clients[id])]) else s
  }

  // tcpListen accepts a connection: the socket is stored under whatever addClient returned.
  function Accept(s: ServerState, endpoint: Endpoint): ServerState {
    if !s.running then s
    else AddClient(s, Tcp, endpoint).(sockets := s.sockets + {AddedId(s, endpoint)})
  }

  // tcpListen finds sockets disconnected.
  function CloseSockets(s: ServerState, closed: set<ClientId>): ServerState {
    if !s.running then s
    else
      var gone := closed * s.sockets * s.clients.Keys;
      s.(clients := s.clients - gone, sockets := s.sockets - gone)
  }

  function DisconnectAll(s: ServerState): ServerState {
    s.(clients := map[], sockets := {})
  }

  function Start(s: ServerState): ServerState {
    if s.running then s else s.(running := true, lastId := 0)
  }

  function Stop(s: ServerState): ServerState {
    if s.running then DisconnectAll(s).(running := false) else s
  }

  datatype ServerStep =
    | Tick(dt: nat)
    | Join(endpoint: Endpoint)
    | UdpHeartbeat(endpoint: Endpoint)
    | TcpHeartbeat(id: ClientId)
    | Expel(id: ClientId)
    | ExpelFrom(endpoint: Endpoint)
    | Connection(endpoint: Endpoint)
    | Disconnections(closed: set<ClientId>)
    | ClearClients
    | StartServer
    | StopServer

  ghost function Step(s: ServerState, a: ServerStep): ServerState {
    match a
    case Tick(dt) => Updated(s, dt)
    case Join(endpoint) => AddClient(s, Udp, endpoint)
    case UdpHeartbeat(endpoint) => HeardFrom(s, IdAt(s, endpoint))
    case TcpHeartbeat(id) => if id in s.sockets then HeardFrom(s, id) else s
    case Expel(id) => RemoveClient(s, id)
    case ExpelFrom(endpoint) => RemoveClient(s, IdAt(s, endpoint))
    case Connection(endpoint) => Accept(s, endpoint)
    case Disconnections(closed) => CloseSockets(s, closed)
    case ClearClients => DisconnectAll(s)
    case StartServer => Start(s)
    case StopServer => Stop(s)
  }

  ghost function Steps(s: ServerState, steps: seq<ServerStep>): ServerState {
    if steps == [] then s else Step(Steps(s, steps[..|steps| - 1]), steps[|steps| - 1])
  }

  // ---------- what every run keeps ----------

  predicate RetryOk(c: ClientInfo) {
    c.retry == if c.waiting then 1 else 0
  }

  ghost predicate DistinctEndpoints(s: ServerState) {
    forall i, j :: i in s.clients && j in s.clients && s.clients[i].endpoint == s.clients[j].endpoint ==> i == j
  }

  ghost predicate Sound(s: ServerState) {
    && DistinctEndpoints(s)
    && (forall id :: id in s.clients ==> 0 <= id < s.lastId && RetryOk(s.clients[id]))
    && (forall id :: id in s.sockets ==> id < s.lastId)
    && (forall id :: id in s.clients ==> (s.clients[id].protocol == Tcp <==> id in s.sockets))
    && (!s.running ==> s.clients == map[] && s.sockets == {})
  }

  lemma SweptFacts(time: int, clients: map<ClientId, ClientInfo>, id: ClientId)
    ensures id in Swept(time, clients) <==> id in clients && !Expired(time, clients[id])
    ensures id in Swept(time, clients) ==>
            var c := Swept(time, clients)[id];
            && c.endpoint == clients[id].endpoint && c.protocol == clients[id].protocol
            && c.lastHeartbeat == clients[id].lastHeartbeat
            && (RetryOk(clients[id]) ==> RetryOk(c))
  {
  }

  lemma UpdateSound(s: ServerState, dt: nat)
    requires Sound(s)
    ensures Sound(Updated(s, dt))
  {
    if s.running {
      var a := Advance(s, dt);
      assert Sound(a);
      forall id {
        SweptFacts(a.time, a.clients, id);
      }
    }
  }

  lemma AddClientSound(s: ServerState, endpoint: Endpoint)
    requires Sound(s)
    ensures Sound(AddClient(s, Udp, endpoint))
    ensures Sound(Accept(s, endpoint))
  {
  }

  lemma StepSound(s: ServerState, a: ServerStep)
    requires Sound(s)
    ensures Sound(Step(s, a))
  {
    match a {
      case Tick(dt) => UpdateSound(s, dt);
      case Join(endpoint) => AddClientSound(s, endpoint);
      case Connection(endpoint) => AddClientSound(s, endpoint);
      case _ =>
    }
  }

  // Endpoints are pairwise distinct, ids are below the next id, exactly the TCP clients have sockets, and
  // (waiting, retry) is (false, 0) or (true, 1), in every run.
  lemma {:induction false} SoundInEveryRun(s: ServerState, steps: seq<ServerStep>)
    requires Sound(s)
    ensures Sound(Steps(s, steps))
  {
    if steps != [] {
      SoundInEveryRun(s, steps[..|steps| - 1]);
      StepSound(Steps(s, steps[..|steps| - 1]), steps[|steps| - 1]);
    }
  }

  // So one update evicts exactly the clients whose reported silence is ten seconds or more, and sends a heartbeat to
  // exactly the others that are not waiting and have been silent for a second; the retry count never evicts anyone.
  lemma HeartbeatRound(s: ServerState, dt: nat, id: ClientId)
    requires Sound(s) && s.running && id in s.clients
    ensures var a := Advance(s, dt);
            var silence := Elapsed(a.time, a.clients[id]);
            && (id in TimedOut(s, dt) <==> silence >= CLIENT_TIMEOUT)
            && (id in Updated(s, dt).clients <==> silence < CLIENT_TIMEOUT)
            && (id in Beats(s, dt) <==> HEARTBEAT_INTERVAL <= silence < CLIENT_TIMEOUT && !s.clients[id].waiting)
            && (silence < CLIENT_TIMEOUT ==>
                (Updated(s, dt).clients[id].waiting <==> s.clients[id].waiting || silence >= HEARTBEAT_INTERVAL))
  {
  }

  // getClientID goes through the map in the order it yields the ids.
  function FirstAt(clients: map<ClientId, ClientInfo>, order: seq<ClientId>, endpoint: Endpoint): ClientId
    requires forall k :: 0 <= k < |order| ==> order[k] in clients
  {
    if order == [] then NO_CLIENT
    else if clients[order[0]].endpoint == endpoint then order[0]
    else FirstAt(clients, order[1..], endpoint)
  }

  lemma {:induction false} FirstAtFinds(clients: map<ClientId, ClientInfo>, order: seq<ClientId>, endpoint: Endpoint)
    requires forall k :: 0 <= k < |order| ==> order[k] in clients
    ensures var id := FirstAt(clients, order, endpoint);
            if exists k :: k in order && clients[k].endpoint == endpoint
            then id in order && clients[id].endpoint == endpoint
            else id == NO_CLIENT
  {
    if order != [] {
      FirstAtFinds(clients, order[1..], endpoint);
      assert order == [order[0]] + order[1..];
    }
  }

  // Whatever that order is, the endpoint of a client finds the client, and an unknown endpoint finds no one.
  lemma EndpointFindsClient(s: ServerState, order: seq<ClientId>, endpoint: Endpoint)
    requires Sound(s) && s.running
    requires forall k :: 0 <= k < |order| ==> order[k] in s.clients
    requires forall id :: id in s.clients ==> id in order
    ensures FirstAt(s.clients, order, endpoint) == IdAt(s, endpoint)
    ensures forall id :: id in s.clients && s.clients[id].endpoint == endpoint ==> IdAt(s, endpoint) == id
  {
    FirstAtFinds(s.clients, order, endpoint);
    if Known(s, endpoint) {
      var id :| id in s.clients && s.clients[id].endpoint == endpoint;
      assert id in order;
    }
  }

  // addClient never hands out an id twice while the server runs: the id it returns is above every id in the map and
  // every id that was there before.
  lemma {:induction false} IdsOnlyGrow(s: ServerState, steps: seq<ServerStep>)
    requires forall a :: a in steps ==> !a.StartServer?
    ensures Steps(s, steps).lastId >= s.lastId
  {
    if steps != [] {
      assert steps == steps[..|steps| - 1] + [steps[|steps| - 1]];
      IdsOnlyGrow(s, steps[..|steps| - 1]);
    }
  }

  lemma NewIdIsFresh(s: ServerState, steps: seq<ServerStep>, endpoint: Endpoint, id: ClientId)
    requires Sound(s) && (id in s.clients || id in s.sockets)
    requires forall a :: a in steps ==> !a.StartServer?
    requires AddedId(Steps(s, steps), endpoint) != NO_CLIENT
    ensures AddedId(Steps(s, steps), endpoint) > id
  {
    IdsOnlyGrow(s, steps);
  }
}
