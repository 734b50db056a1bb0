/** The Server class of src/server/Server.cpp, each locked region proved to do what Registry.dfy says. */
module ServerObjects {
  import opened Collections
  import opened Registry

  predicate Distinct(ids: seq<ClientId>) {
    forall j, k :: 0 <= j < k < |ids| ==> ids[j] != ids[k]
  }

  // ids names exactly the members of a set, each once.
  ghost predicate Lists(ids: seq<ClientId>, members: set<ClientId>) {
    Distinct(ids) && forall id :: id in ids <==> id in members
  }

  // The ids of the map outside `rest` that have timed out, and those that are sent a heartbeat.
  ghost predicate ListsExpired(time: int, clients: map<ClientId, ClientInfo>, rest: set<ClientId>, ids: seq<ClientId>) {
    && Distinct(ids)
    && forall id :: id in ids <==> id in clients && id !in rest && Expired(time, clients[id])
  }

  ghost predicate ListsBeaten(time: int, clients: map<ClientId, ClientInfo>, rest: set<ClientId>, ids: seq<ClientId>) {
    && Distinct(ids)
    && forall id :: id in ids <==> id in clients && id !in rest && !Expired(time, clients[id]) && Due(time, clients[id])
  }

  lemma OneMoreListed(time: int, clients: map<ClientId, ClientInfo>, rest: set<ClientId>, timedOut: seq<ClientId>,
                      beats: seq<ClientId>, id: ClientId)
    requires ListsExpired(time, clients, rest, timedOut) && ListsBeaten(time, clients, rest, beats)
    requires id in rest && id in clients
    ensures var expired := Expired(time, clients[id]);
            && ListsExpired(time, clients, rest - {id}, if expired then timedOut + [id] else timedOut)
            && ListsBeaten(time, clients, rest - {id},
                           if !expired && Due(time, clients[id]) then beats + [id] else beats)
  {
  }

  lemma CloseSocketsOf(s: ServerState, closed: set<ClientId>, gone: set<ClientId>)
    requires s.running && forall id :: id in gone <==> id in s.sockets && id in closed && id in s.clients
    ensures CloseSockets(s, closed) == s.(clients := s.clients - gone, sockets := s.sockets - gone)
  {
    assert forall id :: id in gone <==> id in closed * s.sockets * s.clients.Keys;
    SameSet(gone, closed * s.sockets * s.clients.Keys);
  }

  class Server {
    var running: bool
    var serverTime: int
    var lastId: nat
    var clientMap: map<ClientId, ClientInfo>
    // a socket is as good as the endpoint at its other end
    var tcpClients: map<ClientId, Endpoint>

    ghost function State(): ServerState
      reads this
    {
      ServerState(running, serverTime, lastId, clientMap, tcpClients.Keys)
    }

    constructor ()
      ensures State() == STOPPED && Sound(State())
    {
      running, serverTime, lastId, clientMap, tcpClients := false, 0, 0, map[], map[];
    }

    // start; the parameters say whether the port could be bound, listened on, and the database opened.
    method StartUp(bound: bool, listening: bool, database: bool) returns (started: bool)
      requires Sound(State())
      modifies this
      ensures started <==> !old(running) && bound && listening && database
      ensures State() == (if started then Start(old(State())) else old(State())) && Sound(State())
    {
      if running || !bound || !listening || !database {
        return false;
      }
      lastId := 0;
      running := true;
      return true;
    }

    method ShutDown() returns (stopped: bool)
      requires Sound(State())
      modifies this
      ensures State() == Stop(old(State())) && Sound(State())
      ensures stopped <==> old(running)
    {
      if !running {
        return false;
      }
      Clear();
      running := false;
      return true;
    }

    // disconnectAll.
    method Clear()
      requires Sound(State())
      modifies this
      ensures State() == DisconnectAll(old(State())) && Sound(State())
    {
      clientMap := map[];
      tcpClients := map[];
    }

    // ---------- update ----------

    // The loop over the client map at a rollover.
    method RollOver()
      modifies this`clientMap
      ensures clientMap == map id | id in old(clientMap) :: Rolled(old(clientMap)[id])
    {
      var rest := clientMap.Keys;
      while rest != {}
        invariant rest <= clientMap.Keys == old(clientMap).Keys
        invariant forall id :: id in clientMap ==>
                    clientMap[id] == if id in rest then old(clientMap)[id] else Rolled(old(clientMap)[id])
        decreases |rest|
      {
        var id := AnyOf(rest);
        clientMap := clientMap[id := Rolled(clientMap[id])];
        rest := rest - {id};
      }
      assert forall id :: id in clientMap ==> clientMap[id] == Rolled(old(clientMap)[id]);
    }

    method Advance(dt: nat)
      modifies this`serverTime, this`clientMap
      ensures State() == Registry.Advance(old(State()), dt)
    {
      serverTime := serverTime + dt;
      if Ms(serverTime) < 0 {
        serverTime := serverTime - Milliseconds(HIGHEST_TIMESTAMP);
        RollOver();
      }
    }

    // The loop over the client map that times clients out and sends heartbeats.
    method Sweep() returns (timedOut: seq<ClientId>, beats: seq<ClientId>)
      modifies this`clientMap
      ensures clientMap == Swept(serverTime, old(clientMap))
      ensures ListsExpired(serverTime, old(clientMap), {}, timedOut)
      ensures ListsBeaten(serverTime, old(clientMap), {}, beats)
    {
      timedOut, beats := [], [];
      ghost var was := clientMap;
      var rest := clientMap.Keys;
      while rest != {}
        invariant forall id :: id in rest ==> id in clientMap && id in was && clientMap[id] == was[id]
        invariant forall id :: id !in rest ==> (id in clientMap <==> id in Swept(serverTime, was))
        invariant forall id :: id !in rest && id in clientMap ==> clientMap[id] == Swept(serverTime, was)[id]
        invariant ListsExpired(serverTime, was, rest, timedOut) && ListsBeaten(serverTime, was, rest, beats)
        decreases |rest|
      {
        hide Expired, Due, Beaten, ListsExpired, ListsBeaten;
        var id := AnyOf(rest);
        var c := clientMap[id];
        OneMoreListed(serverTime, was, rest, timedOut, beats, id);
        if Expired(serverTime, c) {
          timedOut := timedOut + [id];
          clientMap := clientMap - {id};
        } else if Due(serverTime, c) {
          beats := beats + [id];
          clientMap := clientMap[id := Beaten(serverTime, c)];
        }
        rest := rest - {id};
      }
      assert forall id :: id in clientMap <==> id in Swept(serverTime, was);
      assert forall id :: id in clientMap ==> clientMap[id] == Swept(serverTime, was)[id];
    }

    method Update(dt: nat) returns (timedOut: seq<ClientId>, beats: seq<ClientId>)
      requires Sound(State())
      modifies this
      ensures State() == Updated(old(State()), dt) && Sound(State())
      ensures Lists(timedOut, TimedOut(old(State()), dt)) && Lists(beats, Beats(old(State()), dt))
    {
      if !running {
        return [], [];
      }
      UpdateSound(State(), dt);
      Advance(dt);
      timedOut, beats := Sweep();
    }

    // ---------- clients ----------

    method GetClientId(endpoint: Endpoint) returns (id: ClientId)
      requires Sound(State())
      ensures id == IdAt(State(), endpoint)
    {
      if !running {
        return NO_CLIENT;
      }
      var rest := clientMap.Keys;
      while rest != {}
        invariant rest <= clientMap.Keys
        invariant forall k :: k in clientMap && clientMap[k].endpoint == endpoint ==> k in rest
        decreases |rest|
      {
        id := AnyOf(rest);
        if clientMap[id].endpoint == endpoint {
          return;
        }
        rest := rest - {id};
      }
      return NO_CLIENT;
    }

    method AddClient(protocol: Protocol, endpoint: Endpoint) returns (id: ClientId)
      requires Sound(State())
      modifies this`clientMap, this`lastId
      ensures id == AddedId(old(State()), endpoint)
      ensures State() == Registry.AddClient(old(State()), protocol, endpoint)
    {
      if !running {
        return NO_CLIENT;
      }
      var taken := GetClientId(endpoint);
      if taken != NO_CLIENT {
        return NO_CLIENT;
      }
      id := lastId;
      clientMap := clientMap[id := NewClient(protocol, endpoint, serverTime)];
      lastId := lastId + 1;
    }

    method RemoveClient(id: ClientId) returns (removed: bool)
      modifies this`clientMap
      ensures removed <==> running && id in old(clientMap)
      ensures State() == Registry.RemoveClient(old(State()), id)
    {
      if !running || id !in clientMap {
        return false;
      }
      clientMap := clientMap - {id};
      return true;
    }

    method RemoveClientAt(endpoint: Endpoint) returns (removed: bool)
      requires Sound(State())
      modifies this`clientMap
      ensures removed <==> running && Known(old(State()), endpoint)
      ensures State() == Registry.RemoveClient(old(State()), IdAt(old(State()), endpoint))
    {
      var id := GetClientId(endpoint);
      removed := RemoveClient(id);
    }

    // send by endpoint: the address the packet goes to, for the client at an endpoint. The socket of a TCP client is
    // used without a check.
    method Address(endpoint: Endpoint) returns (id: ClientId, to: Endpoint)
      requires Sound(State())
      ensures id == IdAt(State(), endpoint)
      ensures id != NO_CLIENT && clientMap[id].protocol == Udp ==> to == endpoint
      ensures id != NO_CLIENT && clientMap[id].protocol == Tcp ==> id in tcpClients && to == tcpClients[id]
    {
      to := endpoint;
      id := GetClientId(endpoint);
      if id != NO_CLIENT && clientMap[id].protocol == Tcp {
        to := tcpClients[id];
      }
    }

    // ---------- the listeners ----------

    // The answer to a heartbeat, in either listener.
    method Heard(id: ClientId)
      requires id in clientMap && running
      modifies this`clientMap
      ensures State() == HeardFrom(old(State()), id)
    {
      var c := clientMap[id];
      if !c.waiting {
        assert clientMap[id := c] == clientMap;
        return;
      }
      clientMap := clientMap[id := Answered(serverTime, c)];
    }

    method ReceiveUdpHeartbeat(endpoint: Endpoint)
      requires Sound(State()) && running
      modifies this`clientMap
      ensures State() == Step(old(State()), UdpHeartbeat(endpoint))
    {
      var id := GetClientId(endpoint);
      if id != NO_CLIENT {
        Heard(id);
      }
    }

    method ReceiveTcpHeartbeat(id: ClientId)
      requires id in tcpClients && running
      modifies this`clientMap
      ensures State() == Step(old(State()), TcpHeartbeat(id))
    {
      if id in clientMap {
        Heard(id);
      }
    }

    method AcceptConnection(endpoint: Endpoint)
      requires Sound(State()) && running
      modifies this
      ensures State() == Accept(old(State()), endpoint) && Sound(State())
    {
      AddClientSound(State(), endpoint);
      var id := AddClient(Tcp, endpoint);
      // emplace keeps what is stored already
      if id !in tcpClients {
        tcpClients := tcpClients[id := endpoint];
      }
    }

    // The sockets the selector finds disconnected: their clients go first, the sockets after the loop.
    method CloseConnections(closed: set<ClientId>)
      requires Sound(State()) && running
      modifies this
      ensures State() == CloseSockets(old(State()), closed) && Sound(State())
    {
      ghost var s := State();
      var rest, gone := tcpClients.Keys, {};
      while rest != {}
        invariant State() == s.(clients := s.clients - gone) && rest <= s.sockets
        invariant forall id :: id in gone <==> id in s.sockets && id !in rest && id in closed && id in s.clients
        decreases |rest|
      {
        var id := AnyOf(rest);
        rest := rest - {id};
        if id in closed && id in clientMap {
          var _ := RemoveClient(id);
          gone := gone + {id};
        }
      }
      assert forall id :: id in gone <==> id in s.sockets && id in closed && id in s.clients;
      CloseSocketsOf(s, closed, gone);
      tcpClients := tcpClients - gone;
      assert forall id :: id in tcpClients.Keys <==> id in s.sockets - gone;
      SameSet(tcpClients.Keys, s.sockets - gone);
      StepSound(s, Disconnections(closed));
    }
  }
}
