/** What each step of the server, and of its client, does to the fields of a client's record. */
module ServerSteps {
  import opened Registry
  import opened ClientSide

  // An update moves the clock and nothing else of the server; whoever it keeps is as before, but for a rollover and for
  // the heartbeat it is sent.
  lemma UpdateOutcome(s: ServerState, dt: nat, id: ClientId)
    requires Sound(s) && s.running
    ensures var s' := Updated(s, dt);
            && s'.(time := s.time, clients := s.clients) == s
            && s'.time == (if Ms(s.time + dt) < 0 then s.time + dt - 2147483647000 else s.time + dt)
            && (id in s'.clients ==> id in s.clients)
            && (id in s.clients && Ms(s.time + dt) >= 0 ==>
                  var silence := Ms(s.time + dt) - Ms(s.clients[id].lastHeartbeat);
                  && (id in s'.clients <==> silence < 10000)
                  && (id in Beats(s, dt) <==> 1000 <= silence < 10000 && !s.clients[id].waiting))
            && (id in s'.clients && Ms(s.time + dt) >= 0 ==>
                  s'.clients[id] ==
                  if id in Beats(s, dt) then s.clients[id].(waiting := true, retry := 1, heartbeatSent := s'.time)
                  else s.clients[id])
  {
  }

  // An answer counts for a client that is waiting: the server has heard from it now.
  lemma AnswerOutcome(s: ServerState, id: ClientId, other: ClientId)
    ensures var s' := HeardFrom(s, id);
            && s'.(clients := s.clients) == s && s'.clients.Keys == s.clients.Keys
            && (other != id && other in s.clients ==> s'.clients[other] == s.clients[other])
            && (s.running && id in s.clients ==>
                  var c, c' := s.clients[id], s'.clients[id];
                  if !c.waiting then c' == c
                  else
                    && !c'.waiting && c'.retry == 0 && c'.lastHeartbeat == s.time
                    && (0 <= Ms(s.time) - Ms(c.lastHeartbeat) ==> c'.ping == Ms(s.time) - Ms(c.lastHeartbeat))
                    && c'.(waiting := c.waiting, retry := c.retry, lastHeartbeat := c.lastHeartbeat,
                           ping := c.ping) == c)
  {
  }

  // A client that joins is heard from now, has nothing to answer, and nobody else notices.
  lemma JoinOutcome(s: ServerState, protocol: Protocol, endpoint: Endpoint)
    ensures var s', id := AddClient(s, protocol, endpoint), AddedId(s, endpoint);
            && (id == NO_CLIENT <==> !s.running || exists i :: i in s.clients && s.clients[i].endpoint == endpoint)
            && (id == NO_CLIENT ==> s' == s)
            && (id != NO_CLIENT ==>
                  && id == s.lastId && s'.lastId == s.lastId + 1 && s'.(lastId := s.lastId, clients := s.clients) == s
                  && id in s'.clients
                  && (forall i :: i != id ==> (i in s'.clients <==> i in s.clients))
                  && (forall i :: i != id && i in s.clients ==> s'.clients[i] == s.clients[i])
                  && var c := s'.clients[id];
                     c.protocol == protocol && c.endpoint == endpoint && c.lastHeartbeat == s.time
                     && !c.waiting && c.retry == 0)
  {
    if exists i :: i in s.clients && s.clients[i].endpoint == endpoint {
      assert Known(s, endpoint);
    }
  }

  // Leaving takes exactly the client; a lost connection takes exactly the clients behind it, and their sockets;
  // clearing takes everyone and keeps ids growing.
  lemma LeaveOutcome(s: ServerState, id: ClientId, closed: set<ClientId>, i: ClientId)
    requires s.running
    ensures var s' := RemoveClient(s, id);
            && s'.(clients := s.clients) == s && (i in s'.clients <==> i in s.clients && i != id)
            && (i in s'.clients ==> s'.clients[i] == s.clients[i])
    ensures var s', gone := CloseSockets(s, closed), i in closed && i in s.sockets && i in s.clients;
            && s'.(clients := s.clients, sockets := s.sockets) == s
            && (i in s'.clients <==> i in s.clients && !gone) && (i in s'.sockets <==> i in s.sockets && !gone)
            && (i in s'.clients ==> s'.clients[i] == s.clients[i])
    ensures var s' := DisconnectAll(s); s'.clients == map[] && s'.sockets == {} && s'.lastId == s.lastId && s'.running
  {
  }

  // Starting a stopped server lets ids begin at zero and keeps its clock; stopping a running one takes everyone.
  lemma StartStopOutcome(s: ServerState)
    ensures Start(s) == if s.running then s else s.(running := true, lastId := 0)
    ensures Stop(s) == if s.running then s.(running := false, clients := map[], sockets := {}) else s
  {
  }

  // A TCP connection joins as a TCP client with a socket, or leaves its socket under -1 if the endpoint is taken.
  lemma AcceptOutcome(s: ServerState, endpoint: Endpoint)
    requires s.running
    ensures var s', id := Accept(s, endpoint), AddedId(s, endpoint);
            && s'.(sockets := s.sockets) == AddClient(s, Tcp, endpoint)
            && (forall i :: i in s'.sockets <==> i in s.sockets || i == id)
  {
  }

  // The client gives its server up exactly after more than ten seconds of silence, unless its clock has just rolled
  // over; whatever it hears from the server sets its clock.
  lemma ClientGivesUpExactly(c: ClientState, dt: nat, stamp: int)
    requires c.connected
    ensures var c' := Aged(c, dt);
            && (!c'.connected <==> Ms(c.time + dt) >= 0 && Ms(c.time + dt) - Ms(c.lastHeartbeat) > 10000)
            && (if Ms(c.time + dt) >= 0 then c'.time == c.time + dt && c'.lastHeartbeat == c.lastHeartbeat
                else c'.time == c.time + dt - 2147483647000 && c'.lastHeartbeat == c'.time)
    ensures Reminded(c, stamp) == ClientState(true, stamp * 1000, stamp * 1000)
  {
  }

  // A client that is not connected neither ages nor hears anything, and connecting takes its clock for the last
  // contact.
  lemma ClientConnects(c: ClientState, dt: nat, stamp: int)
    requires !c.connected
    ensures Aged(c, dt) == c && Reminded(c, stamp) == c && Admitted(c) == ClientState(true, c.time, c.time)
  {
  }
}
