/** The clock and the heartbeat of src/client/Client.cpp. */
module ClientSide {
  import opened Registry

  // Times are in microseconds.
  datatype ClientState = ClientState(connected: bool, time: int, lastHeartbeat: int)

  // update: the clock rolls over, or the server has been silent for too long.
  function Aged(c: ClientState, dt: nat): ClientState {
    var time := c.time + dt;
    if !c.connected then c
    else if Ms(time) < 0 then
      var rolled := time - Milliseconds(HIGHEST_TIMESTAMP);
      c.(time := rolled, lastHeartbeat := rolled)
    else if Ms(time) - Ms(c.lastHeartbeat) > CLIENT_TIMEOUT then c.(time := time, connected := false)
    else c.(time := time)
  }

  // A heartbeat arrives with the server's time.
  function Reminded(c: ClientState, stamp: int): ClientState {
    if c.connected then c.(time := Milliseconds(stamp), lastHeartbeat := Milliseconds(stamp)) else c
  }

  // connect has found the server's reply.
  function Admitted(c: ClientState): ClientState {
    if c.connected then c else c.(connected := true, lastHeartbeat := c.time)
  }

  class Client {
    var connected: bool
    var serverTime: int
    var lastHeartbeat: int

    function State(): ClientState
      reads this
    {
      ClientState(connected, serverTime, lastHeartbeat)
    }

    constructor ()
      ensures State() == ClientState(false, 0, 0)
    {
      connected, serverTime, lastHeartbeat := false, 0, 0;
    }

    // connect; `sent`: the Connect packet went out, `replied`: a Connect packet of the server arrived in time.
    method Connect(sent: bool, replied: bool) returns (done: bool)
      modifies this
      ensures done <==> !old(connected) && sent && replied
      ensures State() == if done then Admitted(old(State())) else old(State())
    {
      if connected || !sent || !replied {
        return false;
      }
      connected := true;
      lastHeartbeat := serverTime;
      return true;
    }

    method Disconnect() returns (done: bool)
      modifies this
      ensures done <==> old(connected)
      ensures State() == old(State()).(connected := false)
    {
      done := connected;
      connected := false;
    }

    method Update(dt: nat)
      modifies this
      ensures State() == Aged(old(State()), dt)
    {
      if !connected {
        return;
      }
      serverTime := serverTime + dt;
      if Ms(serverTime) < 0 {
        serverTime := serverTime - Milliseconds(HIGHEST_TIMESTAMP);
        lastHeartbeat := serverTime;
        return;
      }
      if Ms(serverTime) - Ms(lastHeartbeat) > CLIENT_TIMEOUT {
        var _ := Disconnect();
      }
    }

    // The Heartbeat arm of the listeners: answer, then take over the server's time.
    method ReceiveHeartbeat(stamp: int) returns (answered: bool)
      modifies this
      ensures answered <==> old(connected)
      ensures State() == Reminded(old(State()), stamp)
    {
      if !connected {
        return false;
      }
      serverTime := Milliseconds(stamp);
      lastHeartbeat := serverTime;
      return true;
    }
  }
}
