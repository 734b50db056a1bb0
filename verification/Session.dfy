/**
 The heartbeat protocol between the server and one of its clients, in real time: both sides update at least every
 `tick` milliseconds and packets arrive within `delay` milliseconds. Times are in microseconds.
 */
module Session {
  import opened Registry
  import opened Rollover
  import opened ClientSide

  // The reply to a Connect, or a heartbeat, on its way to the client; the answer to a heartbeat on its way back.
  datatype Packet = Greeting(sentAt: int) | Beat(sentAt: int, stamp: int) | Answer(sentAt: int)

  // `now` is the true time, `serverTick` and `clientTick` the times of the last updates. `heard` is the time the client
  // last heard from the server and `base` the time of its last update before that; they observe only.
  datatype Session = Session(
    server: ServerState, id: ClientId, client: ClientState, flying: seq<Packet>,
    now: int, serverTick: int, clientTick: int, heard: int, base: int)

  datatype Move =
    | Pass(dt: nat)
    | ServerUpdates
    | ClientUpdates
    | GreetingArrives(k: nat)
    | BeatArrives(k: nat)
    | AnswerArrives(k: nat)
    | Elsewhere(step: ServerStep)

  // A step of the server that has nothing to do with the client: other clients come, go and answer.
  ghost predicate Spares(s: ServerState, a: ServerStep, id: ClientId) {
    match a
    case Tick(_) => false
    case Join(_) => true
    case UdpHeartbeat(endpoint) => IdAt(s, endpoint) != id
    case TcpHeartbeat(from) => from != id
    case Expel(other) => other != id
    case ExpelFrom(endpoint) => IdAt(s, endpoint) != id
    case Connection(_) => true
    case Disconnections(closed) => id !in closed
    case ClearClients => false
    case StartServer => false
    case StopServer => false
  }

  // The moves that can be made. Time passes no further than the next update or arrival is due, and, rollovers aside,
  // not beyond the end of the server's clock. A client that waits for the reply to its Connect does not update.
  ghost predicate Enabled(x: Session, m: Move, tick: nat, delay: nat) {
    match m
    case Pass(dt) =>
      && x.now + dt <= x.serverTick + tick * 1000
      && (x.client.connected ==> x.now + dt <= x.clientTick + tick * 1000)
      && (forall k :: 0 <= k < |x.flying| ==> x.now + dt <= x.flying[k].sentAt + delay * 1000)
      && (x.server.time + x.now + dt - x.serverTick) / 1000 <= HIGHEST_TIMESTAMP
    case ServerUpdates => x.serverTick <= x.now
    case ClientUpdates => x.clientTick <= x.now
    case GreetingArrives(k) => k < |x.flying| && x.flying[k].Greeting?
    case BeatArrives(k) => k < |x.flying| && x.flying[k].Beat?
    case AnswerArrives(k) => k < |x.flying| && x.flying[k].Answer?
    case Elsewhere(a) => Spares(x.server, a, x.id)
  }

  function Landed(flying: seq<Packet>, k: nat): seq<Packet>
    requires k < |flying|
  {
    flying[..k] + flying[k + 1..]
  }

  ghost function After(x: Session, m: Move, tick: nat, delay: nat): Session
    requires Enabled(x, m, tick, delay)
  {
    match m
    case Pass(dt) => x.(now := x.now + dt)
    case ServerUpdates =>
      var server := Updated(x.server, x.now - x.serverTick);
      x.(server := server, serverTick := x.now,
         flying := x.flying +
                   if x.id in Beats(x.server, x.now - x.serverTick) then [Beat(x.now, Ms(server.time))] else [])
    case ClientUpdates => x.(client := Aged(x.client, x.now - x.clientTick), clientTick := x.now)
    case GreetingArrives(k) =>
      if x.client.connected then x.(flying := Landed(x.flying, k))
      else
        x.(client := Admitted(x.client), flying := Landed(x.flying, k), clientTick := x.now, heard := x.now,
           base := x.now)
    case BeatArrives(k) =>
      if x.client.connected then
        x.(client := Reminded(x.client, x.flying[k].stamp), flying := Landed(x.flying, k) + [Answer(x.now)],
           heard := x.now, base := x.clientTick)
      else x.(flying := Landed(x.flying, k))
    case AnswerArrives(k) => x.(server := HeardFrom(x.server, x.id), flying := Landed(x.flying, k))
    case Elsewhere(a) => x.(server := Step(x.server, a))
  }

  ghost predicate Possible(x: Session, moves: seq<Move>, tick: nat, delay: nat)
    decreases |moves|
  {
    moves == [] ||
    (Enabled(x, moves[0], tick, delay) && Possible(After(x, moves[0], tick, delay), moves[1..], tick, delay))
  }

  ghost function Outcome(x: Session, moves: seq<Move>, tick: nat, delay: nat): Session
    requires Possible(x, moves, tick, delay)
    decreases |moves|
  {
    if moves == [] then x else Outcome(After(x, moves[0], tick, delay), moves[1..], tick, delay)
  }

  // The server knows the client, and the client knows the server.
  ghost predicate Together(x: Session) {
    x.server.running && x.id in x.server.clients && x.client.connected
  }

  // ---------- the invariant ----------

  // The true time of the server's update at which it last heard from the client.
  function Contact(x: Session): int
    requires x.id in x.server.clients
  {
    x.server.clients[x.id].lastHeartbeat - x.server.time + x.serverTick
  }

  ghost predicate Clocks(x: Session, tick: nat) {
    && x.serverTick <= x.now <= x.serverTick + tick * 1000
    && x.clientTick <= x.now <= x.clientTick + tick * 1000
    && (x.server.time + x.now - x.serverTick) / 1000 <= HIGHEST_TIMESTAMP
    && Together(x)
    && 0 <= x.server.clients[x.id].lastHeartbeat <= x.server.time
    && 0 <= x.client.lastHeartbeat <= x.client.time && x.client.time / 1000 <= HIGHEST_TIMESTAMP
    && x.client.time - x.client.lastHeartbeat <= x.clientTick - x.base
    && x.heard - tick * 1000 <= x.base <= x.clientTick && x.heard <= x.now
  }

  // Nothing is under way and the silence is below the heartbeat interval; or a heartbeat is, or its answer is.
  ghost predicate Phase(x: Session, tick: nat, delay: nat)
    requires x.id in x.server.clients
  {
    var c := x.server.clients[x.id];
    match |x.flying|
    case 0 =>
      && !c.waiting && Contact(x) <= x.heard + delay * 1000
      && Ms(x.server.time) - Ms(c.lastHeartbeat) < HEARTBEAT_INTERVAL
    case 1 =>
      var p := x.flying[0];
      && c.waiting && p.sentAt <= x.now <= p.sentAt + delay * 1000
      && (if p.Beat? then
            && p.sentAt - Contact(x) < (HEARTBEAT_INTERVAL + tick) * 1000 && Contact(x) <= x.heard + delay * 1000
            && 0 <= p.stamp <= HIGHEST_TIMESTAMP
          else
            && p.Answer?
            && p.sentAt - Contact(x) < (HEARTBEAT_INTERVAL + tick + delay) * 1000 && p.sentAt == x.heard)
    case _ => false
  }

  ghost predicate Good(x: Session, tick: nat, delay: nat) {
    Sound(x.server) && Clocks(x, tick) && Phase(x, tick, delay)
  }

  // How long the server can have been without the client, and the client without the server.
  lemma Silences(x: Session, tick: nat, delay: nat)
    requires Good(x, tick, delay)
    ensures x.now - Contact(x) < (HEARTBEAT_INTERVAL + tick + 2 * delay) * 1000
    ensures x.flying == [] ==> x.now - Contact(x) < (HEARTBEAT_INTERVAL + tick) * 1000
    ensures x.now - x.base < (HEARTBEAT_INTERVAL + 2 * tick + 2 * delay) * 1000
  {
  }

  // The silence the server's next update reports.
  lemma ServerReports(x: Session, tick: nat, delay: nat)
    requires Good(x, tick, delay)
    ensures var dt := x.now - x.serverTick;
            var a, c := Advance(x.server, dt), x.server.clients[x.id];
            && a == x.server.(time := x.server.time + dt)
            && 0 <= Ms(a.time) <= HIGHEST_TIMESTAMP
            && Elapsed(a.time, c) <= HEARTBEAT_INTERVAL + tick + 2 * delay
  {
  }

  lemma ServerUpdatesGood(x: Session, tick: nat, delay: nat)
    requires Good(x, tick, delay) && HEARTBEAT_INTERVAL + 2 * tick + 2 * delay < CLIENT_TIMEOUT
    ensures Good(After(x, ServerUpdates, tick, delay), tick, delay)
  {
    hide Advance, Swept, Due, Expired, Ms;
    var dt := x.now - x.serverTick;
    var a := Advance(x.server, dt);
    ServerReports(x, tick, delay);
    Silences(x, tick, delay);
    HeartbeatRound(x.server, dt, x.id);
    UpdateSound(x.server, dt);
    SweptFacts(a.time, a.clients, x.id);
  }

  // An update of a client that has not been without its server for the timeout.
  lemma AgedStays(c: ClientState, dt: nat, tick: nat)
    requires c.connected && 0 <= c.lastHeartbeat <= c.time && c.time / 1000 <= HIGHEST_TIMESTAMP
    requires dt <= tick * 1000 && tick < HIGHEST_TIMESTAMP
    requires c.time + dt - c.lastHeartbeat < CLIENT_TIMEOUT * 1000
    ensures var c' := Aged(c, dt);
            && c'.connected && 0 <= c'.lastHeartbeat <= c'.time && c'.time / 1000 <= HIGHEST_TIMESTAMP
            && c'.time - c'.lastHeartbeat <= c.time + dt - c.lastHeartbeat
  {
  }

  lemma ClientUpdatesGood(x: Session, tick: nat, delay: nat)
    requires Good(x, tick, delay) && HEARTBEAT_INTERVAL + 2 * tick + 2 * delay < CLIENT_TIMEOUT
    ensures Good(After(x, ClientUpdates, tick, delay), tick, delay)
  {
    hide Aged, Ms;
    Silences(x, tick, delay);
    AgedStays(x.client, x.now - x.clientTick, tick);
  }

  lemma BeatArrivesGood(x: Session, k: nat, tick: nat, delay: nat)
    requires Good(x, tick, delay) && Enabled(x, BeatArrives(k), tick, delay)
    ensures Good(After(x, BeatArrives(k), tick, delay), tick, delay)
  {
  }

  lemma AnswerArrivesGood(x: Session, k: nat, tick: nat, delay: nat)
    requires Good(x, tick, delay) && Enabled(x, AnswerArrives(k), tick, delay)
    ensures Good(After(x, AnswerArrives(k), tick, delay), tick, delay)
  {
  }

  lemma ElsewhereGood(x: Session, a: ServerStep, tick: nat, delay: nat)
    requires Good(x, tick, delay) && Spares(x.server, a, x.id)
    ensures Good(After(x, Elsewhere(a), tick, delay), tick, delay)
  {
    StepSound(x.server, a);
    assert x.id in Step(x.server, a).clients;
    assert !Contacts(x.server, a, x.id);
    OtherSteps(x.server, a, x.id);
  }

  lemma MoveGood(x: Session, m: Move, tick: nat, delay: nat)
    requires Good(x, tick, delay) && Enabled(x, m, tick, delay)
    requires HEARTBEAT_INTERVAL + 2 * tick + 2 * delay < CLIENT_TIMEOUT
    ensures Good(After(x, m, tick, delay), tick, delay)
  {
    match m {
      case Pass(_) =>
      case ServerUpdates => ServerUpdatesGood(x, tick, delay);
      case ClientUpdates => ClientUpdatesGood(x, tick, delay);
      case GreetingArrives(_) =>
      case BeatArrives(k) => BeatArrivesGood(x, k, tick, delay);
      case AnswerArrives(k) => AnswerArrivesGood(x, k, tick, delay);
      case Elsewhere(a) => ElsewhereGood(x, a, tick, delay);
    }
  }

  // The client has just connected: the server let it in less than a heartbeat interval ago.
  ghost predicate JustConnected(x: Session, tick: nat) {
    && Sound(x.server) && Together(x) && x.flying == []
    && x.serverTick <= x.now <= x.serverTick + tick * 1000 && x.clientTick <= x.now <= x.clientTick + tick * 1000
    && x.heard == x.now && x.base == x.clientTick
    && (x.server.time + x.now - x.serverTick) / 1000 <= HIGHEST_TIMESTAMP
    && x.client.lastHeartbeat == x.client.time && 0 <= x.client.time / 1000 <= HIGHEST_TIMESTAMP
    && var c := x.server.clients[x.id];
       && !c.waiting && 0 <= c.lastHeartbeat <= x.server.time
       && Ms(x.server.time) - Ms(c.lastHeartbeat) < HEARTBEAT_INTERVAL
  }

  lemma {:induction false} GoodInEveryRun(x: Session, moves: seq<Move>, tick: nat, delay: nat)
    requires Good(x, tick, delay) && Possible(x, moves, tick, delay)
    requires HEARTBEAT_INTERVAL + 2 * tick + 2 * delay < CLIENT_TIMEOUT
    ensures Good(Outcome(x, moves, tick, delay), tick, delay)
    decreases |moves|
  {
    if moves != [] {
      MoveGood(x, moves[0], tick, delay);
      GoodInEveryRun(After(x, moves[0], tick, delay), moves[1..], tick, delay);
    }
  }

  lemma JustConnectedIsGood(x: Session, tick: nat, delay: nat)
    requires JustConnected(x, tick)
    ensures Good(x, tick, delay)
  {
  }

  // If 1000 + 2 * tick + 2 * delay < 10000, then in every run without packet loss from any state in which no heartbeat
  // has been missed, whatever the server's other clients do, the server never evicts the client and the client never
  // gives up the server. At most one packet is under way.
  lemma NeverTimesOut(x: Session, moves: seq<Move>, tick: nat, delay: nat)
    requires Good(x, tick, delay) && Possible(x, moves, tick, delay)
    requires HEARTBEAT_INTERVAL + 2 * tick + 2 * delay < CLIENT_TIMEOUT
    ensures Together(Outcome(x, moves, tick, delay))
    ensures |Outcome(x, moves, tick, delay).flying| <= 1
  {
    GoodInEveryRun(x, moves, tick, delay);
  }
}
