/**
 From addClient to the end of Client::connect. The server counts a client from the moment it answers the Connect, but
 the client throws away whatever arrives before that answer: a heartbeat that overtakes it is lost.
 */
module Handshake {
  import opened Registry
  import opened Rollover
  import opened ClientSide
  import opened Session

  // The server has just let the client in and sent its answer; the client waits for it in connect.
  ghost predicate LetIn(x: Session, tick: nat) {
    && (exists s, endpoint :: Admits(s, endpoint, x))
    && x.serverTick <= x.now <= x.serverTick + tick * 1000
    && 0 <= x.server.time && (x.server.time + x.now - x.serverTick) / 1000 <= HIGHEST_TIMESTAMP
    && !x.client.connected && 0 <= x.client.time && x.client.time / 1000 <= HIGHEST_TIMESTAMP
    && x.flying == [Greeting(x.now)]
  }

  ghost predicate Admits(s: ServerState, endpoint: Endpoint, x: Session) {
    && Sound(s) && AddedId(s, endpoint) == x.id && x.id != NO_CLIENT
    && x.server == AddClient(s, Udp, endpoint)
  }

  // The client still waits for the answer.
  ghost predicate Early(x: Session, tick: nat, delay: nat) {
    && Sound(x.server) && x.server.running && x.id in x.server.clients
    && x.serverTick <= x.now <= x.serverTick + tick * 1000
    && (x.server.time + x.now - x.serverTick) / 1000 <= HIGHEST_TIMESTAMP
    && 0 <= x.server.clients[x.id].lastHeartbeat <= x.server.time
    && !x.client.connected && 0 <= x.client.time && x.client.time / 1000 <= HIGHEST_TIMESTAMP
    && 1 <= |x.flying| <= 2 && x.flying[0].Greeting?
    && var sent := x.flying[0].sentAt;
       && sent <= x.now <= sent + delay * 1000
       && Contact(x) <= sent <= Contact(x) + tick * 1000
       && (tick == 0 ==> x.now == sent)
       && (|x.flying| == 2 ==> IsFirstBeat(x, x.flying[1], tick, delay))
  }

  ghost predicate IsFirstBeat(x: Session, p: Packet, tick: nat, delay: nat)
    requires x.id in x.server.clients
  {
    && x.server.clients[x.id].waiting && p.Beat? && p.sentAt <= x.now <= p.sentAt + delay * 1000
    && p.sentAt - Contact(x) < (HEARTBEAT_INTERVAL + tick) * 1000 && 0 <= p.stamp <= HIGHEST_TIMESTAMP
  }

  predicate Waiting(x: Session) {
    x.id in x.server.clients && x.server.clients[x.id].waiting
  }

  // No heartbeat has been sent yet; the next one is not due before the reported silence reaches a second.
  ghost predicate Fresh(x: Session, tick: nat, delay: nat) {
    Early(x, tick, delay) && |x.flying| == 1 && !Waiting(x)
    && Ms(x.server.time) - Ms(x.server.clients[x.id].lastHeartbeat) < HEARTBEAT_INTERVAL
  }

  // A heartbeat is under way behind the answer.
  ghost predicate Chased(x: Session, tick: nat, delay: nat) {
    Early(x, tick, delay) && |x.flying| == 2
  }

  // The first heartbeat has come before the answer, and is lost.
  ghost predicate Overtaken(x: Session, tick: nat, delay: nat) {
    Early(x, tick, delay) && |x.flying| == 1 && Waiting(x)
  }

  lemma LetInIsFresh(x: Session, tick: nat, delay: nat)
    requires LetIn(x, tick)
    ensures Fresh(x, tick, delay)
  {
    var s, endpoint :| Admits(s, endpoint, x);
    AddClientSound(s, endpoint);
  }

  // If the answer arrives before the first heartbeat is due, the client has just connected; with the heartbeat behind
  // it, all is well too.
  lemma GreetingConnects(x: Session, tick: nat, delay: nat)
    requires Fresh(x, tick, delay) || Chased(x, tick, delay)
    ensures var y := After(x, GreetingArrives(0), tick, delay);
            Good(y, tick, delay) && (Fresh(x, tick, delay) ==> JustConnected(y, tick))
  {
    if Fresh(x, tick, delay) {
      JustConnectedIsGood(After(x, GreetingArrives(0), tick, delay), tick, delay);
    }
  }

  // Nothing is under way, and the server waits for an answer it will not get, or has given the client up.
  ghost predicate Stranded(x: Session, tick: nat) {
    && Sound(x.server) && x.server.running && x.flying == [] && x.id < x.server.lastId
    && x.serverTick <= x.now <= x.serverTick + tick * 1000
    && 0 <= x.server.time && (x.server.time + x.now - x.serverTick) / 1000 <= HIGHEST_TIMESTAMP
    && (x.id in x.server.clients ==>
          && Waiting(x) && 0 <= x.server.clients[x.id].lastHeartbeat <= x.server.time
          && x.serverTick - Contact(x) < CLIENT_TIMEOUT * 1000)
  }

  lemma GreetingStrands(x: Session, tick: nat, delay: nat)
    requires Overtaken(x, tick, delay) && (tick == 0 || tick + delay < CLIENT_TIMEOUT)
    ensures var y := After(x, GreetingArrives(0), tick, delay);
            Stranded(y, tick) && Together(y) && Contact(y) == Contact(x)
  {
  }

  // ---------- while the client waits ----------

  lemma EarlyReports(x: Session, tick: nat, delay: nat)
    requires Early(x, tick, delay)
    ensures var dt := x.now - x.serverTick;
            var a, c := Advance(x.server, dt), x.server.clients[x.id];
            && a == x.server.(time := x.server.time + dt)
            && 0 <= Ms(a.time) <= HIGHEST_TIMESTAMP
            && Elapsed(a.time, c) <= tick + delay
            && (tick == 0 ==> Elapsed(a.time, c) == 0)
            && (Elapsed(x.server.time, c) < HEARTBEAT_INTERVAL ==>
                x.server.time - c.lastHeartbeat < HEARTBEAT_INTERVAL * 1000)
  {
  }

  lemma UpdateWhileFresh(x: Session, tick: nat, delay: nat)
    requires Fresh(x, tick, delay) && (tick == 0 || tick + delay < CLIENT_TIMEOUT)
    ensures var y := After(x, ServerUpdates, tick, delay);
            if tick == 0 || tick + delay < HEARTBEAT_INTERVAL then Fresh(y, tick, delay)
            else Fresh(y, tick, delay) || Chased(y, tick, delay)
  {
    hide Advance, Swept, Due, Expired, Ms;
    var dt := x.now - x.serverTick;
    var a := Advance(x.server, dt);
    EarlyReports(x, tick, delay);
    HeartbeatRound(x.server, dt, x.id);
    UpdateSound(x.server, dt);
    SweptFacts(a.time, a.clients, x.id);
  }

  lemma UpdateWhileWaiting(x: Session, tick: nat, delay: nat)
    requires Early(x, tick, delay) && Waiting(x) && (tick == 0 || tick + delay < CLIENT_TIMEOUT)
    ensures var y := After(x, ServerUpdates, tick, delay);
            Early(y, tick, delay) && Waiting(y) && y.flying == x.flying
  {
    hide Advance, Swept, Due, Expired, Ms;
    var dt := x.now - x.serverTick;
    var a := Advance(x.server, dt);
    EarlyReports(x, tick, delay);
    HeartbeatRound(x.server, dt, x.id);
    UpdateSound(x.server, dt);
    SweptFacts(a.time, a.clients, x.id);
  }

  lemma ElsewhereEarly(x: Session, a: ServerStep, tick: nat, delay: nat)
    requires Early(x, tick, delay) && Spares(x.server, a, x.id)
    ensures var y := After(x, Elsewhere(a), tick, delay);
            Early(y, tick, delay) && y.server.clients[x.id] == x.server.clients[x.id] && y.server.time == x.server.time
  {
    StepSound(x.server, a);
    assert x.id in Step(x.server, a).clients;
    assert !Contacts(x.server, a, x.id);
    OtherSteps(x.server, a, x.id);
  }

  // Whatever happens but the arrival of the answer.
  lemma MoveEarly(x: Session, m: Move, tick: nat, delay: nat)
    requires Early(x, tick, delay) && Enabled(x, m, tick, delay) && !m.GreetingArrives?
    requires tick == 0 || tick + delay < CLIENT_TIMEOUT
    requires Fresh(x, tick, delay) || Chased(x, tick, delay) || Overtaken(x, tick, delay)
    ensures var y := After(x, m, tick, delay);
            if m.BeatArrives? then Overtaken(y, tick, delay)
            else if Overtaken(x, tick, delay) then Overtaken(y, tick, delay)
            else if Chased(x, tick, delay) then Chased(y, tick, delay)
            else if tick == 0 || tick + delay < HEARTBEAT_INTERVAL then Fresh(y, tick, delay)
            else Fresh(y, tick, delay) || Chased(y, tick, delay)
  {
    match m {
      case ServerUpdates =>
        if Waiting(x) {
          UpdateWhileWaiting(x, tick, delay);
        } else {
          UpdateWhileFresh(x, tick, delay);
        }
      case Elsewhere(a) => ElsewhereEarly(x, a, tick, delay);
      case _ =>
    }
  }

  lemma UpdateKeepsContact(x: Session, tick: nat, delay: nat)
    requires Early(x, tick, delay) && x.id in After(x, ServerUpdates, tick, delay).server.clients
    ensures Contact(After(x, ServerUpdates, tick, delay)) == Contact(x)
  {
    EarlyReports(x, tick, delay);
    SweptFacts(x.server.time + x.now - x.serverTick, x.server.clients, x.id);
  }

  lemma MoveKeepsContact(x: Session, m: Move, tick: nat, delay: nat)
    requires Early(x, tick, delay) && Enabled(x, m, tick, delay)
    requires x.id in After(x, m, tick, delay).server.clients
    ensures Contact(After(x, m, tick, delay)) == Contact(x)
  {
    match m {
      case ServerUpdates => UpdateKeepsContact(x, tick, delay);
      case Elsewhere(a) => ElsewhereEarly(x, a, tick, delay);
      case _ =>
    }
  }

  // ---------- once the heartbeat is lost ----------

  // The heartbeat sent after `contact`, when the server last heard of the client, is lost.
  ghost predicate Lost(x: Session, contact: int, tick: nat, delay: nat) {
    && (Overtaken(x, tick, delay) || Stranded(x, tick))
    && (x.id in x.server.clients ==> Contact(x) == contact)
  }

  lemma Expires(x: Session, tick: nat, delay: nat)
    requires Stranded(x, tick)
    ensures var y := After(x, ServerUpdates, tick, delay);
            && Stranded(y, tick)
            && (x.id in y.server.clients ==> x.id in x.server.clients && Contact(y) == Contact(x))
  {
    hide Ms, Swept, Due, Expired;
    var dt := x.now - x.serverTick;
    UpdateSound(x.server, dt);
    PlainAdvance(x.server, dt);
    SweptFacts(x.server.time + dt, x.server.clients, x.id);
    if x.id in x.server.clients {
      HeartbeatRound(x.server, dt, x.id);
      if x.id in Updated(x.server, dt).clients {
        SilenceInTime(x.server.time + dt, x.server.clients[x.id].lastHeartbeat);
      }
    }
  }

  lemma PlainAdvance(s: ServerState, dt: nat)
    requires 0 <= s.time && (s.time + dt) / 1000 <= HIGHEST_TIMESTAMP
    ensures Advance(s, dt) == s.(time := s.time + dt)
  {
  }

  lemma SilenceInTime(time: int, last: int)
    requires 0 <= last && 0 <= time / 1000 <= HIGHEST_TIMESTAMP && last <= time
    requires Ms(time) - Ms(last) < CLIENT_TIMEOUT
    ensures time - last < CLIENT_TIMEOUT * 1000
  {
  }

  lemma ElsewhereStranded(x: Session, a: ServerStep, tick: nat, delay: nat)
    requires Stranded(x, tick) && Spares(x.server, a, x.id)
    ensures var y := After(x, Elsewhere(a), tick, delay);
            && Stranded(y, tick)
            && (x.id in y.server.clients ==> x.id in x.server.clients && Contact(y) == Contact(x))
  {
    StepSound(x.server, a);
  }

  lemma MoveStranded(x: Session, m: Move, tick: nat, delay: nat)
    requires Stranded(x, tick) && Enabled(x, m, tick, delay)
    ensures var y := After(x, m, tick, delay);
            && Stranded(y, tick) && y.id == x.id
            && (x.id in y.server.clients ==> x.id in x.server.clients && Contact(y) == Contact(x))
  {
    match m {
      case ServerUpdates => Expires(x, tick, delay);
      case Elsewhere(a) => ElsewhereStranded(x, a, tick, delay);
      case _ =>
    }
  }

  lemma MoveLost(x: Session, m: Move, contact: int, tick: nat, delay: nat)
    requires Lost(x, contact, tick, delay) && Enabled(x, m, tick, delay) && (tick == 0 || tick + delay < CLIENT_TIMEOUT)
    ensures Lost(After(x, m, tick, delay), contact, tick, delay)
  {
    if Stranded(x, tick) {
      MoveStranded(x, m, tick, delay);
    } else {
      EarlyKnows(x, tick, delay);
      if m.GreetingArrives? {
        FirstIsGreeting(x, m.k, tick, delay);
        GreetingStrands(x, tick, delay);
      } else {
        MoveEarly(x, m, tick, delay);
        EarlyKnows(After(x, m, tick, delay), tick, delay);
        MoveKeepsContact(x, m, tick, delay);
      }
    }
    hide Stranded, Overtaken, Early;
  }

  // Once the first heartbeat is lost, whatever happens: the client is never sent another one, nothing it could answer
  // is ever under way, and the server has given it up at the latest one update after the timeout, without any packet
  // loss.
  lemma {:induction false} LostForever(x: Session, moves: seq<Move>, contact: int, tick: nat, delay: nat)
    requires Lost(x, contact, tick, delay) && Possible(x, moves, tick, delay)
    requires tick == 0 || tick + delay < CLIENT_TIMEOUT
    ensures var y := Outcome(x, moves, tick, delay);
            && Lost(y, contact, tick, delay)
            && (forall k :: 0 <= k < |y.flying| ==> y.flying[k].Greeting?)
            && (y.now - contact >= (CLIENT_TIMEOUT + tick) * 1000 ==> x.id !in y.server.clients)
    decreases |moves|
  {
    if moves != [] {
      MoveLost(x, moves[0], contact, tick, delay);
      LostForever(After(x, moves[0], tick, delay), moves[1..], contact, tick, delay);
    }
  }

  // ---------- whole runs ----------

  // A heartbeat arrives before the answer to the Connect does.
  predicate BeatFirst(moves: seq<Move>) {
    moves != [] && !moves[0].GreetingArrives? && (moves[0].BeatArrives? || BeatFirst(moves[1..]))
  }

  // Everything is in order.
  ghost predicate Healthy(x: Session, tick: nat, delay: nat) {
    Fresh(x, tick, delay) || Chased(x, tick, delay) || Good(x, tick, delay)
  }

  lemma EarlyKnows(x: Session, tick: nat, delay: nat)
    requires Fresh(x, tick, delay) || Chased(x, tick, delay) || Overtaken(x, tick, delay)
    ensures Early(x, tick, delay) && x.id in x.server.clients
  {
  }

  lemma LostIsNotHealthy(x: Session, contact: int, tick: nat, delay: nat)
    requires Lost(x, contact, tick, delay)
    ensures !Healthy(x, tick, delay)
  {
  }

  lemma FirstIsGreeting(x: Session, k: nat, tick: nat, delay: nat)
    requires Early(x, tick, delay) && Enabled(x, GreetingArrives(k), tick, delay)
    ensures k == 0
  {
  }

  lemma {:induction false} SameId(x: Session, moves: seq<Move>, tick: nat, delay: nat)
    requires Possible(x, moves, tick, delay)
    ensures Outcome(x, moves, tick, delay).id == x.id
    decreases |moves|
  {
    if moves != [] {
      SameId(After(x, moves[0], tick, delay), moves[1..], tick, delay);
    }
  }

  // If 1000 + 2 * tick + 2 * delay < 10000, a run from the handshake on loses the session if a heartbeat arrives before
  // the answer to the Connect, and otherwise keeps server and client together.
  lemma {:induction false} LostExactly(x: Session, moves: seq<Move>, tick: nat, delay: nat)
    requires Fresh(x, tick, delay) || Chased(x, tick, delay)
    requires Possible(x, moves, tick, delay) && HEARTBEAT_INTERVAL + 2 * tick + 2 * delay < CLIENT_TIMEOUT
    ensures var y := Outcome(x, moves, tick, delay);
            && (BeatFirst(moves) ==> Lost(y, Contact(x), tick, delay))
            && (Healthy(y, tick, delay) <==> !BeatFirst(moves))
    decreases |moves|
  {
    if moves != [] {
      EarlyKnows(x, tick, delay);
      hide Enabled, After, Early, Good, Fresh, Chased, Overtaken, Stranded;
      var y := After(x, moves[0], tick, delay);
      if moves[0].GreetingArrives? {
        FirstIsGreeting(x, moves[0].k, tick, delay);
        GreetingConnects(x, tick, delay);
        GoodInEveryRun(y, moves[1..], tick, delay);
      } else {
        MoveEarly(x, moves[0], tick, delay);
        EarlyKnows(y, tick, delay);
        MoveKeepsContact(x, moves[0], tick, delay);
        if moves[0].BeatArrives? {
          assert Lost(y, Contact(x), tick, delay);
          LostForever(y, moves[1..], Contact(x), tick, delay);
          LostIsNotHealthy(Outcome(y, moves[1..], tick, delay), Contact(x), tick, delay);
        } else {
          LostExactly(y, moves[1..], tick, delay);
        }
      }
    }
  }

  // With tick + delay < 1000 no heartbeat is due before the answer has arrived, so the session is kept in every run.
  lemma {:induction false} NeverOvertaken(x: Session, moves: seq<Move>, tick: nat, delay: nat)
    requires Fresh(x, tick, delay) && Possible(x, moves, tick, delay)
    requires tick == 0 || tick + delay < HEARTBEAT_INTERVAL
    ensures !BeatFirst(moves)
    decreases |moves|
  {
    if moves != [] && !moves[0].GreetingArrives? {
      MoveEarly(x, moves[0], tick, delay);
      assert !moves[0].BeatArrives?;
      NeverOvertaken(After(x, moves[0], tick, delay), moves[1..], tick, delay);
    }
  }

  // From the Connect on: if tick + delay < 1000, in every run without packet loss the server keeps the client, and the
  // client, once its connect has returned, keeps the server.
  lemma ConnectedNeverTimesOut(x: Session, moves: seq<Move>, tick: nat, delay: nat)
    requires LetIn(x, tick) && Possible(x, moves, tick, delay) && tick + delay < HEARTBEAT_INTERVAL
    ensures var y := Outcome(x, moves, tick, delay);
            x.id in y.server.clients && (Early(y, tick, delay) || Together(y))
  {
    SameId(x, moves, tick, delay);
    LetInIsFresh(x, tick, delay);
    NeverOvertaken(x, moves, tick, delay);
    LostExactly(x, moves, tick, delay);
  }

  // ---------- a run that loses the session ----------

  // The server's clock stands at s milliseconds, its last update was then, and the true time is e. The client was let
  // in at j, after the update at 0, and its answer is still under way.
  ghost function Delayed(s: nat, e: nat, j: nat): Session {
    var server := AddClient(ServerState(true, 0, 0, map[], {}), Udp, Endpoint(0, 0));
    Session(server.(time := s * 1000), 0, ClientState(false, 0, 0), [Greeting(j * 1000)], e * 1000, s * 1000, 0, 0, 0)
  }

  lemma DelayedServer(s: nat, e: nat, j: nat)
    ensures var x := Delayed(s, e, j);
            && x.server == ServerState(true, s * 1000, 1, map[0 := NewClient(Udp, Endpoint(0, 0), 0)], {})
  {
    var start := ServerState(true, 0, 0, map[], {});
    assert !Known(start, Endpoint(0, 0));
    assert map[][0 := NewClient(Udp, Endpoint(0, 0), 0)] == map[0 := NewClient(Udp, Endpoint(0, 0), 0)];
  }

  lemma DelayedUpdates(s: nat, e: nat, j: nat, tick: nat, delay: nat)
    requires s <= e < HEARTBEAT_INTERVAL
    ensures Enabled(Delayed(s, e, j), ServerUpdates, tick, delay)
    ensures After(Delayed(s, e, j), ServerUpdates, tick, delay) == Delayed(e, e, j)
  {
    var x := Delayed(s, e, j);
    var dt := x.now - x.serverTick;
    DelayedServer(s, e, j);
    DelayedServer(e, e, j);
    PlainAdvance(x.server, dt);
    assert Swept(e * 1000, x.server.clients) == x.server.clients;
  }

  lemma DelayedBeats(s: nat, j: nat, tick: nat, delay: nat)
    requires s <= HEARTBEAT_INTERVAL
    ensures var x, e := Delayed(s, HEARTBEAT_INTERVAL, j), HEARTBEAT_INTERVAL * 1000;
            && Enabled(x, ServerUpdates, tick, delay)
            && After(x, ServerUpdates, tick, delay).flying == [Greeting(j * 1000), Beat(e, HEARTBEAT_INTERVAL)]
  {
    var x := Delayed(s, HEARTBEAT_INTERVAL, j);
    DelayedServer(s, HEARTBEAT_INTERVAL, j);
    PlainAdvance(x.server, x.now - x.serverTick);
  }

  // One more move before the others.
  lemma MoveFirst(x: Session, m: Move, rest: seq<Move>, tick: nat, delay: nat)
    requires Enabled(x, m, tick, delay) && Possible(After(x, m, tick, delay), rest, tick, delay)
    requires !m.GreetingArrives? && (m.BeatArrives? || BeatFirst(rest))
    ensures Possible(x, [m] + rest, tick, delay) && BeatFirst([m] + rest)
  {
    assert ([m] + rest)[1..] == rest;
  }

  lemma DelayedPass(e: nat, step: nat, j: nat, tick: nat, delay: nat)
    requires step <= tick && e + step <= HEARTBEAT_INTERVAL && j + delay >= HEARTBEAT_INTERVAL
    ensures Enabled(Delayed(e, e, j), Pass(step * 1000), tick, delay)
    ensures After(Delayed(e, e, j), Pass(step * 1000), tick, delay) == Delayed(e, e + step, j)
  {
  }

  // From there the server updates as late as it may until a second has passed, and its heartbeat arrives at once.
  lemma {:induction false} LateAnswer(s: nat, e: nat, j: nat, tick: nat, delay: nat) returns (moves: seq<Move>)
    requires tick >= 1 && s <= e <= s + tick && e <= HEARTBEAT_INTERVAL && j + delay >= HEARTBEAT_INTERVAL
    ensures Possible(Delayed(s, e, j), moves, tick, delay) && BeatFirst(moves)
    decreases HEARTBEAT_INTERVAL - e
  {
    hide Delayed, Enabled, After, Possible, BeatFirst;
    if e == HEARTBEAT_INTERVAL {
      moves := SecondPassed(s, j, tick, delay);
    } else {
      var step := if e + tick <= HEARTBEAT_INTERVAL then tick else HEARTBEAT_INTERVAL - e;
      moves := LateAnswer(e, e + step, j, tick, delay);
      DelayedPass(e, step, j, tick, delay);
      MoveFirst(Delayed(e, e, j), Pass(step * 1000), moves, tick, delay);
      DelayedUpdates(s, e, j, tick, delay);
      moves := [Pass(step * 1000)] + moves;
      MoveFirst(Delayed(s, e, j), ServerUpdates, moves, tick, delay);
      moves := [ServerUpdates] + moves;
    }
  }

  lemma SecondPassed(s: nat, j: nat, tick: nat, delay: nat) returns (moves: seq<Move>)
    requires s <= HEARTBEAT_INTERVAL
    ensures Possible(Delayed(s, HEARTBEAT_INTERVAL, j), moves, tick, delay) && BeatFirst(moves)
  {
    var x := Delayed(s, HEARTBEAT_INTERVAL, j);
    DelayedBeats(s, j, tick, delay);
    MoveFirst(After(x, ServerUpdates, tick, delay), BeatArrives(1), [], tick, delay);
    MoveFirst(x, ServerUpdates, [BeatArrives(1)] + [], tick, delay);
    moves := [ServerUpdates] + ([BeatArrives(1)] + []);
  }

  ghost predicate IsOvertaking(x: Session, moves: seq<Move>, tick: nat, delay: nat) {
    LetIn(x, tick) && Possible(x, moves, tick, delay) && BeatFirst(moves)
  }

  // Some run from the handshake loses the session, or would after 10000 ms, if and only if updates take time and
  // tick + delay >= 1000: with the client let in as late as possible before an update, its answer as slow as possible,
  // and the heartbeat at once.
  lemma OvertakingExactly(tick: nat, delay: nat)
    ensures (exists x, moves :: IsOvertaking(x, moves, tick, delay)) <==>
            tick >= 1 && tick + delay >= HEARTBEAT_INTERVAL
  {
    if tick >= 1 && tick + delay >= HEARTBEAT_INTERVAL {
      var j := if tick <= HEARTBEAT_INTERVAL then tick else HEARTBEAT_INTERVAL;
      var moves := LateAnswer(0, j, j, tick, delay);
      DelayedLetIn(j, tick);
      var x := Delayed(0, j, j);
      assert IsOvertaking(x, moves, tick, delay);
    } else {
      forall x, moves
        ensures !IsOvertaking(x, moves, tick, delay)
      {
        if LetIn(x, tick) && Possible(x, moves, tick, delay) {
          LetInIsFresh(x, tick, delay);
          NeverOvertaken(x, moves, tick, delay);
        }
      }
    }
  }

  lemma DelayedLetIn(j: nat, tick: nat)
    requires j <= tick && j <= HEARTBEAT_INTERVAL
    ensures LetIn(Delayed(0, j, j), tick)
  {
    var x, start := Delayed(0, j, j), ServerState(true, 0, 0, map[], {});
    DelayedServer(0, j, j);
    assert !Known(start, Endpoint(0, 0));
    assert Admits(start, Endpoint(0, 0), x);
  }
}
