/**
 The server's clock has 31 bits of milliseconds and rolls over. What that does to the silence update reports, watched
 against a clock that does not roll over.
 */
module Rollover {
  import opened Integers
  import opened Registry

  // The server together with the true time, the number of rollovers so far, the true time of each client's last
  // contact in milliseconds, and how far from the end of the clock that contact was when the clock rolled over.
  datatype Watch = Watch(
    server: ServerState, now: nat, rolls: nat, contact: map<ClientId, int>, gap: map<ClientId, int>)

  // The step is a contact of the client: it joins, or answers a heartbeat.
  ghost predicate Contacts(s: ServerState, a: ServerStep, id: ClientId) {
    id !in s.clients ||
    (s.running && s.clients[id].waiting &&
     match a
     case UdpHeartbeat(endpoint) => IdAt(s, endpoint) == id
     case TcpHeartbeat(from) => from == id && id in s.sockets
     case _ => false)
  }

  ghost predicate RollsOver(s: ServerState, a: ServerStep) {
    a.Tick? && s.running && Ms(s.time + a.dt) < 0
  }

  ghost function Watched(w: Watch, a: ServerStep): Watch {
    var s, s' := w.server, Step(w.server, a);
    var now := if a.Tick? && s.running then w.now + a.dt else w.now;
    Watch(s', now, if RollsOver(s, a) then w.rolls + 1 else w.rolls,
          map id | id in s'.clients :: if Contacts(s, a, id) || id !in w.contact then now / 1000 else w.contact[id],
          map id | id in s'.clients ::
            if Contacts(s, a, id) || id !in w.gap then 0
            else if RollsOver(s, a) then w.gap[id] + HIGHEST_TIMESTAMP - Ms(s.clients[id].lastHeartbeat)
            else w.gap[id])
  }

  ghost function WatchedRun(w: Watch, steps: seq<ServerStep>): Watch {
    if steps == [] then w else Watched(WatchedRun(w, steps[..|steps| - 1]), steps[|steps| - 1])
  }

  // The watch follows the server through its own steps.
  lemma {:induction false} WatchedIsRun(w: Watch, steps: seq<ServerStep>)
    ensures WatchedRun(w, steps).server == Steps(w.server, steps)
  {
    if steps != [] {
      WatchedIsRun(w, steps[..|steps| - 1]);
    }
  }

  // Ticks are at most `tick` milliseconds long.
  predicate Paced(steps: seq<ServerStep>, tick: nat) {
    forall k :: 0 <= k < |steps| && steps[k].Tick? ==> steps[k].dt <= tick * 1000
  }

  // ---------- one rollover ----------

  lemma MsExact(time: int)
    requires 0 <= time && time / 1000 <= HIGHEST_TIMESTAMP
    ensures Ms(time) == time / 1000
  {
  }

  // At a rollover the reported silence of a client is its true silence less twice the distance of its last contact
  // from the end of the clock.
  lemma ReportedAtRollover(s: ServerState, dt: nat, id: ClientId)
    requires s.running && id in s.clients && Ms(s.time + dt) < 0
    requires 0 <= s.time && (s.time + dt) / 1000 <= 2 * HIGHEST_TIMESTAMP
    requires 0 <= s.clients[id].lastHeartbeat && s.clients[id].lastHeartbeat / 1000 <= HIGHEST_TIMESTAMP
    ensures var a, last := Advance(s, dt), s.clients[id].lastHeartbeat / 1000;
            && a.time >= 0 && a.time / 1000 == (s.time + dt) / 1000 - HIGHEST_TIMESTAMP
            && a.clients[id].lastHeartbeat == (HIGHEST_TIMESTAMP - last) * 1000
            && Elapsed(a.time, a.clients[id]) == ((s.time + dt) / 1000 - last) - 2 * (HIGHEST_TIMESTAMP - last)
  {
  }

  // ---------- every run ----------

  // What each step keeps of one client: the reported silence is the true silence less twice the gap, and the gap is
  // less than the timeout and a tick.
  ghost predicate Tracked(w: Watch, tick: nat, id: ClientId) {
    id in w.server.clients ==>
      var c := w.server.clients[id];
      && id in w.contact && id in w.gap
      && 0 <= c.lastHeartbeat && c.lastHeartbeat / 1000 <= HIGHEST_TIMESTAMP
      && Elapsed(w.server.time, c) == w.now / 1000 - w.contact[id] - 2 * w.gap[id]
      && Elapsed(w.server.time, c) < CLIENT_TIMEOUT
      && 0 <= w.gap[id] < CLIENT_TIMEOUT + tick
      && (w.gap[id] > 0 ==> c.lastHeartbeat == w.gap[id] * 1000)
  }

  ghost predicate ClockOk(w: Watch) {
    && 0 <= w.server.time && w.server.time / 1000 <= HIGHEST_TIMESTAMP
    && w.now == w.server.time + w.rolls * (HIGHEST_TIMESTAMP * 1000)
  }

  ghost predicate WatchOk(w: Watch, tick: nat) {
    Sound(w.server) && ClockOk(w) && forall id :: Tracked(w, tick, id)
  }

  lemma TickClock(w: Watch, dt: nat, tick: nat)
    requires ClockOk(w) && dt <= tick * 1000 && tick < HIGHEST_TIMESTAMP
    ensures ClockOk(Watched(w, Tick(dt)))
    ensures RollsOver(w.server, Tick(dt)) ==> w.server.running && (w.server.time + dt) / 1000 > HIGHEST_TIMESTAMP
    ensures w.server.running && !RollsOver(w.server, Tick(dt)) ==> (w.server.time + dt) / 1000 <= HIGHEST_TIMESTAMP
    ensures (w.server.time + dt) / 1000 <= w.server.time / 1000 + tick
  {
  }

  // The silence a tick reports, before anyone is evicted.
  lemma TickReports(w: Watch, dt: nat, tick: nat, id: ClientId)
    requires ClockOk(w) && Tracked(w, tick, id) && w.server.running && id in w.server.clients
    requires dt <= tick * 1000 && 2 * (CLIENT_TIMEOUT + tick) <= HIGHEST_TIMESTAMP
    ensures var a := Advance(w.server, dt);
            var gap := if RollsOver(w.server, Tick(dt))
                       then w.gap[id] + HIGHEST_TIMESTAMP - Ms(w.server.clients[id].lastHeartbeat) else w.gap[id];
            && Elapsed(a.time, a.clients[id]) == (w.now + dt) / 1000 - w.contact[id] - 2 * gap
            && 0 <= a.clients[id].lastHeartbeat && a.clients[id].lastHeartbeat / 1000 <= HIGHEST_TIMESTAMP
            && 0 <= gap < CLIENT_TIMEOUT + tick
            && (gap > 0 ==> a.clients[id].lastHeartbeat == gap * 1000)
  {
    var s, c := w.server, w.server.clients[id];
    TickClock(w, dt, tick);
    MsExact(s.time);
    MsExact(c.lastHeartbeat);
    var base := w.rolls * HIGHEST_TIMESTAMP;
    assert w.now / 1000 == s.time / 1000 + base && (w.now + dt) / 1000 == (s.time + dt) / 1000 + base by {
      assert w.now == s.time + base * 1000;
    }
    if RollsOver(s, Tick(dt)) {
      ReportedAtRollover(s, dt, id);
    } else {
      MsExact(s.time + dt);
    }
  }

  lemma TickTracked(w: Watch, dt: nat, tick: nat, id: ClientId)
    requires ClockOk(w) && Tracked(w, tick, id) && Sound(w.server)
    requires dt <= tick * 1000 && 2 * (CLIENT_TIMEOUT + tick) <= HIGHEST_TIMESTAMP
    ensures Tracked(Watched(w, Tick(dt)), tick, id)
  {
    if w.server.running && id in w.server.clients {
      TickReports(w, dt, tick, id);
      HeartbeatRound(w.server, dt, id);
      var a := Advance(w.server, dt);
      SweptFacts(a.time, a.clients, id);
    }
  }

  // A step that is no tick refreshes the clients it contacts and leaves the others as they were.
  lemma OtherSteps(s: ServerState, a: ServerStep, id: ClientId)
    requires Sound(s) && !a.Tick? && id in Step(s, a).clients
    ensures Contacts(s, a, id) ==> Step(s, a).clients[id].lastHeartbeat == s.time
    ensures !Contacts(s, a, id) ==> id in s.clients && Step(s, a).clients[id] == s.clients[id]
    ensures Step(s, a).time == s.time
  {
  }

  lemma OtherTracked(w: Watch, a: ServerStep, tick: nat, id: ClientId)
    requires ClockOk(w) && Tracked(w, tick, id) && !a.Tick? && Sound(w.server)
    ensures Tracked(Watched(w, a), tick, id)
  {
    hide Step, Contacts;
    var w' := Watched(w, a);
    if id in w'.server.clients {
      MsExact(w.server.time);
      OtherSteps(w.server, a, id);
    }
  }

  lemma StepWatched(w: Watch, a: ServerStep, tick: nat)
    requires WatchOk(w, tick) && 2 * (CLIENT_TIMEOUT + tick) <= HIGHEST_TIMESTAMP
    requires a.Tick? ==> a.dt <= tick * 1000
    ensures WatchOk(Watched(w, a), tick)
  {
    StepSound(w.server, a);
    if a.Tick? {
      TickClock(w, a.dt, tick);
    }
    forall id
      ensures Tracked(Watched(w, a), tick, id)
    {
      assert Tracked(w, tick, id);
      if a.Tick? {
        TickTracked(w, a.dt, tick, id);
      } else {
        OtherTracked(w, a, tick, id);
      }
    }
  }

  lemma {:induction false} WatchInEveryRun(w: Watch, steps: seq<ServerStep>, tick: nat)
    requires WatchOk(w, tick) && Paced(steps, tick) && 2 * (CLIENT_TIMEOUT + tick) <= HIGHEST_TIMESTAMP
    ensures WatchOk(WatchedRun(w, steps), tick)
  {
    if steps != [] {
      WatchInEveryRun(w, steps[..|steps| - 1], tick);
      StepWatched(WatchedRun(w, steps[..|steps| - 1]), steps[|steps| - 1], tick);
    }
  }

  // Whoever is kept has not been silent for more than twice the timeout and a tick beyond the timeout.
  lemma KeptWithin(w: Watch, tick: nat, id: ClientId)
    requires WatchOk(w, tick) && id in w.server.clients
    ensures id in w.contact
    ensures w.now / 1000 - w.contact[id] < CLIENT_TIMEOUT + 2 * (CLIENT_TIMEOUT + tick)
    ensures IsInt32(Ms(w.server.clients[id].lastHeartbeat) - HIGHEST_TIMESTAMP)
  {
    assert Tracked(w, tick, id);
    MsExact(w.server.clients[id].lastHeartbeat);
  }

  // Whoever is evicted has been silent for the timeout, and the difference that shows it is a 32-bit integer.
  lemma NeverEarly(w: Watch, tick: nat, dt: nat, id: ClientId)
    requires WatchOk(w, tick) && id in w.server.clients && w.server.running
    requires dt <= tick * 1000 && 2 * (CLIENT_TIMEOUT + tick) <= HIGHEST_TIMESTAMP
    ensures var a := Advance(w.server, dt);
            && id in w.contact && IsInt32(Elapsed(a.time, a.clients[id]))
            && (id in TimedOut(w.server, dt) ==> (w.now + dt) / 1000 - w.contact[id] >= CLIENT_TIMEOUT)
  {
    assert Tracked(w, tick, id);
    TickReports(w, dt, tick, id);
    HeartbeatRound(w.server, dt, id);
  }

  const AT_REST := Watch(STOPPED, 0, 0, map[], map[])

  // In every run with ticks of at most `tick` ms, however often the clock rolls over: no early eviction, a bounded
  // delay of late ones, and every difference update takes is a 32-bit integer.
  lemma RolloverBound(steps: seq<ServerStep>, tick: nat, dt: nat, id: ClientId)
    requires Paced(steps, tick) && dt <= tick * 1000 && 2 * (CLIENT_TIMEOUT + tick) <= HIGHEST_TIMESTAMP
    requires id in Steps(STOPPED, steps).clients
    ensures var s, w := Steps(STOPPED, steps), WatchedRun(AT_REST, steps);
            var a := Advance(s, dt);
            && w.server == s && id in w.contact
            && w.now / 1000 - w.contact[id] < CLIENT_TIMEOUT + 2 * (CLIENT_TIMEOUT + tick)
            && (id in TimedOut(s, dt) ==> (w.now + dt) / 1000 - w.contact[id] >= CLIENT_TIMEOUT)
            && IsInt32(Ms(s.clients[id].lastHeartbeat) - HIGHEST_TIMESTAMP)
            && IsInt32(Elapsed(a.time, a.clients[id]))
  {
    assert WatchOk(AT_REST, tick);
    WatchedIsRun(AT_REST, steps);
    WatchInEveryRun(AT_REST, steps, tick);
    KeptWithin(WatchedRun(AT_REST, steps), tick, id);
    NeverEarly(WatchedRun(AT_REST, steps), tick, dt, id);
  }
}
