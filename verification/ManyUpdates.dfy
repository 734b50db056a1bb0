/** Sequences of updates of the systems: what holds tick after tick, whatever the order of systems and queues. */
module ManyUpdates {
  import opened Bitmasks
  import opened Components
  import opened Ecs
  import opened EcsIndex
  import opened Rules
  import opened Machine
  import opened Lifecycle
  import opened Death
  import opened Damage
  import opened Drain
  import opened Recovery
  import opened Survival
  import opened Motion
  import opened Settling
  import opened Strikes
  import opened Turns
  import opened GameTick
  import opened OneUpdate

  // The ticks that the frames make of a world, one after the other.
  ghost function TicksOf(w: World, frames: seq<Frame>): seq<Tick> {
    if frames == [] then []
    else
      var before, f := frames[..|frames| - 1], frames[|frames| - 1];
      TicksOf(w, before) + [TickOf(AfterFrames(w, before), f.parts, f.order, f.keys)]
  }

  ghost function AfterFrames(w: World, frames: seq<Frame>): World {
    if frames == [] then w
    else
      var before, f := AfterFrames(w, frames[..|frames| - 1]), frames[|frames| - 1];
      RunTick(before, TickOf(before, f.parts, f.order, f.keys))
  }

  // Each frame is what Simulation.Update does in the world the frames before it have left.
  ghost predicate AreUpdates(w: World, frames: seq<Frame>) {
    frames == [] ||
    (AreUpdates(w, frames[..|frames| - 1]) && IsUpdate(AfterFrames(w, frames[..|frames| - 1]), frames[|frames| - 1]))
  }

  // The time simulated.
  function TimeOf(frames: seq<Frame>): nat {
    if frames == [] then 0 else TimeOf(frames[..|frames| - 1]) + frames[|frames| - 1].dt
  }

  // The steps of one frame.
  ghost function FrameSteps(w: World, f: Frame): seq<Action> {
    Flat(f.parts) + Deliveries(Run(w, Flat(f.parts)), f.order, f.keys)
  }

  // All steps of all frames.
  ghost function StepsOf(w: World, frames: seq<Frame>): seq<Action> {
    if frames == [] then []
    else
      var before, f := frames[..|frames| - 1], frames[|frames| - 1];
      StepsOf(w, before) + FrameSteps(AfterFrames(w, before), f)
  }

  lemma {:induction false} GameConcat(w: World, a: seq<Action>, b: seq<Action>)
    requires GameRun(w, a) && GameRun(Run(w, a), b)
    ensures GameRun(w, a + b)
  {
    if b == [] {
      assert a + b == a;
    } else {
      var before := b[..|b| - 1];
      assert (a + b)[..|a + b| - 1] == a + before;
      GameConcat(w, a, before);
      RunConcat(w, a, before);
    }
  }

  // What a stretch of updates is for e: a run of the game that leaves the lists alone and does not remove e, in which
  // e has n timer turns, `ran` of time and m moves.
  ghost predicate Stretch(w: World, actions: seq<Action>, e: EntityId, n: nat, ran: nat, m: nat) {
    && GameRun(w, actions) && (forall t :: ListOf(Run(w, actions), t) == ListOf(w, t))
    && (forall a :: a in actions ==> Spares(a, e))
    && Updates(actions, e) == n && Ran(actions, e) == ran && MoveCount(actions, e) == m
  }

  lemma StretchConcat(w: World, a: seq<Action>, b: seq<Action>, e: EntityId,
                      n: nat, ran: nat, m: nat, n': nat, ran': nat, m': nat)
    requires Stretch(w, a, e, n, ran, m) && Stretch(Run(w, a), b, e, n', ran', m')
    ensures Stretch(w, a + b, e, n + n', ran + ran', m + m')
  {
    GameConcat(w, a, b);
    RunConcat(w, a, b);
    RanConcat(a, b, e);
    MoveCountConcat(a, b, e);
  }

  lemma HandlingStretch(w: World, order: seq<System>, keys: seq<EntityId>, e: EntityId)
    ensures Stretch(w, Deliveries(w, order, keys), e, 0, 0, 0)
  {
    var handling := Deliveries(w, order, keys);
    OnlyHandling(w, order, keys);
    HandlingGame(w, handling);
    SameLists(w, handling);
    NoTimerRan(handling, e);
    NoMoveCounted(handling, e);
  }

  // n if the system holds e.
  function Share(w: World, s: System, e: EntityId, n: nat): nat {
    if e in ListOf(w, s) then n else 0
  }

  // A stretch of n updates: n timer turns, with all of the time, and n moves for whatever the systems hold, and none
  // for any other entity.
  ghost predicate Counted(w: World, actions: seq<Action>, e: EntityId, n: nat, time: nat) {
    Stretch(w, actions, e, Share(w, Timers, e, n), Share(w, Timers, e, time), Share(w, Movement, e, n))
  }

  lemma CountedConcat(w: World, a: seq<Action>, b: seq<Action>, e: EntityId, n: nat, time: nat, n': nat, time': nat)
    requires Counted(w, a, e, n, time) && Counted(Run(w, a), b, e, n', time')
    ensures Counted(w, a + b, e, n + n', time + time')
  {
    var w' := Run(w, a);
    assert ListOf(w', Timers) == ListOf(w, Timers) && ListOf(w', Movement) == ListOf(w, Movement);
    StretchConcat(w, a, b, e, Share(w, Timers, e, n), Share(w, Timers, e, time), Share(w, Movement, e, n),
                  Share(w', Timers, e, n'), Share(w', Timers, e, time'), Share(w', Movement, e, n'));
  }

  lemma ListsDistinct(w: World, s: System)
    requires Consistent(w)
    ensures NoDuplicates(ListOf(w, s))
  {
    if s in w.systems {
      assert Indexes(w.systems[s], w.entities);
    }
  }

  lemma PartsCounted(w: World, f: Frame, e: EntityId)
    requires IsUpdate(w, f) && Consistent(w) && IsServer(w.systems)
    ensures Counted(w, Flat(f.parts), e, 1, f.dt)
  {
    hide Updated, Run, SystemTurn, GameRun, ListOf;
    ListsDistinct(w, Timers);
    ListsDistinct(w, Movement);
    hide Consistent;
    UpdateTurns(f.tiles, w, f.order, f.dt, f.parts);
    TurnsGame(w, Flat(f.parts));
    UpdateCounts(f.tiles, w, f.order, f.dt, f.parts, e);
    assert Timers in w.systems && Movement in w.systems;
  }

  lemma FrameCounted(w: World, f: Frame, e: EntityId)
    requires IsUpdate(w, f) && Consistent(w) && IsServer(w.systems)
    ensures Counted(w, FrameSteps(w, f), e, 1, f.dt)
    ensures Run(w, FrameSteps(w, f)) == RunTick(w, TickOf(w, f.parts, f.order, f.keys))
  {
    var w' := Run(w, Flat(f.parts));
    assert Counted(w, Flat(f.parts), e, 1, f.dt) by {
      PartsCounted(w, f, e);
    }
    assert Counted(w', Deliveries(w', f.order, f.keys), e, 0, 0) by {
      HandlingStretch(w', f.order, f.keys, e);
    }
    CountedConcat(w, Flat(f.parts), Deliveries(w', f.order, f.keys), e, 1, f.dt, 0, 0);
    RunConcat(w, Flat(f.parts), Deliveries(w', f.order, f.keys));
  }

  lemma OneMoreFrame(w: World, before: seq<Frame>, f: Frame, e: EntityId)
    requires Consistent(w) && IsServer(w.systems)
    requires Run(w, StepsOf(w, before)) == AfterFrames(w, before) && IsUpdate(AfterFrames(w, before), f)
    requires Counted(w, StepsOf(w, before), e, |before|, TimeOf(before))
    ensures var steps, w' := FrameSteps(AfterFrames(w, before), f), AfterFrames(w, before);
            && Run(w, StepsOf(w, before) + steps) == RunTick(w', TickOf(w', f.parts, f.order, f.keys))
            && Counted(w, StepsOf(w, before) + steps, e, |before| + 1, TimeOf(before) + f.dt)
  {
    hide *;
    IndexInEveryRun(w, StepsOf(w, before));
    FrameCounted(AfterFrames(w, before), f, e);
    CountedConcat(w, StepsOf(w, before), FrameSteps(AfterFrames(w, before), f), e, |before|, TimeOf(before), 1, f.dt);
    RunConcat(w, StepsOf(w, before), FrameSteps(AfterFrames(w, before), f));
  }

  lemma NothingCounted(w: World, e: EntityId)
    ensures Run(w, []) == w && Counted(w, [], e, 0, 0)
  {
  }

  // However many updates.
  lemma {:induction false} FramesCounted(w: World, frames: seq<Frame>, e: EntityId)
    requires AreUpdates(w, frames) && Consistent(w) && IsServer(w.systems)
    ensures Run(w, StepsOf(w, frames)) == AfterFrames(w, frames)
    ensures Counted(w, StepsOf(w, frames), e, |frames|, TimeOf(frames))
  {
    hide Apply, Run, Counted, IsUpdate, FrameSteps, RunTick, TickOf, Consistent, IsServer;
    if frames == [] {
      NothingCounted(w, e);
    } else {
      var before, f := frames[..|frames| - 1], frames[|frames| - 1];
      FramesCounted(w, before, e);
      OneMoreFrame(w, before, f, e);
    }
  }

  lemma FramesGame(w: World, frames: seq<Frame>, e: EntityId)
    requires AreUpdates(w, frames) && Consistent(w) && IsServer(w.systems)
    ensures GameRun(w, StepsOf(w, frames)) && (forall a :: a in StepsOf(w, frames) ==> Spares(a, e))
    ensures Ran(StepsOf(w, frames), e) <= TimeOf(frames)
  {
    FramesCounted(w, frames, e);
  }

  // ---------- what follows ----------

  // Over any number of updates: the hits an attacker lands, times its attackDuration, are at most the time simulated,
  // one attackDuration, and what was on its timer at the start.
  lemma DamageOverUpdates(w: World, frames: seq<Frame>, e: EntityId)
    requires AreUpdates(w, frames) && Consistent(w) && IsServer(w.systems)
    requires e in w.entities && BodyOf(w, e).attacker.Some?
    ensures var a, hits := BodyOf(w, e).attacker.value, Hits(w, StepsOf(w, frames), e);
            && (hits + Flag(a.attacked)) * a.attackDuration <= TimeOf(frames) + a.timer + a.attackDuration
            && (a.timer == 0 && !a.attacked ==> hits * a.attackDuration <= TimeOf(frames) + a.attackDuration)
  {
    hide *;
    FramesGame(w, frames, e);
    DamageRate(w, StepsOf(w, frames), e);
  }

  // The death of an entity over whole updates: it stays dying while its health timer, which counts the time simulated,
  // is below deathDuration, and has been back, idle and with full health, as soon as an update has reached that.
  lemma DeathOverUpdates(w: World, frames: seq<Frame>, e: EntityId, waited: nat, duration: nat) returns (k: nat)
    requires AreUpdates(w, frames) && Consistent(w) && IsServer(w.systems) && DyingFor(w, e, waited, duration)
    ensures k <= |StepsOf(w, frames)|
    ensures if frames == [] || waited + TimeOf(frames) < duration
            then DyingFor(AfterFrames(w, frames), e, waited + TimeOf(frames), duration)
            else BackToLife(Run(w, StepsOf(w, frames)[..k]), e)
  {
    hide Apply, StepsOf, AreUpdates, AfterFrames, GameRun, Consistent, IsServer, Pending, BackToLife;
    var steps := StepsOf(w, frames);
    k := 0;
    TimedByFrames(w, frames, e, waited, duration);
    if Pending(steps, e, waited, duration) {
      DeathIsStable(w, steps, e, waited, duration);
    } else {
      k := DeathEnds(w, steps, e, waited, duration);
    }
  }

  // Whatever has state and health has all the time simulated.
  lemma TimedByFrames(w: World, frames: seq<Frame>, e: EntityId, waited: nat, duration: nat)
    requires AreUpdates(w, frames) && Consistent(w) && IsServer(w.systems)
    requires BodyOf(w, e).health.Some? && BodyOf(w, e).state.Some?
    ensures var steps := StepsOf(w, frames);
            && GameRun(w, steps) && (forall a :: a in steps ==> Spares(a, e)) && Run(w, steps) == AfterFrames(w, frames)
            && Ran(steps, e) == TimeOf(frames)
            && (Pending(steps, e, waited, duration) <==> frames == [] || waited + TimeOf(frames) < duration)
  {
    hide Apply, Run, StepsOf, AreUpdates, AfterFrames, GameRun, Consistent, IsServer, ListOf;
    FramesCounted(w, frames, e);
    TimersHold(w, e);
  }

  // The same for being hurt and for an attack of whoever has health: left alone, it goes on until the time simulated
  // has reached its duration, and ends with the update that reaches it.
  lemma WaitOverUpdates(w: World, frames: seq<Frame>, e: EntityId, s: EntityState, waited: nat, duration: nat)
    returns (k: nat)
    requires AreUpdates(w, frames) && Consistent(w) && IsServer(w.systems) && LeftAlone(w, StepsOf(w, frames), e, s)
    requires WaitsIn(w, e, s, waited, duration) && BodyOf(w, e).health.Some?
    ensures k <= |StepsOf(w, frames)|
    ensures if frames == [] || waited + TimeOf(frames) < duration
            then WaitsIn(AfterFrames(w, frames), e, s, waited + TimeOf(frames), duration)
            else Recovered(Run(w, StepsOf(w, frames)[..k]), e, s, duration)
  {
    hide Apply, StepsOf, AreUpdates, AfterFrames, GameRun, Consistent, IsServer, LeftAlone, Pending, Recovered;
    var steps := StepsOf(w, frames);
    k := 0;
    TimedByFrames(w, frames, e, waited, duration);
    if Pending(steps, e, waited, duration) {
      WaitIsStable(w, steps, e, s, waited, duration);
    } else {
      k := WaitEnds(w, steps, e, s, waited, duration);
    }
  }

  // Over whole updates a living entity loses one point for each hit that lands on it, and dies with the last.
  lemma PointsOverUpdates(w: World, frames: seq<Frame>, e: EntityId, points: int) returns (k: nat)
    requires AreUpdates(w, frames) && Consistent(w) && IsServer(w.systems) && Living(w) && Alive(w, e, points)
    ensures k <= |StepsOf(w, frames)|
    ensures var hits := HitsTaken(w, StepsOf(w, frames), e);
            if hits < points then Alive(AfterFrames(w, frames), e, points - hits)
            else Dead(Run(w, StepsOf(w, frames)[..k]), e)
  {
    hide *;
    k := 0;
    FramesGame(w, frames, e);
    FramesEnd(w, frames, e);
    if HitsTaken(w, StepsOf(w, frames), e) < points {
      PointsPaidInHits(w, StepsOf(w, frames), e, points);
    } else {
      k := DiesWithItsPoints(w, StepsOf(w, frames), e, points);
    }
  }

  lemma FramesEnd(w: World, frames: seq<Frame>, e: EntityId)
    requires AreUpdates(w, frames) && Consistent(w) && IsServer(w.systems)
    ensures Run(w, StepsOf(w, frames)) == AfterFrames(w, frames)
  {
    FramesCounted(w, frames, e);
  }

  // Updates of at least a millisecond each: max(1, deathDuration) of them are enough.
  lemma {:induction false} FramesTakeTime(frames: seq<Frame>)
    requires forall f :: f in frames ==> f.dt >= 1
    ensures TimeOf(frames) >= |frames|
  {
    if frames != [] {
      var before, last := frames[..|frames| - 1], frames[|frames| - 1];
      assert frames == before + [last];
      FramesTakeTime(before);
    }
  }

  lemma DeathEndsWithinUpdates(w: World, frames: seq<Frame>, e: EntityId, waited: nat, duration: nat) returns (k: nat)
    requires AreUpdates(w, frames) && Consistent(w) && IsServer(w.systems) && DyingFor(w, e, waited, duration)
    requires |frames| >= (if duration > 1 then duration else 1) && forall f :: f in frames ==> f.dt >= 1
    ensures k <= |StepsOf(w, frames)| && BackToLife(Run(w, StepsOf(w, frames)[..k]), e)
  {
    FramesTakeTime(frames);
    k := DeathOverUpdates(w, frames, e, waited, duration);
  }

  // S_Timers registers State with Health alone.
  lemma TimersHold(w: World, e: EntityId)
    requires Consistent(w) && IsServer(w.systems)
    ensures e in ListOf(w, Timers) <==> BodyOf(w, e).health.Some? && BodyOf(w, e).state.Some?
  {
    var b := BodyOf(w, e);
    HasIsPresence(b, STATE);
    HasIsPresence(b, HEALTH);
    if e in ListOf(w, Timers) {
      DereferenceSafe(w, Timers, e, STATE);
      DereferenceSafe(w, Timers, e, HEALTH);
    } else if b.health.Some? && b.state.Some? {
      HeldFor(w, Timers, e, {STATE, HEALTH});
    }
  }

  // So each update runs the timer of an entity with both once, and never that of any other entity.
  lemma TimedExactlyWithHealth(w: World, frames: seq<Frame>, e: EntityId)
    requires AreUpdates(w, frames) && Consistent(w) && IsServer(w.systems)
    ensures Updates(StepsOf(w, frames), e) ==
            if BodyOf(w, e).health.Some? && BodyOf(w, e).state.Some? then |frames| else 0
  {
    hide Apply, StepsOf, AreUpdates, TimeOf, ListOf;
    FramesCounted(w, frames, e);
    TimersHold(w, e);
  }

  // Whoever has the components of a requirement is held by the system.
  lemma HeldFor(w: World, s: System, e: EntityId, requirement: Bitset)
    requires Consistent(w) && IsServer(w.systems) && s in SERVER_SYSTEMS && requirement in ServerRequirements(s)
    requires requirement != {} && requirement <= Present(BodyOf(w, e))
    ensures e in ListOf(w, s)
  {
    assert e in w.entities;
    HeldWhenEquipped(w, s, e, requirement);
  }

  lemma {:induction false} FlagHolds(w: World, actions: seq<Action>, e: EntityId)
    requires Consistent(w) && IsServer(w.systems) && GameRun(w, actions)
    requires e in w.entities && BodyOf(w, e).attacker.Some?
    requires forall a :: a in actions ==> Spares(a, e) && !TimesOf(a, e)
    ensures e in Run(w, actions).entities && BodyOf(Run(w, actions), e).attacker.Some?
    ensures Hits(w, actions, e) + Flag(Flagged(w, e)) == Flag(Flagged(Run(w, actions), e))
  {
    if actions != [] {
      var before, last := actions[..|actions| - 1], actions[|actions| - 1];
      assert actions == before + [last];
      FlagHolds(w, before, e);
      IndexInEveryRun(w, before);
      ChargeKept(Run(w, before), last, e);
    }
  }

  lemma {:induction false} NoUpdatesNoTimer(actions: seq<Action>, e: EntityId)
    requires Updates(actions, e) == 0
    ensures forall a :: a in actions ==> !TimesOf(a, e)
  {
    if actions != [] {
      var before, last := actions[..|actions| - 1], actions[|actions| - 1];
      assert actions == before + [last];
      NoUpdatesNoTimer(before, e);
    }
  }

  // So nothing ever lowers the flag of an attacker without health: in however many updates, it hits once if its flag
  // goes up, and never again.
  lemma AttackerWithoutHealth(w: World, frames: seq<Frame>, e: EntityId)
    requires AreUpdates(w, frames) && Consistent(w) && IsServer(w.systems)
    requires e in w.entities && BodyOf(w, e).attacker.Some? && BodyOf(w, e).health.None?
    ensures e !in ListOf(w, Timers)
    ensures Hits(w, StepsOf(w, frames), e) ==
            if Flagged(AfterFrames(w, frames), e) && !Flagged(w, e) then 1 else 0
    ensures Flagged(w, e) ==> Flagged(AfterFrames(w, frames), e)
  {
    FramesCounted(w, frames, e);
    TimedExactlyWithHealth(w, frames, e);
    NoUpdatesNoTimer(StepsOf(w, frames), e);
    FlagHolds(w, StepsOf(w, frames), e);
    TimersHold(w, e);
  }

  lemma {:induction false} QuietSplit(w: World, a: seq<Action>, b: seq<Action>, e: EntityId, least: real)
    requires QuietRun(w, a + b, e, least)
    ensures QuietRun(w, a, e, least) && QuietRun(Run(w, a), b, e, least)
  {
    if b == [] {
      assert a + b == a;
    } else {
      var before := b[..|b| - 1];
      assert (a + b)[..|a + b| - 1] == a + before;
      QuietSplit(w, a, before, e, least);
      RunConcat(w, a, before);
    }
  }

  // One quiet update is a full tick, if the systems hold e.
  lemma QuietFrame(w: World, f: Frame, e: EntityId, least: real)
    requires IsUpdate(w, f) && QuietRun(w, FrameSteps(w, f), e, least)
    requires e in ListOf(w, Movement) && e in ListOf(w, StateMachine)
    ensures var t := TickOf(w, f.parts, f.order, f.keys);
            && QuietRun(w, t.updates, e, least) && QuietRun(Run(w, t.updates), t.deliveries, e, least)
            && FullTick(w, t, e)
  {
    hide Apply, Run, QuietRun, FullTick, Deliveries, Flat, Updated;
    QuietSplit(w, Flat(f.parts), Deliveries(Run(w, Flat(f.parts)), f.order, f.keys), e, least);
    InOrder(w, Movement, e);
    InOrder(w, StateMachine, e);
    UpdateIsFullTick(f.tiles, w, f.order, f.dt, f.parts, f.keys, e);
  }

  lemma InOrder(w: World, s: System, e: EntityId)
    requires e in ListOf(w, s)
    ensures s in w.systems
  {
  }

  lemma FramesQuiet(w: World, before: seq<Frame>, f: Frame, e: EntityId, least: real)
    requires AreUpdates(w, before) && Consistent(w) && IsServer(w.systems)
    requires QuietRun(w, StepsOf(w, before) + FrameSteps(AfterFrames(w, before), f), e, least)
    ensures QuietRun(w, StepsOf(w, before), e, least)
    ensures QuietRun(AfterFrames(w, before), FrameSteps(AfterFrames(w, before), f), e, least)
    ensures forall s :: ListOf(AfterFrames(w, before), s) == ListOf(w, s)
  {
    hide Apply, Run, QuietRun, StepsOf, FrameSteps, AfterFrames, AreUpdates, ListOf;
    FramesCounted(w, before, e);
    QuietSplit(w, StepsOf(w, before), FrameSteps(AfterFrames(w, before), f), e, least);
  }

  // Quiet updates are the full ticks WalkingSettles counts.
  lemma {:induction false} QuietUpdates(w: World, frames: seq<Frame>, e: EntityId, least: real)
    requires AreUpdates(w, frames) && Consistent(w) && IsServer(w.systems)
    requires QuietRun(w, StepsOf(w, frames), e, least)
    requires e in ListOf(w, Movement) && e in ListOf(w, StateMachine)
    ensures RunTicks(w, TicksOf(w, frames)) == AfterFrames(w, frames)
    ensures |TicksOf(w, frames)| == |frames| && QuietTicks(w, TicksOf(w, frames), e, least)
  {
    hide Apply, Run, QuietRun, FullTick, FrameSteps, TickOf, RunTick, IsUpdate, Consistent, IsServer, ListOf;
    if frames != [] {
      var before, f := frames[..|frames| - 1], frames[|frames| - 1];
      FramesQuiet(w, before, f, e, least);
      QuietUpdates(w, before, e, least);
      QuietFrame(AfterFrames(w, before), f, e, least);
      assert TicksOf(w, frames)[..|before|] == TicksOf(w, before);
    }
  }

  lemma RoamingHeld(w: World, e: EntityId, limit: real)
    requires Consistent(w) && IsServer(w.systems) && Roaming(BodyOf(w, e), limit)
    ensures e in ListOf(w, Movement) && e in ListOf(w, StateMachine)
  {
    var b := BodyOf(w, e);
    HasIsPresence(b, MOVABLE);
    HasIsPresence(b, POSITION);
    HasIsPresence(b, STATE);
    HeldFor(w, Movement, e, {MOVABLE, POSITION, STATE});
    HeldFor(w, StateMachine, e, {STATE});
  }

  // In k + 2 updates without input, hits or pending moves for it, over friction of at least `least`, an entity whose
  // maximal velocity is at most k times that comes to stand still and is idle.
  lemma SettlesOverUpdates(w: World, frames: seq<Frame>, e: EntityId, limit: real, least: real, k: nat)
    requires AreUpdates(w, frames) && Consistent(w) && IsServer(w.systems)
    requires QuietRun(w, StepsOf(w, frames), e, least) && Roaming(BodyOf(w, e), limit)
    requires limit >= 0.0 && least > 0.0 && k as real * least >= limit && |frames| >= k + 2
    ensures var w' := AfterFrames(w, frames);
            InState(w', e, Idle) && BodyOf(w', e).movable.Some? && BodyOf(w', e).movable.value.velocity == ZERO
  {
    hide Apply, AreUpdates, AfterFrames, StepsOf, QuietRun, QuietTicks, RunTicks, TicksOf;
    RoamingHeld(w, e, limit);
    hide Consistent, IsServer, ListOf;
    QuietUpdates(w, frames, e, least);
    WalkingSettles(w, TicksOf(w, frames), e, limit, least, k);
  }
}
