/** SystemManager::update: every system's turn, in whatever order the systems come, and then the events. */
module GameTick {
  import opened Components
  import opened Ecs
  import opened EcsIndex
  import opened EntityObjects
  import opened Machine
  import opened Lifecycle
  import opened Drain
  import opened Settling
  import opened Strikes
  import opened Tiles
  import opened MapObjects
  import opened Game
  import opened GameLoop
  import opened Turns
  import opened EventLoop

  // ---------- what one update is, as a run ----------

  // The map turns of the listed entities, one after the other.
  ghost predicate MapTurns(s: MapState, w: World, list: seq<EntityId>, trace: seq<Action>) {
    && |trace| == |list|
    && (list == [] ||
        (var before := trace[..|trace| - 1];
         && MapTurns(s, w, list[..|list| - 1], before)
         && IsMapTurn(s, Run(w, before), list[|list| - 1], trace[|trace| - 1])))
  }

  // S_Collision::update: the map first, then the pairs.
  ghost predicate CollisionTurn(s: MapState, w: World, trace: seq<Action>) {
    var list := ListOf(w, Collision);
    && |list| <= |trace|
    && MapTurns(s, w, list, trace[..|list|])
    && trace[|list|..] == Strikes.Attacks(PassMessages(Run(w, trace[..|list|]), list))
  }

  // The update of one system.
  ghost predicate SystemTurn(s: MapState, w: World, system: System, dt: nat, trace: seq<Action>) {
    match system
    case Network => trace == InputRuns(ListOf(w, Network))
    case Movement => Motions(s, w, ListOf(w, Movement), dt, trace)
    case StateMachine => trace == WalkRuns(ListOf(w, StateMachine))
    case Collision => CollisionTurn(s, w, trace)
    case Combat => trace == AreaRuns(ListOf(w, Combat))
    case Timers => trace == TimerRuns(ListOf(w, Timers), dt)
    case _ => trace == []
  }

  function Flat(parts: seq<seq<Action>>): seq<Action> {
    if parts == [] then [] else Flat(parts[..|parts| - 1]) + parts[|parts| - 1]
  }

  // parts[k] is the update of the system order[k].
  ghost predicate Updated(s: MapState, w: World, order: seq<System>, dt: nat, parts: seq<seq<Action>>) {
    && |parts| == |order|
    && (order == [] ||
        (var before := parts[..|parts| - 1];
         && Updated(s, w, order[..|order| - 1], dt, before)
         && SystemTurn(s, Run(w, Flat(before)), order[|order| - 1], dt, parts[|parts| - 1])))
  }

  // ---------- every update is a run of the game ----------

  lemma {:induction false} AttackTurns(w: World, messages: seq<Strikes.Message>)
    ensures forall a :: a in Strikes.Attacks(messages) ==> Turn(w, a)
  {
    if messages != [] {
      AttackTurns(w, messages[..|messages| - 1]);
    }
  }

  lemma {:induction false} MotionTurns(s: MapState, w: World, list: seq<EntityId>, dt: nat, trace: seq<Action>)
    requires Motions(s, w, list, dt, trace)
    ensures forall a :: a in trace ==> Turn(w, a)
  {
    if list != [] {
      MotionTurns(s, w, list[..|list| - 1], dt, trace[..|trace| - 1]);
    }
  }

  lemma {:induction false} ResolveTurns(s: MapState, w: World, list: seq<EntityId>, trace: seq<Action>)
    requires MapTurns(s, w, list, trace)
    ensures forall a :: a in trace ==> Turn(w, a)
  {
    hide IsMapPass, Bounded, Run;
    if list != [] {
      ResolveTurns(s, w, list[..|list| - 1], trace[..|trace| - 1]);
    }
  }

  lemma SystemTurns(s: MapState, w: World, system: System, dt: nat, trace: seq<Action>)
    requires SystemTurn(s, w, system, dt, trace)
    ensures forall a :: a in trace ==> Turn(w, a)
  {
    hide IsMapTurn, IsMotion, Run, PassMessages;
    match system {
      case Network => InputTurns(w, ListOf(w, Network));
      case Movement => MotionTurns(s, w, ListOf(w, Movement), dt, trace);
      case StateMachine => SimpleTurns(w, ListOf(w, StateMachine), dt);
      case Collision =>
        var list := ListOf(w, Collision);
        ResolveTurns(s, w, list, trace[..|list|]);
        AttackTurns(w, PassMessages(Run(w, trace[..|list|]), list));
        assert trace == trace[..|list|] + trace[|list|..];
      case Combat => SimpleTurns(w, ListOf(w, Combat), dt);
      case Timers => SimpleTurns(w, ListOf(w, Timers), dt);
      case _ =>
    }
  }

  lemma {:induction false} UpdateTurns(s: MapState, w: World, order: seq<System>, dt: nat, parts: seq<seq<Action>>)
    requires Updated(s, w, order, dt, parts)
    ensures forall a :: a in Flat(parts) ==> Turn(w, a)
  {
    if order != [] {
      var before, last := parts[..|parts| - 1], parts[|parts| - 1];
      UpdateTurns(s, w, order[..|order| - 1], dt, before);
      TurnsGame(w, Flat(before));
      var w' := Run(w, Flat(before));
      SystemTurns(s, w', order[|order| - 1], dt, last);
      forall a | a in last
        ensures Turn(w, a)
      {
        assert Turn(w', a);
      }
    }
  }

  lemma {:induction false} HandlingGame(w: World, actions: seq<Action>)
    requires forall a :: a in actions ==> a.Handle? || a.TakeQueue?
    ensures GameRun(w, actions)
  {
    if actions != [] {
      var before, last := actions[..|actions| - 1], actions[|actions| - 1];
      assert actions == before + [last];
      HandlingGame(w, before);
      assert last in actions;
      assert GameStep(Run(w, before), last);
    }
  }

  lemma {:induction false} OnlyHandling(w: World, order: seq<System>, keys: seq<EntityId>)
    ensures forall a :: a in Deliveries(w, order, keys) ==> a.Handle? || a.TakeQueue?
  {
    if keys != [] {
      OnlyHandling(w, order, keys[..|keys| - 1]);
      OnlyHandlers(w, order, keys[|keys| - 1], EventsOf(w, keys[|keys| - 1]));
    }
  }

  // ---------- everyone gets a turn ----------

  lemma {:induction false} MotionForEach(s: MapState, w: World, list: seq<EntityId>, dt: nat, trace: seq<Action>,
                                         e: EntityId)
    requires Motions(s, w, list, dt, trace) && e in list
    ensures MoveCount(trace, e) >= 1
  {
    if e != list[|list| - 1] {
      MotionForEach(s, w, list[..|list| - 1], dt, trace[..|trace| - 1], e);
    }
  }

  lemma {:induction false} WalkForEach(list: seq<EntityId>, e: EntityId)
    requires e in list
    ensures CheckWalk(e) in WalkRuns(list)
  {
    if e != list[|list| - 1] {
      WalkForEach(list[..|list| - 1], e);
    }
  }

  // e has its turns in S_Movement and S_State, if they are among the systems and hold it.
  ghost predicate HasTurns(w: World, order: seq<System>, trace: seq<Action>, e: EntityId) {
    && (Movement in order && e in ListOf(w, Movement) ==> MoveCount(trace, e) >= 1)
    && (StateMachine in order && e in ListOf(w, StateMachine) ==> CheckWalk(e) in trace)
  }

  lemma SystemForEach(s: MapState, w: World, system: System, dt: nat, part: seq<Action>, e: EntityId)
    requires SystemTurn(s, w, system, dt, part)
    ensures HasTurns(w, [system], part, e)
  {
    hide Run, IsMotion, IsMapTurn, PassMessages;
    if system == Movement && e in ListOf(w, Movement) {
      MotionForEach(s, w, ListOf(w, Movement), dt, part, e);
    }
    if system == StateMachine && e in ListOf(w, StateMachine) {
      WalkForEach(ListOf(w, StateMachine), e);
    }
  }

  lemma OneMoreTurn(w: World, w': World, systems: seq<System>, system: System, a: seq<Action>, b: seq<Action>,
                    e: EntityId)
    requires HasTurns(w, systems, a, e) && HasTurns(w', [system], b, e)
    requires forall t :: ListOf(w', t) == ListOf(w, t)
    ensures HasTurns(w, systems + [system], a + b, e)
  {
    hide ListOf, MoveCount;
    MoveCountConcat(a, b, e);
  }

  lemma {:induction false} TurnForEach(s: MapState, w: World, order: seq<System>, dt: nat, parts: seq<seq<Action>>,
                                       e: EntityId)
    requires Updated(s, w, order, dt, parts)
    ensures HasTurns(w, order, Flat(parts), e)
  {
    hide HasTurns, Run, SystemTurn, ListOf;
    if order == [] {
      NoTurns(w, e);
    } else {
      var before, last := parts[..|parts| - 1], parts[|parts| - 1];
      var systems, system, w' := order[..|order| - 1], order[|order| - 1], Run(w, Flat(before));
      assert order == systems + [system];
      TurnForEach(s, w, systems, dt, before, e);
      UpdateTurns(s, w, systems, dt, before);
      TurnsGame(w, Flat(before));
      SystemForEach(s, w', system, dt, last, e);
      OneMoreTurn(w, w', systems, system, Flat(before), last, e);
    }
  }

  lemma NoTurns(w: World, e: EntityId)
    ensures HasTurns(w, [], [], e)
  {
  }

  lemma {:induction false} ReceivedIsHandled(actions: seq<Action>, s: System, e: EntityId, event: EntityEvent)
    requires event in Received(actions, s, e)
    ensures Handle(s, e, event) in actions
  {
    var before, last := actions[..|actions| - 1], actions[|actions| - 1];
    assert actions == before + [last];
    if event in Received(before, s, e) {
      ReceivedIsHandled(before, s, e, event);
    }
  }

  // The tick an update makes of its parts.
  ghost function TickOf(w: World, parts: seq<seq<Action>>, order: seq<System>, keys: seq<EntityId>): Tick {
    Tick(Flat(parts), Deliveries(Run(w, Flat(parts)), order, keys))
  }

  // What the loop chose: the tiles and the time it was given, the order of the systems, what each did, and the order of
  // the queues.
  datatype Frame = Frame(tiles: MapState, dt: nat, order: seq<System>, parts: seq<seq<Action>>, keys: seq<EntityId>)

  // The frame is an update of the systems in w: every system has its turn once, and every queue is drained once.
  ghost predicate IsUpdate(w: World, f: Frame) {
    && Updated(f.tiles, w, f.order, f.dt, f.parts)
    && DistinctSystems(f.order) && (forall s :: s in f.order <==> s in w.systems)
    && NoDuplicates(f.keys) && (forall e :: e in f.keys <==> e in Run(w, Flat(f.parts)).events)
  }

  lemma IsUpdateWhen(w: World, f: Frame)
    requires Updated(f.tiles, w, f.order, f.dt, f.parts)
    requires DistinctSystems(f.order) && forall s :: s in f.order <==> s in w.systems
    requires NoDuplicates(f.keys) && forall e :: e in f.keys <==> e in Run(w, Flat(f.parts)).events
    ensures IsUpdate(w, f)
    ensures RunTick(w, TickOf(w, f.parts, f.order, f.keys)) ==
            Run(Run(w, Flat(f.parts)), Deliveries(Run(w, Flat(f.parts)), f.order, f.keys))
  {
  }

  // An update is a run of the game, and a full tick, as WalkingSettles asks for, for every entity that moves and has
  // a state, in every order of systems and queues.
  lemma UpdateIsFullTick(s: MapState, w: World, order: seq<System>, dt: nat, parts: seq<seq<Action>>,
                         keys: seq<EntityId>, e: EntityId)
    requires Updated(s, w, order, dt, parts)
    requires DistinctSystems(order) && Movement in order && StateMachine in order
    requires NoDuplicates(keys) && forall f :: f in Run(w, Flat(parts)).events ==> f in keys
    requires e in ListOf(w, Movement) && e in ListOf(w, StateMachine)
    ensures FullTick(w, TickOf(w, parts, order, keys), e)
  {
    var w' := Run(w, Flat(parts));
    UpdateTurns(s, w, order, dt, parts);
    TurnsGame(w, Flat(parts));
    TurnForEach(s, w, order, dt, parts, e);
    if BecameIdle in EventsOf(w', e) {
      EachEventOnceInOrder(w', order, keys, StateMachine, e);
      ReceivedIsHandled(Deliveries(w', order, keys), StateMachine, e, BecameIdle);
    }
  }

  lemma ProductAtLeast(a: real, b: real, c: real, d: real)
    requires 0.0 <= c <= a && 0.0 <= d <= b
    ensures a * b >= c * d >= 0.0
  {
    assert a * b >= c * b;
    assert c * b >= c * d;
  }

  lemma FrictionAtLeast(v: real, c: real, dt: real, speed: real, coefficient: real)
    requires 0.0 <= speed <= v && 0.0 <= coefficient <= c && dt >= 1.0
    ensures v * c * dt >= speed * coefficient
  {
    ProductAtLeast(v, c, speed, coefficient);
    ProductAtLeast(v * c, dt, speed * coefficient, 1.0);
  }

  // On tiles whose friction is at least `coefficient` on both axes, a turn of an entity at least `speed` fast slows it
  // as a quiet run asks.
  lemma TileFrictionIsQuiet(s: MapState, w: World, e: EntityId, dt: nat, a: Action, speed: real, coefficient: real)
    requires IsMotion(s, w, e, dt, a) && dt >= 1 && speed >= 0.0 && coefficient >= 0.0
    requires BodyOf(w, e).movable.value.speed.x >= speed && BodyOf(w, e).movable.value.speed.y >= speed
    requires a.coefficient.x >= coefficient && a.coefficient.y >= coefficient
    ensures Quiet(w, a, e, speed * coefficient)
  {
    var v := BodyOf(w, e).movable.value.speed;
    FrictionAtLeast(v.x, a.coefficient.x, dt as real, speed, coefficient);
    FrictionAtLeast(v.y, a.coefficient.y, dt as real, speed, coefficient);
    hide IsMotion;
  }

  lemma UpdateKeepsLiving(s: MapState, w: World, order: seq<System>, dt: nat, parts: seq<seq<Action>>)
    requires Updated(s, w, order, dt, parts)
    requires Consistent(w) && IsServer(w.systems) && Living(w)
    ensures var w' := Run(w, Flat(parts)); Consistent(w') && IsServer(w'.systems) && Living(w')
  {
    UpdateTurns(s, w, order, dt, parts);
    TurnsGame(w, Flat(parts));
    IndexInEveryRun(w, Flat(parts));
    LifecycleInEveryRun(w, Flat(parts));
  }

  lemma HandlingKeepsLiving(w: World, order: seq<System>, keys: seq<EntityId>)
    requires Consistent(w) && IsServer(w.systems) && Living(w)
    ensures var w' := Run(w, Deliveries(w, order, keys)); Consistent(w') && IsServer(w'.systems) && Living(w')
  {
    OnlyHandling(w, order, keys);
    HandlingGame(w, Deliveries(w, order, keys));
    IndexInEveryRun(w, Deliveries(w, order, keys));
    LifecycleInEveryRun(w, Deliveries(w, order, keys));
  }

  // One more system has its turn.
  lemma UpdatedNext(s: MapState, w: World, order: seq<System>, i: nat, dt: nat, parts: seq<seq<Action>>,
                    part: seq<Action>)
    requires i < |order| && Updated(s, w, order[..i], dt, parts)
    requires SystemTurn(s, Run(w, Flat(parts)), order[i], dt, part)
    ensures Updated(s, w, order[..i + 1], dt, parts + [part])
    ensures Run(w, Flat(parts + [part])) == Run(Run(w, Flat(parts)), part)
  {
    hide Apply, Run, SystemTurn;
    assert (parts + [part])[..i] == parts && order[..i + 1][..i] == order[..i];
    RunConcat(w, Flat(parts), part);
  }

  class Simulation {
    const loop: Loop
    const handling: EventHandling
    const em: EntityManager

    ghost predicate Valid()
      reads em`entities, em`idCounter, em`log
      reads em.sm`order, em.sm`systems, em.sm.systems.Values`members, em.sm`events, em.sm`input
    {
      loop.em == em && handling.em == em && loop.Valid() && handling.Valid()
    }

    constructor (loop: Loop, handling: EventHandling)
      requires loop.Valid() && handling.Valid() && loop.em == handling.em
      ensures Valid() && this.em == loop.em
    {
      this.loop, this.handling, this.em := loop, handling, loop.em;
    }

    // The parts belong together, whatever is stored in them.
    ghost predicate Wired() {
      && loop.em == em && handling.em == em && loop.g.em == em && handling.g.em == em
      && loop.g.hurtObservers in [[Network, StateMachine], [StateMachine, Network]]
      && handling.g.hurtObservers in [[Network, StateMachine], [StateMachine, Network]]
    }

    lemma ValidIsWired()
      requires Valid()
      ensures Wired() && em.Valid()
    {
    }

    lemma WiredIsValid()
      requires Wired() && em.Valid() && Equipped(em.World())
      ensures Valid()
    {
    }

    // S_Collision::update.
    method CollisionUpdate(tileMap: GameMap) returns (ghost trace: seq<Action>)
      requires Valid()
      modifies em`entities, em`log, em.sm`events
      ensures Valid() && CollisionTurn(tileMap.State(), old(em.World()), trace)
      ensures em.World() == Run(old(em.World()), trace)
    {
      hide EntityManager.World, EntityManager.Valid, IsMapTurn;
      ghost var w := em.World();
      var list := em.Members(Collision);
      trace := [];
      for i := 0 to |list|
        invariant Valid() && MapTurns(tileMap.State(), w, list[..i], trace)
        invariant em.World() == Run(w, trace)
      {
        ResolveTurns(tileMap.State(), w, list[..i], trace);
        TurnsGame(w, trace);
        ghost var a := loop.MapTurn(list[i], tileMap);
        assert list[..i + 1][..i] == list[..i];
        assert (trace + [a])[..i] == trace;
        RunStep(w, trace, a);
        trace := trace + [a];
      }
      assert list[..|list|] == list;
      ResolveTurns(tileMap.State(), w, list, trace);
      TurnsGame(w, trace);
      ghost var strikes := Strikes.Attacks(PassMessages(em.World(), list));
      loop.EntityCollisions();
      RunConcat(w, trace, strikes);
      assert (trace + strikes)[..|list|] == trace && (trace + strikes)[|list|..] == strikes;
      trace := trace + strikes;
    }

    method SystemUpdate(s: System, dt: nat, tileMap: GameMap, sqrt: real -> real) returns (ghost trace: seq<Action>)
      requires Valid() && Consistent(em.World()) && IsServer(em.World().systems) && Living(em.World())
      requires IsSquareRoot(sqrt)
      modifies em`entities, em`log, em.sm`events, em.sm`input
      ensures Valid() && SystemTurn(tileMap.State(), old(em.World()), s, dt, trace)
      ensures em.World() == Run(old(em.World()), trace)
    {
      hide EntityManager.World, EntityManager.Valid, CollisionTurn, Motions;
      ghost var w := em.World();
      match s {
        case Network =>
          loop.NetworkUpdate();
          trace := InputRuns(ListOf(w, Network));
        case Movement => trace := loop.MovementUpdate(dt, tileMap, sqrt);
        case StateMachine =>
          loop.StateUpdate();
          trace := WalkRuns(ListOf(w, StateMachine));
        case Collision => trace := CollisionUpdate(tileMap);
        case Combat =>
          loop.CombatUpdate();
          trace := AreaRuns(ListOf(w, Combat));
        case Timers =>
          loop.TimersUpdate(dt);
          trace := TimerRuns(ListOf(w, Timers), dt);
        case _ => trace := [];
      }
    }

    method Order() returns (order: seq<System>)
      requires Valid()
      ensures order == em.sm.order
      ensures DistinctSystems(order) && forall s :: s in order <==> s in em.World().systems
    {
      order := em.Order();
    }

    // The systems' updates, in the systems' iteration order.
    method UpdateSystems(dt: nat, tileMap: GameMap, sqrt: real -> real)
      returns (ghost order: seq<System>, ghost parts: seq<seq<Action>>)
      requires Valid() && Consistent(em.World()) && IsServer(em.World().systems) && Living(em.World())
      requires IsSquareRoot(sqrt)
      modifies em`entities, em`log, em.sm`events, em.sm`input
      ensures Valid() && Updated(tileMap.State(), old(em.World()), order, dt, parts)
      ensures order == em.sm.order
      ensures DistinctSystems(order) && forall s :: s in order <==> s in old(em.World()).systems
      ensures em.World() == Run(old(em.World()), Flat(parts))
    {
      hide EntityManager.World, EntityManager.Valid, SystemTurn, GameSystems.Valid, Loop.Valid, EventHandling.Valid;
      hide Consistent, IsServer, Living;
      ghost var w := em.World();
      var systems := Order();
      order, parts := systems, [];
      for i := 0 to |systems|
        invariant Valid() && order == systems && Updated(tileMap.State(), w, systems[..i], dt, parts)
        invariant em.World() == Run(w, Flat(parts))
      {
        UpdateKeepsLiving(tileMap.State(), w, systems[..i], dt, parts);
        ghost var part := SystemUpdate(systems[i], dt, tileMap, sqrt);
        UpdatedNext(tileMap.State(), w, systems, i, dt, parts, part);
        parts := parts + [part];
      }
      assert systems[..|systems|] == systems;
    }

    // SystemManager::update.
    method Update(dt: nat, tileMap: GameMap, sqrt: real -> real)
      returns (ghost order: seq<System>, ghost parts: seq<seq<Action>>, ghost keys: seq<EntityId>)
      requires Valid() && Consistent(em.World()) && IsServer(em.World().systems) && Living(em.World())
      requires IsSquareRoot(sqrt)
      modifies em`entities, em`log, em.sm`events, em.sm`input
      ensures Valid() && IsUpdate(old(em.World()), Frame(tileMap.State(), dt, order, parts, keys))
      ensures em.World() == RunTick(old(em.World()), TickOf(old(em.World()), parts, order, keys))
      ensures Consistent(em.World()) && IsServer(em.World().systems) && Living(em.World())
    {
      hide EntityManager.World, EntityManager.Valid, Updated, Run, Consistent, IsServer, Living;
      hide IsUpdate, TickOf, RunTick;
      ghost var w := em.World();
      order, parts := UpdateSystems(dt, tileMap, sqrt);
      UpdateKeepsLiving(tileMap.State(), w, order, dt, parts);
      ghost var w1 := em.World();
      ghost var handlers;
      handlers, keys := handling.HandleEvents();
      HandlingKeepsLiving(w1, handlers, keys);
      IsUpdateWhen(w, Frame(tileMap.State(), dt, order, parts, keys));
    }
  }
}
