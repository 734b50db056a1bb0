/** World::update: the server's clients first, then the systems; what one tick of the whole server keeps. */
module WorldTick {
  import opened Components
  import opened Ecs
  import opened EcsIndex
  import opened EntityObjects
  import opened Machine
  import opened Lifecycle
  import opened Drain
  import opened Settling
  import opened MapObjects
  import opened Game
  import opened GameLoop
  import opened GameTick
  import opened Turns
  import opened Link
  import R = Registry
  import opened ServerLife
  import opened MapEntities
  import opened ManyUpdates
  import opened ServerObjects
  import opened WorldObjects

  // The steps of one World::update: timeouts, then the frame.
  ghost function UpdateSteps(g: GameState, dt: nat, left: seq<R.ClientId>, f: Frame): seq<LinkStep> {
    [Link.Pass(dt, left)] + Plays(FrameSteps(Next(g, Link.Pass(dt, left)).world, f))
  }

  lemma FrameIsPlay(g: GameState, f: Frame)
    requires IsUpdate(g.world, f)
    ensures var steps := Plays(FrameSteps(g.world, f));
            && SoundRun(g, steps)
            && After(g, steps) == g.(world := RunTick(g.world, TickOf(g.world, f.parts, f.order, f.keys)))
  {
    hide Apply, Updated, SoundRun, Turn, Flat, Deliveries;
    var w, w' := g.world, Run(g.world, Flat(f.parts));
    UpdateTurns(f.tiles, w, f.order, f.dt, f.parts);
    TurnsGame(w, Flat(f.parts));
    TurnsAreNoLabels(w, Flat(f.parts));
    OnlyHandling(w', f.order, f.keys);
    HandlingGame(w', Deliveries(w', f.order, f.keys));
    GameConcat(w, Flat(f.parts), Deliveries(w', f.order, f.keys));
    RunConcat(w, Flat(f.parts), Deliveries(w', f.order, f.keys));
    PlaysAreRun(g, FrameSteps(w, f));
  }

  lemma TurnsAreNoLabels(w: World, trace: seq<Action>)
    requires forall a :: a in trace ==> Turn(w, a)
    ensures forall a :: a in trace ==> !a.Label?
  {
  }

  // World::update is a run of the server, so whatever holds in every run holds after any number of updates between any
  // packets.
  lemma UpdateIsRun(g: GameState, dt: nat, left: seq<R.ClientId>, f: Frame)
    requires Lists(left, R.TimedOut(g.server, dt)) && IsUpdate(Next(g, Link.Pass(dt, left)).world, f)
    ensures var g', steps := Next(g, Link.Pass(dt, left)), UpdateSteps(g, dt, left, f);
            && SoundRun(g, steps)
            && After(g, steps) == g'.(world := RunTick(g'.world, TickOf(g'.world, f.parts, f.order, f.keys)))
  {
    hide IsUpdate, RunTick, R.TimedOut;
    FrameIsPlay(Next(g, Link.Pass(dt, left)), f);
    OnePass(g, dt, left);
    SoundConcat(g, [Link.Pass(dt, left)], Plays(FrameSteps(Next(g, Link.Pass(dt, left)).world, f)));
  }

  lemma OnePass(g: GameState, dt: nat, left: seq<R.ClientId>)
    requires Lists(left, R.TimedOut(g.server, dt))
    ensures SoundRun(g, [Link.Pass(dt, left)])
    ensures After(g, [Link.Pass(dt, left)]) == Next(g, Link.Pass(dt, left))
  {
    hide Next, R.TimedOut;
    assert [Link.Pass(dt, left)][..0] == [];
  }

  // A server that has just started and loaded a map satisfies everything the theorems ask of a starting point,
  // whatever entities the map brings.
  lemma FreshServerIsHealthy(lines: seq<EntityLine>)
    requires SoundLines(lines)
    ensures var g := GameState(LoadEntities(EmptyServer(), lines), R.Start(R.STOPPED));
            Linked(g) && Living(g.world) && g.server.running
  {
    EmptyServerConsistent();
    EntitiesHealthy(GameState(EmptyServer(), R.Start(R.STOPPED)), lines);
  }

  // So the server is healthy in every run from its start on, whoever joins, leaves, fights or times out.
  lemma ServerStaysHealthy(lines: seq<EntityLine>, steps: seq<LinkStep>)
    requires SoundLines(lines)
    requires SoundRun(GameState(LoadEntities(EmptyServer(), lines), R.Start(R.STOPPED)), steps)
    ensures var g := After(GameState(LoadEntities(EmptyServer(), lines), R.Start(R.STOPPED)), steps);
            Linked(g) && Living(g.world)
  {
    FreshServerIsHealthy(lines);
    HealthyInEveryRun(GameState(LoadEntities(EmptyServer(), lines), R.Start(R.STOPPED)), steps);
  }

  class ServerLoop {
    const world: GameWorld
    const simulation: Simulation
    const em: EntityManager

    ghost predicate Valid()
      reads em`entities, em`idCounter, em`log
      reads em.sm`order, em.sm`systems, em.sm.systems.Values`members, em.sm`events, em.sm`input, world.server
    {
      world.em == em && simulation.em == em && simulation.Valid() && world.Valid() && Living(em.World())
    }

    constructor (world: GameWorld, simulation: Simulation)
      requires world.Valid() && simulation.Valid() && world.em == simulation.em && Living(world.em.World())
      ensures Valid() && this.world == world
    {
      hide EntityManager.World, EntityManager.Valid, Simulation.Valid, GameWorld.Valid, Living;
      this.world, this.simulation, this.em := world, simulation, world.em;
    }

    // The clients come first.
    method UpdateClients(dt: nat) returns (left: seq<R.ClientId>)
      requires Valid()
      modifies em`entities, em.sm`input, em.sm.systems.Values, world.server
      ensures Valid() && Lists(left, R.TimedOut(old(world.server.State()), dt))
      ensures world.State() == Next(old(world.State()), Link.Pass(dt, left))
    {
      hide EntityManager.World, EntityManager.Valid, Simulation.Valid;
      hide Linked, Living, Next, R.TimedOut;
      simulation.ValidIsWired();
      left := world.UpdateServer(dt);
      LeftHealthy(old(world.State()), dt, left);
      simulation.WiredIsValid();
    }

    // World::update for a frame of dt microseconds: timeouts, then the systems. Links and lives stay in order.
    method Update(dt: nat, tileMap: GameMap, sqrt: real -> real)
      returns (left: seq<R.ClientId>,
               ghost order: seq<System>, ghost parts: seq<seq<Action>>, ghost keys: seq<EntityId>)
      requires Valid() && R.Ms(dt) >= 0
      requires IsSquareRoot(sqrt)
      modifies em`entities, em`log, em.sm`events, em.sm`input, em.sm.systems.Values, world.server
      ensures Valid()
      ensures !old(world.server.running) ==> world.State() == old(world.State())
      ensures old(world.server.running) ==>
              var g := Next(old(world.State()), Link.Pass(dt, left));
              && Lists(left, R.TimedOut(old(world.server.State()), dt))
              && IsUpdate(g.world, Frame(tileMap.State(), R.Ms(dt), order, parts, keys))
              && world.State() == g.(world := RunTick(g.world, TickOf(g.world, parts, order, keys)))
    {
      hide EntityManager.World, EntityManager.Valid, Simulation.Valid;
      hide Linked, Living, Next, R.TimedOut, RunTick, Updated;
      left, order, parts, keys := [], [], [], [];
      if !world.server.running {
        return;
      }
      left := UpdateClients(dt);
      ghost var g := world.State();
      LinkedConsistent(g);
      order, parts, keys := simulation.Update(R.Ms(dt), tileMap, sqrt);
      FrameHealthy(g, Frame(tileMap.State(), R.Ms(dt), order, parts, keys));
      simulation.ValidIsWired();
    }

    // A packet for the packet handler.
    method Receive(endpoint: R.Endpoint, packet: Link.Packet, file: Option<Archetype>) returns (reply: Reply)
      requires Valid() && Named(file) && SoundFile(file)
      modifies em, em.sm`events, em.sm`input, em.sm.systems.Values, world.server
      ensures Valid() && reply == ReplyTo(old(world.State()), endpoint, packet, file)
      ensures world.State() == Next(old(world.State()), Link.Receive(endpoint, packet, file))
    {
      hide EntityManager.World, EntityManager.Valid, Simulation.Valid;
      hide Linked, Living, OnPacket, ReplyTo, Equipped, Named;
      simulation.ValidIsWired();
      StepHealthy(world.State(), Link.Receive(endpoint, packet, file));
      reply := world.HandlePacket(endpoint, packet, file);
      simulation.WiredIsValid();
    }

    // The console's disconnectall.
    method DisconnectEveryone()
      requires Valid()
      modifies em, em.sm.systems.Values, world.server
      ensures Valid()
      ensures world.State() == Next(old(world.State()), Link.DisconnectEveryone)
    {
      hide EntityManager.World, EntityManager.Valid, Simulation.Valid;
      hide Linked, Living, Next, Equipped;
      simulation.ValidIsWired();
      StepHealthy(world.State(), Link.DisconnectEveryone);
      world.DisconnectEveryone();
      simulation.WiredIsValid();
    }
  }

  lemma LinkedConsistent(g: GameState)
    requires Linked(g)
    ensures Consistent(g.world) && IsServer(g.world.systems)
  {
  }

  lemma FrameHealthy(g: GameState, f: Frame)
    requires Linked(g) && Living(g.world) && IsUpdate(g.world, f)
    ensures Linked(g.(world := RunTick(g.world, TickOf(g.world, f.parts, f.order, f.keys))))
  {
    hide Linked, Living, IsUpdate;
    FrameIsPlay(g, f);
    HealthyInEveryRun(g, Plays(FrameSteps(g.world, f)));
  }

  lemma StepHealthy(g: GameState, a: LinkStep)
    requires Linked(g) && Living(g.world) && SoundStep(g, a)
    ensures Linked(Next(g, a)) && Living(Next(g, a).world) && Equipped(Next(g, a).world)
  {
    hide Living, Next, Equipped;
    NextHealthy(g, a);
    ConsistentIsEquipped(Next(g, a).world);
  }

  lemma LeftHealthy(g: GameState, dt: nat, left: seq<R.ClientId>)
    requires Linked(g) && Living(g.world) && Lists(left, R.TimedOut(g.server, dt))
    ensures var g' := Next(g, Link.Pass(dt, left)); Linked(g') && Living(g'.world) && Equipped(g'.world)
  {
    hide Linked, Living, R.TimedOut, Next, Equipped;
    StepHealthy(g, Link.Pass(dt, left));
  }
}
