# Verified model of the RPG server

A Dafny model of an authoritative game server: an entity-component-system, combat and lifecycle timers, tile collision
and movement, and a client registry kept alive by a heartbeat protocol. What changes state in the server is modelled by
classes whose methods do it step by step; what those methods do is given by functions on values; the theorems are about
sequences of such steps, in any order, for any entities, clients and times.

## How it is laid out

The simulation. `Ecs.World` is the whole entity-component-system as one value: records with masks and component bodies,
the systems' entity lists, event queues and player input. `Rules` says what one entity's turn in each system does to it;
`Machine` names those turns and the entity manager's operations as actions and runs sequences of them. `EcsIndex`,
`Frames`, `Machine`, `Lifecycle`, `Death`, `Recovery`, `Damage`, `Survival`, `Strikes`, `Settling` and `Drain` prove the
properties of all such runs. What each step comes to, said of the values it changes and of all it leaves alone, is in
`EntityOutcomes`, `Wounds`, `Recovery`, `Steering`, `Answers`, `Obstacles`, `ServerSteps` and `Visits`; `Steering`
follows a player's input to the map. `EcsObjects`, `EntityObjects`, `Game`, `GameLoop`, `EventLoop` and `GameTick` are
the managers and systems as objects, over component vectors, with observers, re-entrant dispatch and loops; each method
is proved to take exactly a run of `Machine`, whatever the iteration order of the hash maps. `OneUpdate` counts the
turns of one update, and `ManyUpdates` carries the theorems over any number of updates.

The world has a log, a ghost that observes only: `Being_Attacked` handled, an entity's timer run, an event handed to a
system. A method that ends in the world of a run has therefore made exactly the strikes, timer turns and deliveries of
that run, each as often and in the same order (`Machine.LogFollowsRun`); `Journal` counts them. A loop that struck or
delivered twice would not meet its contract.

Space. `Geometry`, `Motion`, `Tiles`, `MapRecords` and `MapObjects` hold rectangles, velocities, the tile map and the
map pass of the collision system. Numbers are reals; the square root is a parameter with its defining property.

The network. `Registry` is the server's client map, socket map and clock with the steps its threads take;
`ServerObjects` is the `Server` class over them. `Rollover` watches the 31-bit clock against one that does not roll
over, `ClientSide` is the client's clock, `Session` is the heartbeat protocol between the two in real time, and
`Handshake` is the time from `addClient` to the end of the client's `connect`. `Link` joins registry and entities as
`World.cpp` does, `ServerLife` carries the lives through every run of the whole server, `WorldObjects`, `MapEntities`
and `WorldTick` are the corresponding objects, and `Snapshot` and `PacketObjects` are the snapshot packets.

## Assumptions

The theorems state these where they use them.

- Entities of the game come from entity files whose archetype is sound (`Lifecycle.SoundArchetype`): maximal health is
  positive, nobody is born dying, players and born attackers have an Attacker component. `m_attacked`, which the
  constructor leaves unset, starts false.
- The systems are the seven the server registers, with the masks their constructors build (`EcsIndex.IsServer`). The
  general index theorems ask for less: no zero requirement.
- Each region under the server's mutex, `stop`, and `disconnectall` together with the purge after it, is one atomic step.
- A Player file with a Position has a Name, because `handlePacket` dereferences it.
- In `Session` and `Handshake` packets arrive within `delay` and are not lost, both sides update at least every `tick`,
  the server's clock does not roll over meanwhile, and the client is still in `connect` when the reply arrives, which
  `2 * delay < 5000` (`CONNECT_TIMEOUT`) ensures. What reaches the client before that reply is thrown away. The two
  sides' clocks run equally fast.
- An entity comes to rest (`Settling`, `ManyUpdates.SettlesOverUpdates`) only if its maximal velocity is not negative.
- Elapsed times are not negative. Timers and frame times are whole milliseconds, clocks whole microseconds.

## Findings

Places where the code does not do what its names or its other parts suggest; each is a lemma with the exact condition or
a concrete input.

- `addEntity` closes with the requested mask instead of the mask it has built. The index survives exactly when both fit
  every system alike (`EcsIndex.AddEntityIndexed`); `EcsIndex.RequestedMaskCanBreakIndex` gives a table where it does not.
- `removeEntity` leaves an empty record in the map, so a system with a zero requirement would have to keep it: the index
  survives exactly without one (`EcsIndex.RemoveEntityIndexed`).
- `convertCoords` tells all coordinates of a map apart exactly up to 2^32 cells over all layers
  (`Tiles.ConvertInjective`, `Tiles.ConvertCollides`).
- The loader's `>` check lets in records at x == width and y == height. Each of them lands in the other cell that has
  its code, if there is one and it is still empty (`MapRecords.BorderRecordAliases`; `MapRecords.BorderNeighbours` names
  the neighbours). The record a cell shows is its own first one if and only if no record of another place with its code
  comes before it (`MapRecords.OwnRecordWins`); without SIZE lines those are the border records
  (`MapRecords.OwnRecordWinsExactly`).
- Friction speeds an axis up if and only if it is negative and the axis at least that fast
  (`Motion.NegativeFrictionSpeedsUp`).
- Under a negative maximal velocity nothing slows down: each step leaves the full size of it, unless friction takes all
  of that on every axis that moves (`Motion.NegativeLimitNeverSlows`).
- Resolving a tile from a synchronised box leaves an overlap if and only if the box is of negative size along the axis
  it is moved on and over the tile on the other one (`MapObjects.ResolveClears`).
- The Mid_Bottom origin places a box like Abs_Centre (`MapObjects.BoxFollows`).
- The loops of the collision scan cover every cell a box is over if and only if their guards hold at the start, or the
  box is empty (`Tiles.RangesCover`): a box of negative size may stay within one column or row of tiles, and is not
  scanned at all when it does not. Some map then has a tile that the scan overlooks, if the box is over a cell that a map
  can have (`Tiles.OverlooksExactly`; `Tiles.CornerOverlooked` builds the map).
- Being hurt and being dead share a timer that a hit does not start over, so whoever is killed while it is hurt is dead
  for the rest of deathDuration only (`Survival.KilledWhileHurt`).
- The retry limit of the heartbeat loop never evicts anyone, because a client that is waiting is never sent another
  heartbeat (`Registry.HeartbeatRound`).
- A heartbeat that overtakes the reply to the Connect is thrown away by the client, and then the session is lost without
  any packet loss: the server never sends another heartbeat and gives the client up after 10000 ms
  (`Handshake.LostForever`). While 1000 + 2 * tick + 2 * delay < 10000, a run loses the session if and only if a
  heartbeat arrives before that reply (`Handshake.LostExactly`), and such a run exists if and only if tick >= 1 and
  tick + delay >= 1000 (`Handshake.OvertakingExactly`; `Handshake.LateAnswer` builds it).
- A rollover of the server's clock forgives every client up to twice the distance of its last contact from the end of
  the clock (`Rollover.ReportedAtRollover`).
- A Disconnect packet removes the player but not the client, so the endpoint cannot connect again until it times out
  (`Link.DisconnectedCannotReturn`).
- Health is sent as one byte and arrives unchanged exactly when it is below 256 (`Snapshot.HealthFitsByte`).
- `S_Timers` prepares a second requirement, with Attacker, but clears it without registering it. So no update ever runs
  the timer of an attacker without Health (`ManyUpdates.TimedExactlyWithHealth`): it hits at most once, for ever
  (`ManyUpdates.AttackerWithoutHealth`).

## Model

| member | source | states |
|---|---|---|
| `Bitmasks.MatchesIsInclusion` | `src/common/Bitmask.h:15-18` | a non-zero requirement matches a mask exactly when the mask includes it |
| `Bitmasks.FitsIsInclusion` | `src/common/S_Base.cpp:30-34` | without a zero requirement, a table fits a mask exactly when the mask includes one of its entries |
| `Bitmasks.EmptyMaskFits` | `src/common/Bitmask.h:15-18` | relevance 0 means equality, so the empty mask fits exactly the tables with a zero requirement |
| `EcsObjects.SystemBase.HasEntity` | `src/common/S_Base.cpp:9-11` | the search answers membership of the list |
| `EcsObjects.SystemBase.AddEntity` | `src/common/S_Base.cpp:13-17` | a new id goes to the end of the list, a present one changes nothing, and the result says which |
| `EcsObjects.SystemBase.RemoveEntity` | `src/common/S_Base.cpp:19-26` | exactly the first occurrence is erased, and the result says whether there was one |
| `EcsObjects.SystemBase.FitsRequirements` | `src/common/S_Base.cpp:30-34` | the search finds a matching requirement exactly when one exists |
| `EcsObjects.SystemBase.Purge` | `src/common/S_Base.cpp:36-38` | the list is empty afterwards |
| `EcsObjects.SystemManager.AddSystem` | `src/common/System_Manager.h:28-33` | a system is registered once, with an empty list, anywhere in the iteration order |
| `EcsObjects.SystemManager.EntityModified` | `src/common/System_Manager.cpp:34-46` | every system is refreshed for the entity and its mask, in any iteration order, and nothing else changes |
| `EcsObjects.SystemManager.RemoveEntity` | `src/common/System_Manager.cpp:48-52` | the entity leaves every list |
| `EcsObjects.SystemManager.PurgeEntities` | `src/common/System_Manager.cpp:58-62` | every list is empty afterwards |
| `EcsObjects.SystemManager.AddEvent` | `src/common/System_Manager.cpp:54-56` | the event goes to the end of the queue of the entity, which is made if there is none |
| `EntityObjects.WellStoredMeans` | `src/common/Entity_Manager.h:16-20` | a set bit means exactly one stored component of that type, a clear bit none |
| `EntityObjects.EntityManager.GetComponent` | `src/common/Entity_Manager.h:38-51` | the component of that type, or nothing exactly when the entity has none |
| `EntityObjects.EntityManager.AddComponent` | `src/common/Entity_Manager.cpp:98-112` | adds a fresh component and its bit unless the id is unknown, the bit set or the type not in the factory; then the systems are told |
| `EntityObjects.EntityManager.RemoveComponent` | `src/common/Entity_Manager.cpp:121-138` | erases the component and its bit unless the id is unknown or the bit clear; then the systems are told |
| `EntityObjects.EntityManager.AddEntity` | `src/common/Entity_Manager.cpp:7-21` | -1 and no change if the id is taken, else a record with the requested components, a Spawned event, and the closing call with the requested mask |
| `EntityObjects.EntityManager.ReadLines` | `src/common/Entity_Manager.cpp:54-64` | component lines of a file are read in turn into the components the entity has |
| `EntityObjects.EntityManager.AddEntityFromFile` | `src/common/Entity_Manager.cpp:23-70` | an entity with the file's components and values and the file's name, or -1 and no change |
| `EntityObjects.EntityManager.Empty` | `src/common/Entity_Manager.cpp:81-86` | the record loses its components and its mask and stays in the map |
| `EntityObjects.EntityManager.RemoveEntity` | `src/common/Entity_Manager.cpp:72-90` | S_Network forgets its input, the record is emptied, every list loses the entity; false and no change for an unknown id |
| `EntityObjects.EntityManager.Purge` | `src/common/Entity_Manager.cpp:140-152` | no records, no list entries, the id counter at zero; queues and input stay |
| `EntityObjects.EntityManager.PopEvent` | `src/common/Event_Queue.h:9-16` | takes the first event off the queue, or says there is none |
| `EntityObjects.EntityManager.NotifyRemoved` | `src/server/S_Network.cpp:50-54` | the input of a removed player is forgotten |
| `EntityOutcomes.FreshIsInert` | `src/server/Server_Entity_Manager.cpp:4-14` | a component from the factory is at the origin, at rest, idle and nobody's |
| `EntityOutcomes.ReadInTakes` | `src/common/Entity_Manager.cpp:54-64` | a line of an entity file gives a component its values, each to its own field, and health starts full |
| `EntityOutcomes.EventQueued` | `src/common/System_Manager.cpp:54-56` | an event goes to the end of its entity's queue and to no other |
| `EntityOutcomes.AddEntityOutcome` | `src/common/Entity_Manager.cpp:7-21` | one record more, under the id asked for or the next, with its components and a Spawned event; nothing else is touched |
| `EntityOutcomes.SpawnOutcome` | `src/common/Entity_Manager.cpp:23-70` | from a file the same, under the file's name, with its lines read in |
| `EntityOutcomes.RemoveEntityOutcome` | `src/common/Entity_Manager.cpp:72-90` | an empty record, no place in any list, a player's input forgotten; nothing else is touched |
| `EntityOutcomes.PurgeOutcome` | `src/common/Entity_Manager.cpp:140-152` | purge leaves no record and no list entry, ids from zero, and queues and input as they were |
| `EntityOutcomes.ComponentOutcome` | `src/common/Entity_Manager.cpp:98-138` | that component comes fresh, or goes, and all others keep their values |
| `EntityOutcomes.WhoIsHeld` | `src/server/S_Combat.cpp:4-17` | whom each of the seven systems holds, by the components the entity has |
| `EcsIndex.AddComponentConsistent` | `src/common/Entity_Manager.cpp:98-112` | addComponent keeps lists and masks in step and adds exactly a factory type's bit |
| `EcsIndex.RemoveComponentConsistent` | `src/common/Entity_Manager.cpp:121-138` | removeComponent keeps lists and masks in step and clears exactly that bit |
| `EcsIndex.AddEntityIndexed` | `src/common/Entity_Manager.cpp:7-21` | addEntity keeps the index if and only if the requested mask fits every system like the mask it built |
| `EcsIndex.AddEntityConsistent` | `src/common/Entity_Manager.cpp:7-21` | it does for any mask when systems ask for factory types only, and for any systems when the mask does; the new mask is the requested one within the factory |
| `EcsIndex.RequestedMaskCanBreakIndex` | `src/common/Entity_Manager.cpp:18` | a system over a type outside the factory lists an entity whose mask does not fit it |
| `EcsIndex.RemoveEntityIndexed` | `src/common/Entity_Manager.cpp:72-90` | removeEntity keeps the index if and only if no system has a zero requirement |
| `EcsIndex.PurgeConsistent` | `src/common/Entity_Manager.cpp:140-152` | purge keeps lists and masks in step |
| `EcsIndex.SpawnConsistent` | `src/common/Entity_Manager.cpp:23-70` | so does loading an entity from a file |
| `EcsIndex.DereferenceSafe` | `src/server/S_Combat.cpp:31-32` | an entity a server system holds has every component the system dereferences unchecked |
| `EcsIndex.HeldWhenEquipped` | `src/common/System_Manager.cpp:34-46` | conversely a system holds every entity whose mask includes one of its requirements |
| `EcsIndex.ServerTable` | `src/server/S_Timers.cpp:4-14` | the masks the seven systems register are non-empty and within the factory |
| `Machine.IndexInEveryRun` | `src/common/System_Manager.cpp:34-62` | in every run of any steps, each list is a duplicate-free index over the masks and each mask matches its components |
| `Machine.HeldExactlyWhenEquipped` | `src/common/S_Base.cpp:9-34` | after any run an entity is in a system's list, once, if and only if its mask includes one of the system's requirements |
| `Machine.RuleFramed` | `src/server/S_Combat.cpp:46-86` | no step but the entity manager's own changes a mask, which components exist, a list or the id counter |
| `Game.GameSystems.Dispatch` | `src/common/MessageHandler.h:19-23` | a message reaches its observers in either order with the same effect, and the re-entrant dispatch ends |
| `Game.GameSystems.Notify` | `src/common/Communicator.h:35-39` | each observer's answer to a message it subscribed to |
| `Game.GameSystems.NotifyMove` | `src/common/S_State.cpp:46-64` | Move queues the moving event and walks, unless attacking or dying |
| `Game.GameSystems.NotifyAttack` | `src/common/S_State.cpp:65-74` | Attack queues Began_Attacking and attacks, unless attacking or dying |
| `Game.GameSystems.NotifyHurt` | `src/common/S_State.cpp:75-83` | Hurt switches to the hurt state, unless dying |
| `Game.GameSystems.SwitchTo` | `src/common/S_State.cpp:91-104` | changeState with its Switch_State broadcast sets the state once, and not at all when it is set or, unforced, when dying |
| `Game.GameSystems.NotifyMovement` | `src/server/S_Movement.cpp:48-62` | Is_Moving queues Became_Idle exactly when a held entity has zero velocity |
| `Game.GameSystems.NotifyNetwork` | `src/server/S_Network.cpp:50-70` | Respawn puts a player at the spawn point on elevation 1; Hurt changes nothing and broadcasts the packet of a held receiver |
| `Game.GameSystems.CanLand` | `src/server/S_Combat.cpp:47-60` | the checks pass exactly when a hit may land, and then state and velocity of the victim are there |
| `Game.GameSystems.Bleed` | `src/server/S_Combat.cpp:62-63` | one point of health and the attack flag, and nothing else |
| `Game.GameSystems.HurtVictim` | `src/server/S_Combat.cpp:62-70` | the wound, the flag, and death at zero health or Hurt above it |
| `Game.GameSystems.PushVictim` | `src/server/S_Combat.cpp:72-82` | the victim's velocity becomes the knockback the way the attacker faces |
| `Game.GameSystems.NotifyCombat` | `src/server/S_Combat.cpp:46-86` | Being_Attacked does all of that or nothing |
| `Game.ConsistentIsEquipped` | `src/server/S_Movement.cpp:20-25` | while lists and masks are in step, whatever a system holds has what the system dereferences |
| `GameLoop.StepVelocity` | `src/server/S_Movement.cpp:82-93` | acceleration, friction and clamp of movementStep; whatever the old velocity the new one is within the maximum |
| `GameLoop.Loop.MotionTurn` | `src/server/S_Movement.cpp:20-25` | one entity moves by its new velocity, with the friction of the tile below it |
| `GameLoop.TurnDisplaces` | `src/server/S_Movement.cpp:18-26` | a turn displaces an entity by at most the size of its maximal velocity in Euclidean norm, by exactly that when clamped |
| `GameLoop.Loop.MovementUpdate` | `src/server/S_Movement.cpp:18-26` | every held entity moves, in list order |
| `GameLoop.Loop.HealthTimer` | `src/server/S_Timers.cpp:24-40` | the hurt and dying timer: wait, or reset, heal, respawn and go idle |
| `GameLoop.Loop.AttackTimer` | `src/server/S_Timers.cpp:41-50` | the attack timer: wait, or reset, clear the flag and go idle |
| `GameLoop.Loop.TimersUpdate` | `src/server/S_Timers.cpp:18-52` | every held entity's timer runs once, in list order, and the attacker component of whoever attacks is there |
| `GameLoop.Loop.InputTurn` | `src/server/S_Network.cpp:19-45` | one player's input becomes its Move and Attack messages |
| `GameLoop.Loop.NetworkUpdate` | `src/server/S_Network.cpp:18-46` | every player's input in list order |
| `GameLoop.Loop.StateUpdate` | `src/common/S_State.cpp:18-28` | every walking entity is asked whether it moves |
| `GameLoop.Loop.AreaTurn` | `src/server/S_Combat.cpp:26-40` | the area of attack is centred on the attacker, shifted half its size the way it faces |
| `GameLoop.Loop.CombatUpdate` | `src/server/S_Combat.cpp:22-42` | every attacker's area in list order |
| `GameLoop.Loop.MapTurn` | `src/server/S_Collision.cpp:23-30` | flags cleared, position confined, map collisions resolved largest first, one event for each |
| `GameLoop.CollisionStopsAxis` | `src/server/S_Collision.cpp:139-161` | the event a resolved tile queues stops exactly the axis the entity was moved on |
| `Answers.WalkCheckOutcome` | `src/common/S_State.cpp:18-28` | exactly those who walk and stand still are told Became_Idle |
| `Answers.AreaOutcome` | `src/server/S_Combat.cpp:26-40` | the centre of the area of attack lies offset and half its size ahead of the attacker |
| `Answers.EventMotion` | `src/server/S_Movement.cpp:28-46` | an event stops the axis that collided, turns the entity, or accelerates it, by the system |
| `Answers.EventOutcome` | `src/common/S_State.cpp:30-37` | and makes it idle unless it is dying; nothing else changes, and no one else |
| `Answers.ChangeOutcome` | `src/common/S_State.cpp:91-104` | changeState sets the state unless the entity is dying and it is not forced |
| `GameLoop.Loop.PairAttack` | `src/server/S_Collision.cpp:51-69` | one direction of a pair: one strike is logged if the area of attack overlaps the box, and else none |
| `GameLoop.Loop.EntityCollisions` | `src/server/S_Collision.cpp:34-72` | world and log after the nested loops are those of the strikes of all reported pairs, each made once |
| `EventLoop.EventHandling.HandleMovement` | `src/server/S_Movement.cpp:28-46` | S_Movement's answer to each event |
| `EventLoop.EventHandling.HandleControl` | `src/common/C_Control.cpp:19-33` | S_Control's answer to each event |
| `EventLoop.EventHandling.HandleState` | `src/common/S_State.cpp:30-37` | S_State's answer to each event |
| `EventLoop.EventHandling.HandOut` | `src/common/System_Manager.cpp:25-29` | one event reaches each system that holds the entity, and the log says once each |
| `EventLoop.EventHandling.DrainQueue` | `src/common/System_Manager.cpp:23-30` | popping and handing out until the queue is empty makes and logs exactly the deliveries of the queue |
| `EventLoop.EventHandling.HandleEvents` | `src/common/System_Manager.cpp:21-32` | handleEvents ends, and makes and logs exactly the deliveries of all queues, in some order of the queues |
| `Drain.EachEventOnceInOrder` | `src/common/System_Manager.cpp:21-32` | in those deliveries each system that holds an entity receives the entity's events once each in queue order, no other system any |
| `Journal.EachEventLoggedOnce` | `src/common/System_Manager.cpp:21-32` | what handleEvents logs hands each system the queued events of each entity it holds, once each in order, and nothing else |
| `Machine.LogFollowsRun` | `src/common/MessageHandler.h:19-23` | the log of a run is the strikes, timer turns and deliveries of its steps, each once and in order |
| `Journal.TimingsLogged` | `src/server/S_Timers.cpp:18-24` | the time S_Timers ran for an entity can be read off the log of any run |
| `Drain.QueuesEmptied` | `src/common/System_Manager.cpp:21-32` | every queue visited is empty afterwards and the others are as they were |
| `Drain.HandlersKeepQueues` | `src/server/S_Movement.cpp:28-46` | no handler queues an event or changes a list |
| `GameTick.Simulation.CollisionUpdate` | `src/server/S_Collision.cpp:19-32` | the map turns of all held entities, then the pass over the pairs |
| `GameTick.Simulation.UpdateSystems` | `src/common/System_Manager.cpp:15-17` | every system's update once, in the iteration order of the systems |
| `GameTick.Simulation.Update` | `src/common/System_Manager.cpp:14-19` | an update is the systems' turns and then the deliveries of the events they left; index and lives stay in order |
| `GameTick.UpdateIsFullTick` | `src/common/System_Manager.cpp:14-32` | in any order of systems and queues an update moves and checks every walking entity and hands over its Became_Idle |
| `OneUpdate.UpdateCounts` | `src/common/System_Manager.cpp:14-19` | one update runs the timer of each entity S_Timers holds exactly once, for the frame time, and moves each one S_Movement holds exactly once |
| `ManyUpdates.FramesCounted` | `src/common/System_Manager.cpp:14-32` | any number of updates is one run with as many timer turns and moves of each held entity as updates, and all of the time |
| `Lifecycle.LifecycleInEveryRun` | `src/server/S_Combat.cpp:62-70` | at every step of every run: 0 <= health <= maximal health, and health is zero exactly while dying |
| `Damage.ChargeKept` | `src/server/S_Combat.cpp:60-63` | only a hit and a timer turn of an attacker change its flag and timer, and a hit raises the flag |
| `Damage.HitsAccounted` | `src/server/S_Timers.cpp:41-50` | in any stretch of a run: hits landed, and the flag if it was up, are the timer turns that lowered it, and the flag if it is up |
| `Damage.DamageRate` | `src/server/S_Timers.cpp:41-47` | so hits landed * attackDuration <= time S_Timers ran for the attacker + attackDuration + what its timer stood at |
| `ManyUpdates.DamageOverUpdates` | `src/server/S_Timers.cpp:18-50` | the same over any number of updates, with the time simulated |
| `ManyUpdates.TimedExactlyWithHealth` | `src/server/S_Timers.cpp:4-14` | each update runs the timer of an entity with State and Health once, and of no other entity |
| `ManyUpdates.AttackerWithoutHealth` | `src/server/S_Timers.cpp:10-13` | the flag of an attacker without Health is never lowered: it hits at most once in any number of updates |
| `Lifecycle.TimersDereferenceSafe` | `src/server/S_Timers.cpp:41-43` | whatever S_Timers finds attacking has an attacker component |
| `Lifecycle.StrikeFine` | `src/server/S_Combat.cpp:53-84` | a strike keeps health, states, flags and accounts in order, also when attacker and victim are one |
| `Wounds.LandsExactly` | `src/server/S_Combat.cpp:47-60` | a hit lands exactly if S_Combat holds both, the victim has health, and the attacker has not hit in this attack yet |
| `Wounds.HitTakesOnePoint` | `src/server/S_Combat.cpp:62` | it takes exactly one point, down to zero, and leaves durations and timer alone |
| `Wounds.HitState` | `src/server/S_Combat.cpp:64-70` | the victim is dying with its last point, and otherwise hurt, unless it is dying already |
| `Wounds.HitKnocksBack` | `src/server/S_Combat.cpp:72-82` | its velocity becomes the attacker's knockback, the way the attacker faces |
| `Wounds.HitTouchesOnly` | `src/server/S_Combat.cpp:46-86` | the attacker's flag goes up, nothing else changes, and a hit that does not land touches no one |
| `Survival.PointsPaidInHits` | `src/server/S_Combat.cpp:62` | in any run: while fewer hits have landed on it than it had points, a living entity has lost exactly one point for each |
| `Survival.DiesWithItsPoints` | `src/server/S_Combat.cpp:62-65` | the hit that takes the last of its points kills it, and none before |
| `Survival.KilledWhileHurt` | `src/server/S_Combat.cpp:62-65` | killed while hurt, an entity is dead for the rest of deathDuration only |
| `ManyUpdates.PointsOverUpdates` | `src/server/S_Combat.cpp:62-65` | the same over any number of updates |
| `Death.DyingIgnores` | `src/common/S_State.cpp:91-96` | no message, event or hit changes a dying entity's state or timer |
| `Death.DeathIsStable` | `src/server/S_Timers.cpp:24-30` | an entity stays dying, with its timer at the time run, until deathDuration has passed |
| `Death.DeathEnds` | `src/server/S_Timers.cpp:32-50` | at the first timer update that reaches deathDuration it is idle with full health |
| `Death.DeathIsBounded` | `src/server/S_Timers.cpp:24-50` | with ticks of at least a millisecond max(1, deathDuration) timer updates are enough |
| `ManyUpdates.DeathOverUpdates` | `src/server/S_Timers.cpp:24-50` | over any number of updates: dying while the time simulated has not reached deathDuration, back with full health as soon as it has |
| `ManyUpdates.DeathEndsWithinUpdates` | `src/server/S_Timers.cpp:24-50` | max(1, deathDuration) updates of at least a millisecond are enough |
| `Recovery.HurtTurn` | `src/server/S_Timers.cpp:24-50` | hurt: the timer runs, and at hurtDuration it starts over and the entity is idle with the same health |
| `Recovery.DyingTurn` | `src/server/S_Timers.cpp:24-50` | dying: at deathDuration it has all its health and is idle, a player at (64, 64) on elevation 1 |
| `Recovery.AttackTurn` | `src/server/S_Timers.cpp:41-50` | attacking: at attackDuration the timer starts over, the flag is down and the entity idle |
| `Recovery.NoTurn` | `src/server/S_Timers.cpp:24-50` | a timer turn does nothing in any other state, and nothing to anyone else |
| `Recovery.WaitIsStable` | `src/server/S_Timers.cpp:24-50` | left alone, being hurt and attacking go on in any run while the time run has not reached the duration |
| `Recovery.WaitEnds` | `src/server/S_Timers.cpp:24-50` | and end with the first turn that reaches it |
| `ManyUpdates.WaitOverUpdates` | `src/server/S_Timers.cpp:24-50` | the same over any number of updates, with the time simulated |
| `Strikes.EachPairReportedOnce` | `src/server/S_Collision.cpp:37-71` | the messages of a pass name each ordered pair whose sender reaches the receiver exactly once, and no other |
| `Strikes.RowOrder` | `src/server/S_Collision.cpp:37-71` | in each row the entity meets the later ones in turn, and its own attack comes first |
| `Journal.EachPairLoggedOnce` | `src/server/S_Collision.cpp:34-72` | what a pass logs: one strike for each such pair, and none for any other |
| `Strikes.StrikeKeepsGround` | `src/server/S_Combat.cpp:53-84` | a strike moves no area and no box, and changes no list |
| `Strikes.HitsOnce` | `src/server/S_Combat.cpp:60-63` | an attacker hits once if its flag was clear and someone reported is eligible, and otherwise not at all |
| `Strikes.HealthPaidInFlags` | `src/server/S_Combat.cpp:62-63` | the health lost is at most the number of flags that go up |
| `Strikes.PassOutcome` | `src/server/S_Collision.cpp:34-72` | both for a whole pass, with exactly which attackers spend their flag |
| `GameTick.TileFrictionIsQuiet` | `src/server/S_Movement.cpp:77-84` | tiles of bounded friction give every move the least friction the settling theorems ask for |
| `Motion.FrictionOnlySlows` | `src/common/C_Movable.h:33-49` | non-negative friction takes the smaller of the two sizes off an axis and never reverses it |
| `Motion.NegativeFrictionSpeedsUp` | `src/common/C_Movable.h:33-49` | friction speeds an axis up if and only if it is negative and the axis at least that fast, and then by its size |
| `Motion.AddVelocityAdds` | `src/common/C_Movable.h:51-61` | an axis is exactly the sum while that is within the limit, and otherwise at the limit on its side |
| `Motion.ApplyFrictionSlows` | `src/common/C_Movable.h:33-49` | each axis loses its own friction, down to rest |
| `Motion.ClampKeepsCourse` | `src/server/S_Movement.cpp:88-93` | the clamp keeps signs and ratio of the axes |
| `Motion.StepFromRest` | `src/server/S_Movement.cpp:78-94` | a step from rest moves each axis to the side of its push if and only if push and limit are more than friction, pushed along one axis by exactly what is left |
| `Motion.LimitedIsBounded` | `src/common/C_Movable.h:51-61` | the exact size of an axis after addVelocity, for a limit of either sign, and when it is turned around |
| `Motion.StepBounded` | `src/server/S_Movement.cpp:76-94` | the velocity movementStep leaves is within the size of the maximal velocity, and on it when clamped |
| `Motion.StepSlows` | `src/server/S_Movement.cpp:82-93` | a step without push takes at least the least friction off each axis or stops it, if the maximal velocity is not negative |
| `Motion.NegativeLimitNeverSlows` | `src/server/S_Movement.cpp:82-93` | if it is negative, the step ends at its full size, or at rest if and only if friction takes all of it on each axis that moves |
| `Rules.FacingAgrees` | `src/common/C_Movable.h:66-76` | a Move message, the acceleration and facing it leads to, knockback and area of attack all point the same way |
| `Steering.InputOutcome` | `src/server/S_Network.cpp:19-45` | a free player's input becomes exactly the events for right or left, down or up, and attack, in that order, and the state of the last |
| `Steering.InputIgnored` | `src/server/S_Network.cpp:19-45` | whoever attacks, dies or is not held ignores it |
| `Steering.InputDrives` | `src/common/C_Control.cpp:19-33` | handed out in any order of the systems, the input is acceleration by speed along each axis, by its sign |
| `Steering.MotionOutcome` | `src/server/S_Movement.cpp:18-26` | a turn displaces the entity by the velocity it comes out with, remembers the old place, and uses the acceleration up |
| `Steering.GoesWhereAccelerated` | `src/server/S_Movement.cpp:78-94` | from rest it goes the way it is accelerated if and only if acceleration and maximal velocity are more than friction takes |
| `Steering.PlayerGoesItsWay` | `src/server/S_Network.cpp:19-45` | from the input through the events to the next turn: a player at rest goes the way it asks for along each axis, exactly if it overcomes friction |
| `Settling.ComesToRest` | `src/server/S_Movement.cpp:76-94` | with friction at least f and k * f at least the maximal velocity, k + 1 quiet moves bring velocity to exactly zero |
| `Settling.WalkingSettles` | `src/common/S_State.cpp:18-37` | k + 2 quiet ticks leave a walking entity idle and at rest, for any order of systems |
| `ManyUpdates.SettlesOverUpdates` | `src/common/System_Manager.cpp:14-32` | so do k + 2 updates of the systems, whatever the order of systems and queues in each |
| `Tiles.ConvertInjective` | `src/server/Map.cpp:127-129` | coordinates in range have different codes while 4 * width * height <= 2^32 |
| `Tiles.ConvertCollides` | `src/server/Map.cpp:127-129` | on any larger map some tile has the code of the first |
| `Tiles.GetTileInRange` | `src/server/Map.cpp:9-17` | a negative int passed as unsigned never finds a tile |
| `MapRecords.FirstCodedWins` | `src/server/Map.cpp:40-73` | after any lines in any order, SIZE lines included, each cell shows the first accepted record with the code of the cell |
| `MapRecords.TileOfRecord` | `src/server/Map.cpp:59-73` | its tile has the properties of its id, solid and warping as the record says |
| `MapRecords.OwnRecordWins` | `src/server/Map.cpp:54-67` | that is its own first record if and only if no record of another place with its code comes before |
| `MapRecords.OwnRecordWinsExactly` | `src/server/Map.cpp:54-67` | without SIZE lines: if and only if no border record with its code comes before |
| `MapRecords.FirstRecordWins` | `src/server/Map.cpp:40-73` | so without SIZE lines and accepted border records each cell shows its first record |
| `MapRecords.BorderRecordAliases` | `src/server/Map.cpp:54-67` | a border record shows in exactly the cells with its code that were empty; there is one if and only if the code is below 4 * width * height |
| `MapRecords.BorderNeighbours` | `src/server/Map.cpp:54` | the right border lands in the next row, the lower one in the next layer, the end of a layer at the start of the next |
| `Tiles.RangesCover` | `src/server/S_Collision.cpp:103-109` | the floor ranges hold every cell the box is over if and only if the loop guards hold at the start or the box is empty |
| `Tiles.RangesCoverMap` | `src/server/S_Collision.cpp:108-124` | the cells open ranges find are those a scan of the whole map finds |
| `Tiles.CornerOverlooked` | `src/server/S_Collision.cpp:103-109` | otherwise: a map with a solid tile that a full scan finds, while the loops come to no cell |
| `Tiles.OverlooksExactly` | `src/server/S_Collision.cpp:103-124` | some map has a tile the scan overlooks if and only if the ranges are not open and the box is over a cell a map can have |
| `Geometry.OverlapIsPositive` | `src/server/S_Collision.cpp:115-119` | the overlap area is never negative, and zero exactly without overlap |
| `MapObjects.GameMap.LoadMap` | `src/server/Map.cpp:33-90` | the lines are taken in turn |
| `MapObjects.GameMap.GetTile` | `src/server/Map.cpp:9-17` | the tile at the converted coordinates, or none out of range |
| `MapObjects.GameMap.GetTileFriction` | `src/server/S_Movement.cpp:64-74` | the descending loop |
| `MapObjects.FrictionIsOfHighestTile` | `src/server/S_Movement.cpp:64-74` | friction is that of the highest tile at or below the elevation |
| `MapObjects.NoTileNoFriction` | `src/server/S_Movement.cpp:73` | without any tile it is zero |
| `MapObjects.GameMap.ScanLayers` | `src/server/S_Collision.cpp:110-122` | at most one element for a cell, from its lowest solid layer |
| `MapObjects.GameMap.Scan` | `src/server/S_Collision.cpp:102-124` | the bounded scan lists exactly the elements of a scan of the whole map, each cell once, with exact overlaps |
| `MapObjects.RangeScanIsFullScan` | `src/server/S_Collision.cpp:102-124` | with open ranges, what lies in the loop bounds is what a scan of the whole map finds |
| `MapObjects.BoxFollows` | `src/common/C_Collidable.h:42-60` | the box has the offset position as its corner or its centre, and its size |
| `MapObjects.SortByArea` | `src/server/S_Collision.cpp:127-129` | the same elements by descending area |
| `MapObjects.GameMap.CheckOutOfBounds` | `src/server/S_Collision.cpp:76-94` | the position is confined on both axes and the box follows |
| `MapObjects.BoundedIsOnMap` | `src/server/S_Collision.cpp:76-94` | the entity ends on the map, unchanged if it was there, its box in step if it was or if it moved |
| `MapObjects.ResolveClears` | `src/server/S_Collision.cpp:131-162` | resolving a tile from a synchronised box moves on the reported axis only, and leaves an overlap if and only if the size along it is negative and the box is over the tile on the other axis |
| `Obstacles.PushedOutOnItsSide` | `src/server/S_Collision.cpp:131-162` | it is pushed out on the axis its centre is further off, to the side its centre is on, and the flag of that axis is set |
| `Obstacles.PassOutcome` | `src/server/S_Collision.cpp:126-163` | after a pass the flags are those of the events, the box keeps size and step, and without collisions nothing moves |
| `Obstacles.CellCollides` | `src/server/S_Collision.cpp:108-124` | a cell collides exactly if it has a solid tile under the box, with the lowest one and the size of the overlap |
| `Obstacles.LargestFirst` | `src/server/S_Collision.cpp:126-129` | no cell the scan comes to has a larger overlap than the first resolved, nor any later one than an earlier |
| `Obstacles.MapTurnOutcome` | `src/server/S_Collision.cpp:19-30` | a map turn leaves the box in step, its flags those of its events, whatever they were before |
| `Obstacles.OverlapIsCommon` | `src/server/S_Collision.cpp:116-118` | the overlap of two rectangles is exactly the points inside both |
| `Obstacles.ReachesAPoint` | `src/server/S_Collision.cpp:51-69` | an attack reaches exactly if some point is inside the area of attack and the box |
| `Obstacles.BoundedIsNearest` | `src/server/S_Collision.cpp:76-94` | out of bounds an entity comes to the nearest place on the map |
| `Obstacles.FrictionOfItsCell` | `src/server/S_Movement.cpp:65-74` | the friction under an entity is that of the highest tile at or below its elevation in its own cell |
| `MapObjects.GameMap.MapCollisions` | `src/server/S_Collision.cpp:96-163` | the collisions of the box, largest first, each resolved in turn with its event |
| `ServerObjects.Server.StartUp` | `src/server/Server.cpp:17-35` | a stopped server starts, with ids from zero, exactly if port, listener and database are available, and else nothing changes |
| `ServerObjects.Server.ShutDown` | `src/server/Server.cpp:37-56` | a running server stops with both maps empty |
| `ServerObjects.Server.Clear` | `src/server/Server.cpp:58-66` | both maps are empty, ids go on |
| `ServerObjects.Server.RollOver` | `src/server/Server.cpp:291-294` | every last contact is moved to its distance from the end of the clock |
| `ServerObjects.Server.Sweep` | `src/server/Server.cpp:298-329` | in any iteration order: exactly the expired clients leave, each reported once; exactly the due ones are marked and sent one heartbeat |
| `ServerObjects.Server.Update` | `src/server/Server.cpp:285-330` | clock, rollover and sweep |
| `ServerObjects.Server.GetClientId` | `src/server/Server.cpp:353-363` | the id of the client at an endpoint, or -1 |
| `ServerObjects.Server.AddClient` | `src/server/Server.cpp:336-351` | a new client under the next id, or -1 and no change for a known endpoint |
| `ServerObjects.Server.RemoveClient` | `src/server/Server.cpp:387-400` | exactly that client leaves the map |
| `ServerObjects.Server.RemoveClientAt` | `src/server/Server.cpp:402-416` | exactly the client at that endpoint leaves the map |
| `ServerObjects.Server.Address` | `src/server/Server.cpp:93-117` | send by endpoint finds the socket it dereferences unchecked |
| `ServerObjects.Server.ReceiveUdpHeartbeat` | `src/server/Server.cpp:259-276` | an answer counts only for a waiting client at that endpoint |
| `ServerObjects.Server.ReceiveTcpHeartbeat` | `src/server/Server.cpp:192-200` | the same by socket |
| `ServerObjects.Server.AcceptConnection` | `src/server/Server.cpp:156-164` | the socket is stored under what addClient returned, also under -1 |
| `ServerObjects.Server.CloseConnections` | `src/server/Server.cpp:169-213` | disconnected sockets and their clients leave both maps, stale sockets stay |
| `Registry.SoundInEveryRun` | `src/server/Server.cpp:336-363` | in every run endpoints are distinct, ids below the next id, exactly TCP clients have sockets, (waiting, retry) is (false, 0) or (true, 1) |
| `Registry.HeartbeatRound` | `src/server/Server.cpp:297-329` | one update evicts exactly the clients silent for 10000 ms and sends to exactly the others not waiting and silent for 1000 ms |
| `Registry.EndpointFindsClient` | `src/server/Server.cpp:353-363` | whatever the iteration order, a stored endpoint finds its client |
| `Registry.NewIdIsFresh` | `src/server/Server.cpp:346-349` | an id is never handed out twice while the server runs |
| `ServerSteps.UpdateOutcome` | `src/server/Server.cpp:285-330` | an update moves the clock; whoever it keeps changes by a rollover and by the heartbeat it is sent, and in nothing else |
| `ServerSteps.AnswerOutcome` | `src/server/Server.cpp:259-276` | an answer makes a waiting client heard from now, with its ping, and touches no one else |
| `ServerSteps.JoinOutcome` | `src/server/Server.cpp:336-351` | a newcomer is heard from now and has nothing to answer; nobody else notices |
| `ServerSteps.LeaveOutcome` | `src/server/Server.cpp:387-400` | leaving, lost connections and clearing take exactly the clients meant |
| `ServerSteps.AcceptOutcome` | `src/server/Server.cpp:156-164` | a connection joins as a TCP client with its socket |
| `ServerSteps.StartStopOutcome` | `src/server/Server.cpp:17-56` | starting lets ids begin at zero and keeps the clock, stopping takes everyone |
| `Rollover.ReportedAtRollover` | `src/server/Server.cpp:287-299` | at a rollover reported silence is true silence less twice the distance of the last contact from the end of the clock |
| `Rollover.NeverEarly` | `src/server/Server.cpp:299-302` | whoever an update evicts has truly been silent for the timeout |
| `Rollover.WatchedIsRun` | `src/server/Server.cpp:285-330` | the watch with the true clock follows the server through its own steps |
| `Rollover.RolloverBound` | `src/server/Server.cpp:287-304` | in every run of the server with bounded ticks and any number of rollovers: no early eviction, none kept longer than the timeout plus twice timeout and tick, all differences 32-bit |
| `ClientSide.Client.Connect` | `src/client/Client.cpp:12-72` | connect succeeds exactly if the client was not connected, its packet went out and the reply came; then its last contact is its clock |
| `ClientSide.Client.Disconnect` | `src/client/Client.cpp:74-87` | true exactly if it was connected |
| `ClientSide.Client.Update` | `src/client/Client.cpp:227-242` | clock, rollover, and disconnection after more than 10000 ms of silence |
| `ClientSide.Client.ReceiveHeartbeat` | `src/client/Client.cpp:139-147` | a heartbeat is answered and sets clock and last contact to the server's time |
| `ServerSteps.ClientGivesUpExactly` | `src/client/Client.cpp:227-242` | the client gives up exactly after more than 10000 ms of silence, and takes over the time it hears |
| `ServerSteps.ClientConnects` | `src/client/Client.cpp:46-52` | connecting takes its clock for the last contact; before that nothing reaches it |
| `Session.NeverTimesOut` | `src/server/Server.cpp:285-330` | if 1000 + 2 * tick + 2 * delay < 10000, in every loss-free run from any state without a missed heartbeat the server keeps the client and the client the server, whatever other clients do |
| `Handshake.GreetingConnects` | `src/client/Client.cpp:31-51` | if the reply to the Connect arrives before the first heartbeat is due, or before the heartbeat does, that is such a state |
| `Handshake.ConnectedNeverTimesOut` | `src/client/Client.cpp:12-52` | from addClient on: if tick + delay < 1000, in every loss-free run neither side gives the other up |
| `Handshake.LostForever` | `src/client/Client.cpp:44` | once the first heartbeat comes before the reply, no other is ever sent and the server gives the client up within an update of the timeout |
| `Handshake.LostExactly` | `src/client/Client.cpp:30-51` | a run loses the session if and only if a heartbeat arrives before the reply |
| `Handshake.LateAnswer` | `src/client/Client.cpp:44` | a run in which it does, for any tick and delay with tick >= 1 and tick + delay >= 1000 |
| `Handshake.OvertakingExactly` | `src/server/Server.cpp:297-313` | such a run exists if and only if tick >= 1 and tick + delay >= 1000 |
| `Session.Silences` | `src/client/Client.cpp:237-241` | how long each side can have been without the other |
| `WorldObjects.GameWorld.GetEntityId` | `src/server/S_Network.cpp:82-88` | the first held entity with that client id, or -1 |
| `WorldObjects.GameWorld.GetClientId` | `src/server/S_Network.cpp:90-93` | the client id of a held entity, or -1 |
| `WorldObjects.GameWorld.UpdatePlayer` | `src/server/S_Network.cpp:106-139` | the parts of the packet up to the first without delimiter set the player's input |
| `WorldObjects.GameWorld.RegisterClientId` | `src/server/S_Network.cpp:74-80` | sets the client id of a held entity |
| `WorldObjects.GameWorld.ClientLeave` | `src/server/World.cpp:100-104` | removes the entity getEntityId finds |
| `WorldObjects.GameWorld.Welcome` | `src/server/World.cpp:64-97` | a Connect from an unknown endpoint makes a client and its player, named and placed, as far as each step succeeds, and the reply says so |
| `WorldObjects.GameWorld.HandlePacket` | `src/server/World.cpp:52-98` | the branches of handlePacket, and what is sent back |
| `WorldObjects.GameWorld.UpdateServer` | `src/server/World.cpp:31` | the timed out clients leave, each once, and their players with them |
| `WorldObjects.GameWorld.DisconnectEveryone` | `src/server/World.cpp:119-123` | no clients, no sockets, no entities |
| `Link.LinkInEveryRun` | `src/server/World.cpp:52-104` | across packets, timeouts, ticks, connections and disconnections: players hold distinct ids of known UDP clients |
| `Link.PlayersAndClients` | `src/server/S_Network.cpp:82-93` | in every run getEntityId(getClientID(e)) is e, and no other player has its client id |
| `Link.LookupsInvert` | `src/server/S_Network.cpp:82-93` | the same from the invariant alone |
| `Link.LeaveRemovesOnly` | `src/server/World.cpp:100-104` | clientLeave removes that client's player and no other entity, and nothing when there is none |
| `Link.PassLinked` | `src/server/Server.cpp:301-304` | when clients time out their players leave with them |
| `Link.ConnectLinks` | `src/server/World.cpp:64-91` | a successful Connect links endpoint, client and player, and is answered with the player and its place |
| `Link.DisconnectedCannotReturn` | `src/server/World.cpp:55-57` | after a Disconnect packet the client stays, so Connect from its endpoint is ignored |
| `Visits.UpdateOutcome` | `src/server/S_Network.cpp:106-139` | a Player_Update sets the input of the client's own player to the last move it says, attacking exactly if it says so |
| `Visits.WelcomedOutcome` | `src/server/World.cpp:78-84` | a newcomer gets the client id, the place (64, 64) on its elevation, and the name |
| `Visits.WelcomeTouchesOnly` | `src/server/World.cpp:64-91` | no other entity and no other client changes |
| `Visits.PacketIgnored` | `src/server/World.cpp:52-66` | packets other than a newcomer's Connect and a client's Disconnect and Player_Update change nothing |
| `ServerLife.HealthyInEveryRun` | `src/server/World.cpp:24-123` | in every run of packets, timeouts, ticks and disconnections: links, index and lives are in order |
| `ServerLife.WelcomeLiving` | `src/server/World.cpp:64-91` | a player who joins from a sound file keeps the lives in order |
| `WorldTick.UpdateIsRun` | `src/server/World.cpp:24-34` | World::update is such a run: the timeouts, then the steps of one frame |
| `WorldTick.ServerStaysHealthy` | `src/server/World.cpp:3-123` | so a server is healthy in every run from its start on |
| `WorldTick.ServerLoop.Update` | `src/server/World.cpp:24-34` | timeouts, then the systems; links, index and lives are kept, and nothing happens on a stopped server |
| `WorldTick.ServerLoop.Receive` | `src/server/World.cpp:52-98` | a packet keeps them too, and is answered as handlePacket does |
| `WorldTick.ServerLoop.DisconnectEveryone` | `src/server/World.cpp:119-123` | so does disconnectall |
| `WorldTick.FreshServerIsHealthy` | `src/server/World.cpp:3-20` | a server that has just started and loaded a map, with whatever sound entities, satisfies every invariant |
| `MapEntities.ReadEntities` | `src/server/Map.cpp:78-86` | the ENTITY lines of a map each make an entity and put it in its place |
| `Visits.PlacedOutcome` | `src/server/Map.cpp:85-86` | an entity of the map stands where its line says and is otherwise as its file makes it |
| `MapEntities.EntitiesHealthy` | `src/server/Map.cpp:78-86` | they keep links and lives in order |
| `PacketObjects.Packet.PutSnapshot` | `src/common/EntitySnapshot.cpp:3-7` | the twelve values in order |
| `PacketObjects.Packet.GetSnapshot` | `src/common/EntitySnapshot.cpp:9-13` | succeeds exactly when a snapshot comes next, and takes it off the packet |
| `PacketObjects.TakeSnapshot` | `src/server/Server_Entity_Manager.cpp:22-53` | the values of the components whose bits are set, each of which is there (SnapshotShows says which goes where) |
| `PacketObjects.DumpEntityInfo` | `src/server/Server_Entity_Manager.cpp:18-57` | one record for each entity, in some order |
| `PacketObjects.CreateSnapshot` | `src/server/S_Network.cpp:95-104` | stamp, count and records; the packet reads back as one record for each entity that shows its values |
| `Snapshot.PackRoundTrip` | `src/common/EntitySnapshot.cpp:3-13` | unpacking gives back the records and uses up the packet |
| `Snapshot.UnpackRoundTrip` | `src/common/EntitySnapshot.cpp:9-13` | only what was packed can be unpacked |
| `Snapshot.SnapshotRoundTrip` | `src/server/S_Network.cpp:95-104` | for any entities in any order: one record for each, under its id, that shows all its values, and nothing left over |
| `Snapshot.SnapshotShows` | `src/server/Server_Entity_Manager.cpp:22-53` | kind, name, place, elevation, velocity, acceleration, direction and state as stored, health modulo 256, and absent ones as they were |
| `Snapshot.WireOrder` | `src/common/EntitySnapshot.cpp:3-7` | the place of each value on the wire |
| `Snapshot.Stamped` | `src/server/S_Network.cpp:98-99` | a snapshot packet starts with its type and the number of records |
| `Snapshot.CodesDistinct` | `src/server/Server_Entity_Manager.cpp:37-42` | directions and states can be told apart by their codes |
| `Snapshot.HealthFitsByte` | `src/server/Server_Entity_Manager.cpp:47` | health arrives unchanged exactly when it fits a byte |

## Left out

- Sockets, selectors, threads, timeouts of `wait` and the mutex: only the atomic steps they protect; a send succeeds or
  fails without changing the maps.
- SQLite accounts, chat, password hashing, logging, packet byte counters and the console loop; the console's `health`
  command would break the lifecycle invariant and is excluded from its runs.
- Text parsing of entity, map and tile files: archetypes and map lines come parsed.
- Rounding: floats are reals, and `sf::Packet` is a sequence of typed values without byte layout. Conversions of
  coordinates beyond the range of an int are undefined in C++ and wrap here, and a map scan up to the largest int,
  where the C++ loops would not end, ends here.
- Widths of entity ids, client ids, the id counters and component timers: unbounded here. The clocks' milliseconds and
  the floor ranges of the map scan are 32 bits wide.
- Pointer identity of components, systems and observers: component values live in the entity's vector, and
  subscriptions are the fixed lists the constructors make, with Hurt's two observers in either order. `subscribe`,
  `unsubscribe` and `removeObserver` after construction do not occur on the server.
- `Direction_Changed`, which has no subscriber on the server.
- `Bitmask` and `EventQueue` as objects updated in place: they are values in fields that the managers reassign.
- Fields the constructors leave unset are taken as zero, except in snapshots, where they are arbitrary.
- S_Collision and S_Movement before `setMap`, and the default tile's friction, which nothing reads.
- Restarting a stopped server while entities of the last session remain; the player links are claimed while it runs.
- Motion.LimitedIsBounded: under a negative maximal velocity addVelocity and movementStep divide zero by zero at rest;
  here such an axis stays at rest.
- EntityObjects.EntityManager.AddEntityFromFile: a file without an Attributes line, for which `at(-1)` throws, is not
  modelled.
- MapObjects.GameMap.LoadMap: its ENTITY lines, which touch no tile, are MapEntities.ReadEntities.
- Handshake.OvertakingExactly: whether the client gives up its `connect` is not part of the run.
- Session.NeverTimesOut: the server's rollover is excluded, as is packet loss; the client's rollover is included. Of a
  client that has given up its server the Disconnect packet is not modelled.
- MapObjects.ResolveClears: later resolutions may undo earlier ones, so that all tiles are clear at the end is not claimed.
- Link.ConnectLinks: whether the reply can be sent, and its delivery, are not modelled.
- `World::update`'s snapshot timer and tick counter, `getClientList`, `getClientInfo` and other plain getters.
