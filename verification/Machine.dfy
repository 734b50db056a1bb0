/** Runs: sequences of the steps the server's threads and systems take, in any order. */
module Machine {
  import opened Bitmasks
  import opened Components
  import opened Ecs
  import opened EcsIndex
  import opened Frames
  import opened Rules

  datatype Action =
    // EntityManager
    | CreateEntity(bits: Bitset, id: int)
    | SpawnEntity(archetype: Archetype)
    | AttachComponent(entity: EntityId, component: ComponentType)
    | DetachComponent(entity: EntityId, component: ComponentType)
    | EraseEntity(entity: EntityId)
    | PurgeEntities
    // the packet handler: a player's input, and the name, place or client id of an entity
    | SetInput(entity: EntityId, playerInput: PlayerInput)
    | Label(entity: EntityId, value: Component)
    // one entity's turn in a system's update
    | TakeInput(entity: EntityId)
    | CheckWalk(entity: EntityId)
    | MoveBody(entity: EntityId, coefficient: Vec, dt: nat, magnitude: real)
    | ResolveMap(entity: EntityId, position: Position, box: Collidable, events: seq<EntityEvent>)
    | PlaceArea(entity: EntityId)
    | RunTimer(entity: EntityId, dt: nat)
    // one Being_Attacked message
    | Attack(sender: EntityId, receiver: EntityId)
    // handleEvents: one queue is emptied, one event reaches one system
    | TakeQueue(entity: EntityId)
    | Handle(system: System, entity: EntityId, event: EntityEvent)

  predicate IsLabel(c: Component) {
    c.APosition? || c.AName? || c.AClient?
  }

  function Labelled(w: World, e: EntityId, c: Component): World {
    if IsLabel(c) && Has(BodyOf(w, e), c.Type()) then SetBody(w, e, With(BodyOf(w, e), c)) else w
  }

  function Apply(w: World, a: Action): World {
    match a
    case CreateEntity(bits, id) => AddEntity(w, bits, id)
    case SpawnEntity(archetype) => Spawn(w, archetype)
    case AttachComponent(e, t) => AddComponent(w, e, t)
    case DetachComponent(e, t) => RemoveComponent(w, e, t)
    case EraseEntity(e) => RemoveEntity(w, e)
    case PurgeEntities => Purge(w)
    case SetInput(e, p) => w.(input := w.input[e := p])
    case Label(e, c) => Labelled(w, e, c)
    case TakeInput(e) => InputStep(w, e)
    case CheckWalk(e) => WalkCheck(w, e)
    case MoveBody(e, coefficient, dt, magnitude) => MotionStep(w, e, coefficient, dt, magnitude)
    case ResolveMap(e, p, c, events) => Resolve(w, e, p, c, events)
    case PlaceArea(e) => AreaStep(w, e)
    case RunTimer(e, dt) => TimerStep(w, e, dt)
    case Attack(s, r) => Strike(w, s, r)
    case TakeQueue(e) => w.(events := w.events[e := []])
    case Handle(s, e, event) => Deliver(w, s, e, event)
  }

  function Run(w: World, actions: seq<Action>): World {
    if actions == [] then w
    else Apply(Run(w, actions[..|actions| - 1]), actions[|actions| - 1])
  }

  lemma {:induction false} RunConcat(w: World, a: seq<Action>, b: seq<Action>)
    ensures Run(w, a + b) == Run(Run(w, a), b)
  {
    if b == [] {
      assert a + b == a;
    } else {
      assert (a + b)[..|a + b| - 1] == a + b[..|b| - 1];
      RunConcat(w, a, b[..|b| - 1]);
    }
  }

  lemma RunStep(w: World, actions: seq<Action>, a: Action)
    ensures Run(w, actions + [a]) == Apply(Run(w, actions), a)
  {
  }

  // What a run adds to the log.
  function LogOf(actions: seq<Action>): seq<Entry> {
    if actions == [] then []
    else
      LogOf(actions[..|actions| - 1]) +
      match actions[|actions| - 1]
      case Attack(s, r) => [Struck(s, r)]
      case RunTimer(e, dt) => [Timed(e, dt)]
      case Handle(s, e, event) => [Handled(s, e, event)]
      case _ => []
  }

  lemma {:induction false} AddComponentsLog(w: World, e: EntityId, bits: Bitset, n: nat)
    requires n <= N_COMPONENT_TYPES
    ensures AddComponents(w, e, bits, n).log == w.log
  {
    if n > 0 {
      AddComponentsLog(w, e, bits, n - 1);
    }
  }

  lemma SpawnLog(w: World, bits: Bitset, id: int, a: Archetype)
    ensures AddEntity(w, bits, id).log == w.log && Spawn(w, a).log == w.log
  {
    forall e: EntityId, b: Bitset, entities: Entities, counter: nat {
      AddComponentsLog(w.(entities := entities, idCounter := counter), e, b, N_COMPONENT_TYPES);
    }
  }

  lemma ApplyLog(w: World, a: Action)
    ensures Apply(w, a).log == w.log + LogOf([a])
  {
    hide Strike, InputStep, AddEntity, Spawn, QueueAll;
    assert [a][..0] == [];
    match a {
      case Attack(s, r) => StrikeQuiet(w, s, r);
      case TakeInput(e) => InputLog(w, e);
      case CreateEntity(bits, id) => SpawnLog(w, bits, id, Archetype("", {}, []));
      case SpawnEntity(archetype) => SpawnLog(w, {}, 0, archetype);
      case ResolveMap(e, p, c, events) =>
        QueueAllFramed(SetBody(w, e, BodyOf(w, e).(position := Some(p), collidable := Some(c))), e, events);
      case _ =>
    }
  }

  // The log of every run is the steps it logs, each once and in order: two runs that log the same make the same
  // strikes, timer turns and deliveries.
  lemma {:induction false} LogFollowsRun(w: World, actions: seq<Action>)
    ensures Run(w, actions).log == w.log + LogOf(actions)
  {
    if actions == [] {
      assert w.log + [] == w.log;
    } else {
      var before, last := actions[..|actions| - 1], actions[|actions| - 1];
      LogFollowsRun(w, before);
      ApplyLog(Run(w, before), last);
      assert [last][..0] == [];
    }
  }

  // How many hits e lands in a run.
  function Hits(w: World, actions: seq<Action>, e: EntityId): nat {
    if actions == [] then 0
    else
      var before, a := actions[..|actions| - 1], actions[|actions| - 1];
      Hits(w, before, e) + if a.Attack? && a.sender == e && Lands(Run(w, before), e, a.receiver) then 1 else 0
  }

  predicate IsEntityEdit(a: Action) {
    a.CreateEntity? || a.SpawnEntity? || a.AttachComponent? || a.DetachComponent? || a.EraseEntity? || a.PurgeEntities?
  }

  lemma LabelFramed(w: World, e: EntityId, c: Component)
    ensures Framed(w, Labelled(w, e, c))
  {
    if IsLabel(c) && Has(BodyOf(w, e), c.Type()) {
      PresentWith(BodyOf(w, e), c);
      HasIsPresence(BodyOf(w, e), c.Type());
      BodyFramed(w, e, With(BodyOf(w, e), c));
    }
  }

  // Everything but the entity manager's own operations assigns component values only.
  lemma RuleFramed(w: World, a: Action)
    requires !IsEntityEdit(a)
    ensures Framed(w, Apply(w, a))
  {
    match a {
      case Label(e, c) => LabelFramed(w, e, c);
      case TakeInput(e) => InputFramed(w, e);
      case MoveBody(e, coefficient, dt, magnitude) => MotionFramed(w, e, coefficient, dt, magnitude);
      case ResolveMap(e, p, c, events) => ResolveFramed(w, e, p, c, events);
      case PlaceArea(e) => AreaFramed(w, e);
      case RunTimer(e, dt) => TimerFramed(w, e, dt);
      case Attack(s, r) => StrikeFramed(w, s, r);
      case Handle(s, e, event) => DeliverFramed(w, s, e, event);
      case _ =>
    }
  }

  lemma SameRequirements(w: World, a: Action)
    requires Consistent(w)
    ensures Apply(w, a).systems.Keys == w.systems.Keys
    ensures forall s :: s in w.systems ==> Apply(w, a).systems[s].requirements == w.systems[s].requirements
  {
    match a {
      case CreateEntity(bits, id) => CreateKeepsRequirements(w, bits, id);
      case SpawnEntity(archetype) =>
        var e := AddedId(w, NULL_ID);
        if e != NULL_ID {
          CreateKeepsRequirements(w, archetype.bits, NULL_ID);
        }
      case AttachComponent(e, t) =>
      case DetachComponent(e, t) =>
      case EraseEntity(e) =>
      case PurgeEntities =>
      case _ => RuleFramed(w, a);
    }
  }

  lemma CreateKeepsRequirements(w: World, bits: Bitset, id: int)
    requires Consistent(w)
    ensures AddEntity(w, bits, id).systems.Keys == w.systems.Keys
    ensures forall s :: s in w.systems ==> AddEntity(w, bits, id).systems[s].requirements == w.systems[s].requirements
  {
    var e := NewId(w, id);
    if e !in w.entities {
      var counted := if id == NULL_ID then w.idCounter + 1 else w.idCounter;
      EmptyRecordConsistent(w, e, counted);
      var start := w.(entities := w.entities[e := NO_DATA], idCounter := counted);
      AddComponentsConsistent(start, e, bits, N_COMPONENT_TYPES);
    }
  }

  lemma ApplyConsistent(w: World, a: Action)
    requires Consistent(w) && AsksFactoryOnly(w.systems)
    ensures Consistent(Apply(w, a))
  {
    match a {
      case CreateEntity(bits, id) => AddEntityConsistent(w, bits, id);
      case SpawnEntity(archetype) => SpawnConsistent(w, archetype);
      case AttachComponent(e, t) => AddComponentConsistent(w, e, t);
      case DetachComponent(e, t) => RemoveComponentConsistent(w, e, t);
      case EraseEntity(e) => RemoveEntityConsistent(w, e);
      case PurgeEntities => PurgeConsistent(w);
      case _ =>
        RuleFramed(w, a);
        FramedConsistent(w, Apply(w, a));
    }
  }

  // In every run from a consistent world, whatever its steps, each system's list is a duplicate-free index over
  // the masks, and each mask matches its component vector.
  lemma {:induction false} IndexInEveryRun(w: World, actions: seq<Action>)
    requires Consistent(w) && IsServer(w.systems)
    ensures Consistent(Run(w, actions)) && IsServer(Run(w, actions).systems)
  {
    if actions != [] {
      var w' := Run(w, actions[..|actions| - 1]);
      IndexInEveryRun(w, actions[..|actions| - 1]);
      ServerTable(w'.systems);
      ApplyConsistent(w', actions[|actions| - 1]);
      SameRequirements(w', actions[|actions| - 1]);
    }
  }

  // The same, spelled out: a system holds an entity exactly when the entity's mask includes one of the system's
  // requirements, and holds it once.
  lemma HeldExactlyWhenEquipped(w: World, actions: seq<Action>, s: System, e: EntityId)
    requires Consistent(w) && IsServer(w.systems) && s in SERVER_SYSTEMS
    ensures var w' := Run(w, actions);
            && NoDuplicates(ListOf(w', s))
            && (e in ListOf(w', s) <==>
                e in w'.entities && exists k :: 0 <= k < |ServerRequirements(s)| &&
                                                ServerRequirements(s)[k] <= w'.entities[e].mask)
  {
    var w' := Run(w, actions);
    IndexInEveryRun(w, actions);
    assert Indexes(w'.systems[s], w'.entities);
    ServerTable(w'.systems);
    if e in w'.entities {
      FitsIsInclusion(ServerRequirements(s), w'.entities[e].mask);
    }
  }

  // The server before its first entity.
  function EmptyServer(): World {
    World(map[], 0, map s | s in SERVER_SYSTEMS :: SystemData(ServerRequirements(s), []), map[], map[], [])
  }

  lemma EmptyServerConsistent()
    ensures Consistent(EmptyServer()) && IsServer(EmptyServer().systems)
  {
    ServerTable(EmptyServer().systems);
  }
}
