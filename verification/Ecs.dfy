/**
 The entity store, the systems' entity lists and the event queues as one value, and what each operation of
 src/common/Entity_Manager.cpp and src/common/System_Manager.cpp does to it. The classes in EcsObjects.dfy
 implement these functions; the theorems about them are in EcsIndex.dfy.
 */
module Ecs {
  import opened Bitmasks
  import opened Components

  datatype System =
    | Renderer | Movement | Collision | Control | StateMachine | SheetAnimation | Sound | Network | Combat
    | CharacterUI | Timers

  datatype EntityEvent =
    | Spawned | Despawned | CollidingX | CollidingY
    | MovingLeft | MovingRight | MovingUp | MovingDown
    | ElevationChange | BecameIdle | BeganMoving | BeganAttacking

  type EventQueues = map<EntityId, seq<EntityEvent>>

  datatype PlayerInput = PlayerInput(movedX: int, movedY: int, attacking: bool)

  const NO_INPUT := PlayerInput(0, 0, false)

  // An S_Base: the masks it registered and the entities it holds.
  datatype SystemData = SystemData(requirements: seq<Bitset>, members: seq<EntityId>)

  type Systems = map<System, SystemData>

  // What has been done, in order: each Being_Attacked S_Combat answered, each timer S_Timers ran, each event a system
  // handled. The log observes the run and steers nothing.
  datatype Entry =
    | Struck(attacker: EntityId, victim: EntityId)
    | Timed(entity: EntityId, dt: nat)
    | Handled(system: System, entity: EntityId, event: EntityEvent)

  datatype EntityData = EntityData(mask: Bitset, kind: string, body: Body)

  type Entities = map<EntityId, EntityData>

  const NO_DATA := EntityData({}, "", EMPTY_BODY)

  datatype World = World(
    entities: Entities,
    idCounter: nat,
    systems: Systems,
    events: EventQueues,
    input: map<EntityId, PlayerInput>,
    log: seq<Entry>)

  function Noted(w: World, entry: Entry): World {
    w.(log := w.log + [entry])
  }

  // The components of e; none for an id the map does not hold.
  function BodyOf(w: World, e: EntityId): Body {
    if e in w.entities then w.entities[e].body else EMPTY_BODY
  }

  // Assignment through the component pointers of e.
  function SetBody(w: World, e: EntityId, b: Body): World {
    if e in w.entities then w.(entities := w.entities[e := w.entities[e].(body := b)]) else w
  }

  function ListOf(w: World, s: System): seq<EntityId> {
    if s in w.systems then w.systems[s].members else []
  }

  function Add(members: seq<EntityId>, e: EntityId): (r: seq<EntityId>)
    ensures forall f :: f in r <==> f == e || f in members
  {
    if e in members then members else members + [e]
  }

  // S_Base::removeEntity erases the first occurrence.
  function Remove(members: seq<EntityId>, e: EntityId): (r: seq<EntityId>)
    ensures forall f :: f != e ==> (f in r <==> f in members)
    ensures e !in members ==> r == members
  {
    if members == [] then []
    else if members[0] == e then
      members[1..]
    else
      [members[0]] + Remove(members[1..], e)
  }

  function Refresh(d: SystemData, e: EntityId, bits: Bitset): SystemData {
    if e !in d.members then
      if Fits(d.requirements, bits) then d.(members := Add(d.members, e)) else d
    else
      if !Fits(d.requirements, bits) then d.(members := Remove(d.members, e)) else d
  }

  function EntityModified(systems: Systems, e: EntityId, bits: Bitset): Systems {
    map s | s in systems :: Refresh(systems[s], e, bits)
  }

  function DropEntity(systems: Systems, e: EntityId): Systems {
    map s | s in systems :: systems[s].(members := Remove(systems[s].members, e))
  }

  function PurgeLists(systems: Systems): Systems {
    map s | s in systems :: systems[s].(members := [])
  }

  function AddEvent(events: EventQueues, e: EntityId, event: EntityEvent): EventQueues {
    events[e := (if e in events then events[e] else []) + [event]]
  }

  function EventsOf(w: World, e: EntityId): seq<EntityEvent> {
    if e in w.events then w.events[e] else []
  }

  predicate CanAddComponent(w: World, e: EntityId, t: ComponentType) {
    e in w.entities && !GetBit(w.entities[e].mask, t) && t in FACTORY
  }

  function AddComponent(w: World, e: EntityId, t: ComponentType): World {
    if !CanAddComponent(w, e, t) then w
    else
      var d := w.entities[e];
      var mask := TurnOnBit(d.mask, t);
      w.(entities := w.entities[e := EntityData(mask, d.kind, With(d.body, Fresh(t)))],
         systems := EntityModified(w.systems, e, mask))
  }

  predicate CanRemoveComponent(w: World, e: EntityId, t: ComponentType) {
    e in w.entities && GetBit(w.entities[e].mask, t) && Has(w.entities[e].body, t)
  }

  function RemoveComponent(w: World, e: EntityId, t: ComponentType): World {
    if !CanRemoveComponent(w, e, t) then w
    else
      var d := w.entities[e];
      var mask := ClearBit(d.mask, t);
      w.(entities := w.entities[e := EntityData(mask, d.kind, Dropped(d.body, t))],
         systems := EntityModified(w.systems, e, mask))
  }

  // The loop of addEntity: addComponent for each requested position below n.
  function AddComponents(w: World, e: EntityId, bits: Bitset, n: nat): World
    requires n <= N_COMPONENT_TYPES
  {
    if n == 0 then w
    else
      var w' := AddComponents(w, e, bits, n - 1);
      if GetBit(bits, n - 1) then AddComponent(w', e, n - 1) else w'
  }

  function NewId(w: World, id: int): EntityId {
    if id == NULL_ID then w.idCounter else id
  }

  // The id addEntity returns.
  function AddedId(w: World, id: int): EntityId {
    if NewId(w, id) in w.entities then NULL_ID else NewId(w, id)
  }

  // The world just before addEntity's closing entityModified call.
  function BeforeClosing(w: World, bits: Bitset, id: int): World {
    var e := NewId(w, id);
    var counted := if id == NULL_ID then w.idCounter + 1 else w.idCounter;
    AddComponents(w.(entities := w.entities[e := NO_DATA], idCounter := counted), e, bits, N_COMPONENT_TYPES)
  }

  // addEntity closes with entityModified on the requested mask, not on the mask it has built.
  function AddEntity(w: World, bits: Bitset, id: int): World {
    var e := NewId(w, id);
    if e in w.entities then w
    else
      var built := BeforeClosing(w, bits, id);
      built.(systems := EntityModified(built.systems, e, bits), events := AddEvent(built.events, e, Spawned))
  }

  // One component line of an entity file.
  function ReadPart(b: Body, line: Component): Body {
    if Has(b, line.Type()) then With(b, ReadIn(Part(b, line.Type()), line)) else b
  }

  function ReadParts(b: Body, lines: seq<Component>): Body {
    if lines == [] then b else ReadPart(ReadParts(b, lines[..|lines| - 1]), lines[|lines| - 1])
  }

  // A parsed entity file: the mask of its Attributes line and the component lines after it.
  datatype Archetype = Archetype(name: string, bits: Bitset, lines: seq<Component>)

  // addEntity from a file.
  function Spawn(w: World, a: Archetype): World {
    var e := AddedId(w, NULL_ID);
    if e == NULL_ID then w
    else
      var added := AddEntity(w, a.bits, NULL_ID);
      if e !in added.entities then added
      else
        var d := added.entities[e];
        added.(entities := added.entities[e := EntityData(d.mask, a.name, ReadParts(d.body, a.lines))])
  }

  // removeEntity empties the record but leaves it in the map. S_Network forgets the input first.
  function RemoveEntity(w: World, e: EntityId): World {
    if e !in w.entities then w
    else w.(
      input := if e in ListOf(w, Network) then w.input - {e} else w.input,
      entities := w.entities[e := EntityData({}, w.entities[e].kind, EMPTY_BODY)],
      systems := DropEntity(w.systems, e))
  }

  function Purge(w: World): World {
    w.(entities := map[], idCounter := 0, systems := PurgeLists(w.systems))
  }

  predicate NoDuplicates(s: seq<EntityId>) {
    forall j, k :: 0 <= j < k < |s| ==> s[j] != s[k]
  }

  // A system's list is an index over the masks: duplicate-free, and holding exactly the entities that fit.
  ghost predicate Indexes(d: SystemData, entities: Entities) {
    && NoDuplicates(d.members)
    && forall e :: e in d.members <==> e in entities && Fits(d.requirements, entities[e].mask)
  }

  ghost predicate Indexed(w: World) {
    forall s :: s in w.systems ==> Indexes(w.systems[s], w.entities)
  }

  ghost predicate NoZeroRequirement(systems: Systems) {
    forall s :: s in systems ==> {} !in systems[s].requirements
  }

  // A set bit means a component of that type, and the other way round.
  ghost predicate MasksMatch(w: World) {
    forall e :: e in w.entities ==> w.entities[e].mask == Present(w.entities[e].body)
  }

  // The two index invariants together, for system tables without the zero requirement.
  ghost predicate Consistent(w: World) {
    MasksMatch(w) && Indexed(w) && NoZeroRequirement(w.systems)
  }
}
