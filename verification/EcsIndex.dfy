/** The system lists are an index over the component masks, and every operation keeps them so. */
module EcsIndex {
  import opened Bitmasks
  import opened Components
  import opened Ecs

  lemma RemoveKeepsNoDuplicates(s: seq<EntityId>, e: EntityId)
    requires NoDuplicates(s)
    ensures NoDuplicates(Remove(s, e))
    ensures forall f :: f in Remove(s, e) <==> f in s && f != e
  {
    if s != [] {
      if s[0] == e {
        assert e !in s[1..];
      } else {
        RemoveKeepsNoDuplicates(s[1..], e);
        var rest := Remove(s[1..], e);
        assert s[0] !in s[1..];
        assert s[0] !in rest;
      }
    }
  }

  // A list that is an index everywhere but possibly at e.
  ghost predicate IndexesExcept(d: SystemData, entities: Entities, e: EntityId) {
    && NoDuplicates(d.members)
    && forall f :: f != e ==> (f in d.members <==> f in entities && Fits(d.requirements, entities[f].mask))
  }

  // entityModified repairs the entry of one entity exactly when the mask it is given fits the system like the
  // mask the entity really has.
  lemma RefreshRepairs(d: SystemData, entities: Entities, e: EntityId, bits: Bitset)
    requires IndexesExcept(d, entities, e)
    ensures IndexesExcept(Refresh(d, e, bits), entities, e)
    ensures e in Refresh(d, e, bits).members <==> Fits(d.requirements, bits)
    ensures Indexes(Refresh(d, e, bits), entities) <==>
            (Fits(d.requirements, bits) <==> e in entities && Fits(d.requirements, entities[e].mask))
  {
    RemoveKeepsNoDuplicates(d.members, e);
    var r := Refresh(d, e, bits);
    assert e in r.members <==> Fits(d.requirements, bits);
    assert r.requirements == d.requirements;
  }

  lemma EntityModifiedIndexes(systems: Systems, entities: Entities, e: EntityId, bits: Bitset)
    requires forall s :: s in systems ==> IndexesExcept(systems[s], entities, e)
    requires e in entities
    ensures (forall s :: s in systems ==> Indexes(EntityModified(systems, e, bits)[s], entities)) <==>
            forall s :: s in systems ==>
                (Fits(systems[s].requirements, bits) <==> Fits(systems[s].requirements, entities[e].mask))
  {
    forall s | s in systems
      ensures Indexes(EntityModified(systems, e, bits)[s], entities) <==>
              (Fits(systems[s].requirements, bits) <==> Fits(systems[s].requirements, entities[e].mask))
    {
      RefreshRepairs(systems[s], entities, e, bits);
    }
  }

  // Changing one entity's record leaves every list an index everywhere else.
  lemma IndexedElsewhere(w: World, e: EntityId, d: EntityData)
    requires Indexed(w)
    ensures forall s :: s in w.systems ==> IndexesExcept(w.systems[s], w.entities[e := d], e)
  {
  }

  lemma RequirementsUnchanged(systems: Systems, e: EntityId, bits: Bitset)
    ensures NoZeroRequirement(EntityModified(systems, e, bits)) <==> NoZeroRequirement(systems)
  {
    var after := EntityModified(systems, e, bits);
    forall s | s in systems
      ensures after[s].requirements == systems[s].requirements
    {
    }
  }

  // w' is w with the record of e changed, and the lists with it.
  ghost predicate OnlyRecordChanged(w: World, w': World, e: EntityId) {
    && w'.entities.Keys == w.entities.Keys
    && (forall f :: f in w.entities && f != e ==> w'.entities[f] == w.entities[f])
    && w'.systems.Keys == w.systems.Keys
    && (forall s :: s in w.systems ==> w'.systems[s].requirements == w.systems[s].requirements)
    && w'.events == w.events && w'.input == w.input && w'.idCounter == w.idCounter
    && w'.log == w.log
  }

  lemma OnlyRecordChangedTransitive(w0: World, w1: World, w2: World, e: EntityId)
    requires OnlyRecordChanged(w0, w1, e) && OnlyRecordChanged(w1, w2, e)
    ensures OnlyRecordChanged(w0, w2, e)
  {
  }

  lemma AddComponentLocal(w: World, e: EntityId, t: ComponentType)
    ensures OnlyRecordChanged(w, AddComponent(w, e, t), e)
  {
  }

  lemma AddComponentConsistent(w: World, e: EntityId, t: ComponentType)
    requires Consistent(w)
    ensures Consistent(AddComponent(w, e, t))
    ensures e in w.entities ==> e in AddComponent(w, e, t).entities
    ensures e in w.entities ==> AddComponent(w, e, t).entities[e].mask == w.entities[e].mask + (Bit(t) * FACTORY)
  {
    if CanAddComponent(w, e, t) {
      var d := AddComponent(w, e, t).entities[e];
      PresentWith(w.entities[e].body, Fresh(t));
      IndexedElsewhere(w, e, d);
      EntityModifiedIndexes(w.systems, w.entities[e := d], e, d.mask);
      RequirementsUnchanged(w.systems, e, d.mask);
    }
  }

  lemma PresentWith(b: Body, c: Component)
    ensures Present(With(b, c)) == Present(b) + {c.Type()}
  {
  }

  lemma PresentDropped(b: Body, u: ComponentType)
    ensures Present(Dropped(b, u)) == Present(b) - {u}
  {
  }

  lemma {:induction false} PresentRead(b: Body, lines: seq<Component>)
    ensures Present(ReadParts(b, lines)) == Present(b)
  {
    if lines != [] {
      var line := lines[|lines| - 1];
      var b' := ReadParts(b, lines[..|lines| - 1]);
      PresentRead(b, lines[..|lines| - 1]);
      if Has(b', line.Type()) {
        HasIsPresence(b', line.Type());
        PresentWith(b', ReadIn(Part(b', line.Type()), line));
      }
    }
  }

  lemma RemoveComponentConsistent(w: World, e: EntityId, t: ComponentType)
    requires Consistent(w)
    ensures Consistent(RemoveComponent(w, e, t))
    ensures e in w.entities ==> e in RemoveComponent(w, e, t).entities
    ensures e in w.entities ==> RemoveComponent(w, e, t).entities[e].mask == w.entities[e].mask - Bit(t)
  {
    if e in w.entities {
      HasIsPresence(w.entities[e].body, t);
    }
    if CanRemoveComponent(w, e, t) {
      var d := RemoveComponent(w, e, t).entities[e];
      PresentDropped(w.entities[e].body, t);
      IndexedElsewhere(w, e, d);
      EntityModifiedIndexes(w.systems, w.entities[e := d], e, d.mask);
      RequirementsUnchanged(w.systems, e, d.mask);
    }
  }

  lemma AddOneMore(w: World, w': World, e: EntityId, t: ComponentType)
    requires OnlyRecordChanged(w, w', e) && Consistent(w')
    ensures OnlyRecordChanged(w, AddComponent(w', e, t), e) && Consistent(AddComponent(w', e, t))
  {
    AddComponentConsistent(w', e, t);
    AddComponentLocal(w', e, t);
    OnlyRecordChangedTransitive(w, w', AddComponent(w', e, t), e);
  }

  function Below(bits: Bitset, n: nat): Bitset {
    set t | t in bits && t < n
  }

  lemma {:induction false} AddComponentsConsistent(w: World, e: EntityId, bits: Bitset, n: nat)
    requires Consistent(w) && e in w.entities && n <= N_COMPONENT_TYPES
    ensures Consistent(AddComponents(w, e, bits, n))
    ensures OnlyRecordChanged(w, AddComponents(w, e, bits, n), e)
  {
    if n > 0 {
      AddComponentsConsistent(w, e, bits, n - 1);
      if GetBit(bits, n - 1) {
        AddOneMore(w, AddComponents(w, e, bits, n - 1), e, n - 1);
      }
    }
  }

  // The loop of addEntity builds the requested mask, less the types the factory does not make.
  lemma {:induction false} AddComponentsMask(w: World, e: EntityId, bits: Bitset, n: nat)
    requires e in w.entities && n <= N_COMPONENT_TYPES
    ensures e in AddComponents(w, e, bits, n).entities
    ensures AddComponents(w, e, bits, n).entities[e].mask == w.entities[e].mask + Below(bits * FACTORY, n)
  {
    if n == 0 {
      assert Below(bits * FACTORY, 0) == {};
    } else {
      AddComponentsMask(w, e, bits, n - 1);
      forall t: ComponentType
        ensures t in Below(bits * FACTORY, n) <==>
                t in Below(bits * FACTORY, n - 1) || (t == n - 1 && t in bits && t in FACTORY)
      {
      }
    }
  }

  lemma EmptyRecordConsistent(w: World, e: EntityId, counter: nat)
    requires Consistent(w) && e !in w.entities
    ensures Consistent(w.(entities := w.entities[e := NO_DATA], idCounter := counter))
  {
    var w' := w.(entities := w.entities[e := NO_DATA], idCounter := counter);
    forall s | s in w.systems
      ensures Indexes(w'.systems[s], w'.entities)
    {
      assert Indexes(w.systems[s], w.entities);
      EmptyMaskFits(w.systems[s].requirements);
    }
  }

  // Every requirement of the table asks for factory types only.
  predicate AsksFactoryOnly(systems: Systems) {
    forall s :: s in systems ==> forall r :: r in systems[s].requirements ==> r <= FACTORY
  }

  // Before its closing entityModified call addEntity has a consistent world with one more record.
  lemma BuiltWorld(w: World, bits: Bitset, id: int)
    requires Consistent(w) && NewId(w, id) !in w.entities
    ensures var built, e := BeforeClosing(w, bits, id), NewId(w, id);
            && Consistent(built) && e in built.entities && built.entities[e].mask == bits * FACTORY
            && built.entities == w.entities[e := built.entities[e]]
            && built.systems.Keys == w.systems.Keys
            && forall s :: s in w.systems ==> built.systems[s].requirements == w.systems[s].requirements
  {
    var e := NewId(w, id);
    var counted := if id == NULL_ID then w.idCounter + 1 else w.idCounter;
    var start := w.(entities := w.entities[e := NO_DATA], idCounter := counted);
    EmptyRecordConsistent(w, e, counted);
    AddComponentsConsistent(start, e, bits, N_COMPONENT_TYPES);
    AddComponentsMask(start, e, bits, N_COMPONENT_TYPES);
    var built := BeforeClosing(w, bits, id);
    assert Below(bits * FACTORY, N_COMPONENT_TYPES) == bits * FACTORY;
    forall f | f in w.entities
      ensures f in built.entities && built.entities[f] == w.entities[f]
    {
      assert f in start.entities && start.entities[f] == w.entities[f];
    }
    assert built.entities.Keys == w.entities.Keys + {e};
    assert built.entities == w.entities[e := built.entities[e]];
  }

  // addEntity keeps the index exactly when, for every system, the requested mask fits like the mask built.
  lemma AddEntityIndexed(w: World, bits: Bitset, id: int)
    requires Consistent(w) && NewId(w, id) !in w.entities
    ensures var w' := AddEntity(w, bits, id);
            && NewId(w, id) in w'.entities
            && w'.entities[NewId(w, id)].mask == bits * FACTORY
            && w'.entities == w.entities[NewId(w, id) := w'.entities[NewId(w, id)]]
            && MasksMatch(w')
            && NoZeroRequirement(w'.systems)
            && (Indexed(w') <==> forall s :: s in w.systems ==>
                  (Fits(w.systems[s].requirements, bits) <==> Fits(w.systems[s].requirements, bits * FACTORY)))
  {
    var e := NewId(w, id);
    var built := BeforeClosing(w, bits, id);
    BuiltWorld(w, bits, id);
    forall s | s in built.systems
      ensures IndexesExcept(built.systems[s], built.entities, e)
    {
      assert Indexes(built.systems[s], built.entities);
    }
    EntityModifiedIndexes(built.systems, built.entities, e, bits);
    RequirementsUnchanged(built.systems, e, bits);
    assert AddEntity(w, bits, id).entities == built.entities;
  }

  // In particular it does for any requested mask when the systems ask for factory types only,
  // and for any table when the requested mask does.
  lemma AddEntityConsistent(w: World, bits: Bitset, id: int)
    requires Consistent(w) && (AsksFactoryOnly(w.systems) || bits <= FACTORY)
    ensures Consistent(AddEntity(w, bits, id))
    ensures AddedId(w, id) != NULL_ID ==>
            AddedId(w, id) in AddEntity(w, bits, id).entities &&
            AddEntity(w, bits, id).entities[AddedId(w, id)].mask == bits * FACTORY
  {
    if NewId(w, id) !in w.entities {
      AddEntityIndexed(w, bits, id);
      if bits <= FACTORY {
        assert bits * FACTORY == bits;
      } else {
        assert bits * FACTORY * FACTORY == bits * FACTORY;
        forall s | s in w.systems
          ensures Fits(w.systems[s].requirements, bits) <==> Fits(w.systems[s].requirements, bits * FACTORY)
        {
          FitsDependsOnRequiredBits(w.systems[s].requirements, bits, bits * FACTORY, FACTORY);
        }
      }
    }
  }

  // A system that asks for a type outside the factory (here SpriteSheet, position 1) ends up holding an entity
  // without that component.
  lemma RequestedMaskCanBreakIndex()
    ensures var w := World(map[], 0, map[Renderer := SystemData([{1}], [])], map[], map[], []);
            Consistent(w) && !Indexed(AddEntity(w, {1}, NULL_ID))
  {
    var w := World(map[], 0, map[Renderer := SystemData([{1}], [])], map[], map[], []);
    AddEntityIndexed(w, {1}, NULL_ID);
    var requirements: seq<Bitset> := [{1}];
    FitsIsInclusion(requirements, {1});
    assert requirements[0] <= {1};
    var built: Bitset := {1} * FACTORY;
    assert built == {};
    FitsIsInclusion(requirements, built);
    assert w.systems[Renderer].requirements == requirements;
  }

  lemma DropIndexes(d: SystemData, entities: Entities, e: EntityId, emptied: EntityData)
    requires Indexes(d, entities) && e in entities && emptied.mask == {}
    ensures Indexes(d.(members := Remove(d.members, e)), entities[e := emptied]) <==> {} !in d.requirements
  {
    RemoveKeepsNoDuplicates(d.members, e);
    EmptyMaskFits(d.requirements);
    var after := entities[e := emptied];
    forall f | f != e
      ensures f in Remove(d.members, e) <==> f in after && Fits(d.requirements, after[f].mask)
    {
    }
    assert e in after && (Fits(d.requirements, after[e].mask) <==> {} in d.requirements);
  }

  // removeEntity keeps the index exactly when no system registered the zero requirement: the record it leaves
  // behind has the empty mask.
  lemma RemoveEntityIndexed(w: World, e: EntityId)
    requires MasksMatch(w) && Indexed(w) && e in w.entities
    ensures MasksMatch(RemoveEntity(w, e))
    ensures Indexed(RemoveEntity(w, e)) <==> NoZeroRequirement(w.systems)
  {
    var w' := RemoveEntity(w, e);
    forall s | s in w.systems
      ensures Indexes(w'.systems[s], w'.entities) <==> {} !in w.systems[s].requirements
    {
      assert Indexes(w.systems[s], w.entities);
      DropIndexes(w.systems[s], w.entities, e, EntityData({}, w.entities[e].kind, EMPTY_BODY));
    }
  }

  lemma RemoveEntityConsistent(w: World, e: EntityId)
    requires Consistent(w)
    ensures Consistent(RemoveEntity(w, e))
  {
    if e in w.entities {
      RemoveEntityIndexed(w, e);
    }
  }

  lemma PurgeConsistent(w: World)
    requires Consistent(w)
    ensures Consistent(Purge(w))
  {
  }

  // Everything about the entities but their component values.
  function Masks(entities: Entities): map<EntityId, (Bitset, string)> {
    map e | e in entities :: (entities[e].mask, entities[e].kind)
  }

  // Component values may differ; masks, presence, lists and the id counter do not.
  ghost predicate Framed(w: World, w': World) {
    && Masks(w'.entities) == Masks(w.entities)
    && w'.systems == w.systems && w'.idCounter == w.idCounter
    && (MasksMatch(w) ==> MasksMatch(w'))
  }

  lemma SameMasks(a: Entities, b: Entities)
    requires Masks(a) == Masks(b)
    ensures a.Keys == b.Keys
    ensures forall e :: e in a ==> a[e].mask == b[e].mask
  {
    assert a.Keys == Masks(a).Keys && b.Keys == Masks(b).Keys;
    forall e | e in a
      ensures e in b && a[e].mask == b[e].mask
    {
      assert Masks(a)[e] == Masks(b)[e];
    }
  }

  lemma FramedConsistent(w: World, w': World)
    requires Consistent(w) && Framed(w, w')
    ensures Consistent(w')
  {
    SameMasks(w.entities, w'.entities);
    forall s | s in w.systems
      ensures Indexes(w'.systems[s], w'.entities)
    {
      assert Indexes(w.systems[s], w.entities);
    }
  }

  lemma SpawnConsistent(w: World, a: Archetype)
    requires Consistent(w) && AsksFactoryOnly(w.systems)
    ensures Consistent(Spawn(w, a))
  {
    var e := AddedId(w, NULL_ID);
    if e != NULL_ID {
      AddEntityConsistent(w, a.bits, NULL_ID);
      var added := AddEntity(w, a.bits, NULL_ID);
      PresentRead(added.entities[e].body, a.lines);
      var w' := Spawn(w, a);
      forall s | s in w'.systems
        ensures Indexes(w'.systems[s], w'.entities)
      {
        assert Indexes(added.systems[s], added.entities);
      }
    }
  }

  // The masks the server's systems register.
  function ServerRequirements(s: System): seq<Bitset> {
    match s
    case Network => [{CLIENT}]
    case Movement => [{MOVABLE, POSITION, STATE}]
    case Control => [{POSITION, MOVABLE, CONTROLLER}]
    case StateMachine => [{STATE}]
    case Collision => [{POSITION, COLLIDABLE}]
    case Combat => [{POSITION, MOVABLE, STATE, HEALTH}, {POSITION, MOVABLE, STATE, ATTACKER}]
    case Timers => [{STATE, HEALTH}]
    case _ => []
  }

  const SERVER_SYSTEMS: set<System> := {Network, Movement, Control, StateMachine, Collision, Combat, Timers}

  ghost predicate IsServer(systems: Systems) {
    && systems.Keys == SERVER_SYSTEMS
    && forall s :: s in systems ==> systems[s].requirements == ServerRequirements(s)
  }

  lemma ServerTable(systems: Systems)
    requires IsServer(systems)
    ensures NoZeroRequirement(systems) && AsksFactoryOnly(systems)
  {
  }

  // What the unchecked getComponent calls of a system rely on.
  function Dereferenced(s: System): Bitset {
    match s
    case Network => {CLIENT}
    case Movement => {MOVABLE, POSITION}
    case Control => {MOVABLE}
    case StateMachine => {STATE}
    case Collision => {POSITION, COLLIDABLE}
    case Combat => {POSITION, MOVABLE, STATE}
    case Timers => {STATE, HEALTH}
    case _ => {}
  }

  // No entity a server system holds lacks a component the system dereferences without a check.
  lemma DereferenceSafe(w: World, s: System, e: EntityId, t: ComponentType)
    requires Consistent(w) && IsServer(w.systems)
    requires e in ListOf(w, s) && t in Dereferenced(s)
    ensures e in w.entities && Has(BodyOf(w, e), t)
  {
    var d := w.systems[s];
    assert Indexes(d, w.entities);
    ServerTable(w.systems);
    FitsIsInclusion(d.requirements, w.entities[e].mask);
    var k :| 0 <= k < |d.requirements| && d.requirements[k] <= w.entities[e].mask;
    assert t in d.requirements[k];
    HasIsPresence(BodyOf(w, e), t);
  }

  // Conversely a system holds every entity that has one of its requirements.
  lemma HeldWhenEquipped(w: World, s: System, e: EntityId, r: Bitset)
    requires Consistent(w) && IsServer(w.systems)
    requires s in SERVER_SYSTEMS && r in ServerRequirements(s) && e in w.entities && r <= w.entities[e].mask
    ensures e in ListOf(w, s)
  {
  }
}
