/** src/common/Entity_Manager.cpp over component vectors, proved to do what Ecs.dfy says. */
module EntityObjects {
  import opened Bitmasks
  import opened Components
  import opened ComponentVectors
  import opened Ecs
  import opened EcsIndex
  import opened EcsObjects

  // An EntityData of the source: the mask, the file name and the component vector.
  datatype Stored = Stored(mask: Bitset, kind: string, components: seq<Component>)

  function Abstract(d: Stored): EntityData {
    EntityData(d.mask, d.kind, ToBody(d.components))
  }

  function AbstractAll(entities: map<EntityId, Stored>): Entities {
    map e | e in entities :: Abstract(entities[e])
  }

  lemma AbstractUpdated(entities: map<EntityId, Stored>, e: EntityId, d: Stored)
    ensures AbstractAll(entities[e := d]) == AbstractAll(entities)[e := Abstract(d)]
  {
  }

  // Each set bit matches exactly one stored component of that type, and each component its bit.
  ghost predicate WellStored(d: Stored) {
    DistinctTypes(d.components) && d.mask == Present(ToBody(d.components))
  }

  lemma WellStoredMeans(d: Stored, t: ComponentType)
    requires WellStored(d)
    ensures t in d.mask <==> exists k :: 0 <= k < |d.components| && d.components[k].Type() == t
    ensures forall j, k | 0 <= j < |d.components| && 0 <= k < |d.components| ::
        d.components[j].Type() == d.components[k].Type() == t ==> j == k
  {
    MaskCountsComponents(d.components, d.mask, t);
  }

  function Extended(d: Stored, c: Component): Stored {
    Stored(TurnOnBit(d.mask, c.Type()), d.kind, d.components + [c])
  }

  lemma ExtendedStored(d: Stored, c: Component)
    requires WellStored(d) && c.Type() !in d.mask
    ensures WellStored(Extended(d, c))
    ensures Abstract(Extended(d, c)) == EntityData(TurnOnBit(d.mask, c.Type()), d.kind, With(ToBody(d.components), c))
  {
    forall j | 0 <= j < |d.components|
      ensures d.components[j].Type() != c.Type()
    {
      WellStoredMeans(d, d.components[j].Type());
    }
    ToBodyAppend(d.components, c);
    PresentWith(ToBody(d.components), c);
  }

  function Reduced(d: Stored, k: nat): Stored
    requires k < |d.components|
  {
    Stored(ClearBit(d.mask, d.components[k].Type()), d.kind, Erased(d.components, k))
  }

  lemma ReducedStored(d: Stored, k: nat)
    requires WellStored(d) && k < |d.components|
    ensures var t := d.components[k].Type();
            && WellStored(Reduced(d, k))
            && Abstract(Reduced(d, k)) == EntityData(ClearBit(d.mask, t), d.kind, Dropped(ToBody(d.components), t))
  {
    ToBodyErase(d.components, k);
    PresentDropped(ToBody(d.components), d.components[k].Type());
  }

  function Written(d: Stored, k: nat, c: Component): Stored
    requires k < |d.components|
  {
    Stored(d.mask, d.kind, d.components[k := c])
  }

  lemma WrittenStored(d: Stored, k: nat, c: Component)
    requires WellStored(d) && k < |d.components| && d.components[k].Type() == c.Type()
    ensures WellStored(Written(d, k, c))
    ensures Abstract(Written(d, k, c)) == EntityData(d.mask, d.kind, With(ToBody(d.components), c))
  {
    ToBodyWrite(d.components, k, c);
    PresentWith(ToBody(d.components), c);
    WellStoredMeans(d, c.Type());
  }

  class EntityManager {
    const sm: SystemManager
    var entities: map<EntityId, Stored>
    var idCounter: nat
    ghost var log: seq<Entry>

    ghost predicate Valid()
      reads this`entities, sm`order, sm`systems
    {
      && sm.Valid()
      && forall e :: e in entities ==> WellStored(entities[e])
    }

    // The state of the whole entity-component-system as one value.
    ghost function World(): World
      reads this`entities, this`idCounter, this`log
      reads sm`systems, sm.systems.Values`members, sm`events, sm`input
    {
      Ecs.World(AbstractAll(entities), idCounter, sm.Lists(), sm.events, sm.input, log)
    }

    constructor (sm: SystemManager)
      requires sm.Valid()
      ensures Valid() && this.sm == sm
      ensures World() == Ecs.World(map[], 0, sm.Lists(), sm.events, sm.input, [])
    {
      this.sm := sm;
      entities, idCounter, log := map[], 0, [];
    }

    // getComponent<T>: the component, or null.
    method GetComponent(e: EntityId, t: ComponentType) returns (c: Option<Component>)
      requires Valid()
      ensures c == if Has(BodyOf(World(), e), t) then Some(Part(BodyOf(World(), e), t)) else None
    {
      HasIsPresence(BodyOf(World(), e), t);
      if e !in entities || !GetBit(entities[e].mask, t) {
        return None;
      }
      var cs := entities[e].components;
      var k := FindIndex(cs, t);
      if k == |cs| {
        return None;
      }
      return Some(cs[k]);
    }

    // Assignment through the pointer getComponent returns.
    method WriteComponent(e: EntityId, c: Component)
      requires Valid() && e in World().entities && Has(BodyOf(World(), e), c.Type())
      modifies this`entities
      ensures Valid()
      ensures World() == SetBody(old(World()), e, With(BodyOf(old(World()), e), c))
    {
      var d := entities[e];
      var k := FindIndex(d.components, c.Type());
      WrittenStored(d, k, c);
      AbstractUpdated(entities, e, Written(d, k, c));
      entities := entities[e := Written(d, k, c)];
    }

    // A record changes and the systems are told its new mask.
    method Replace(e: EntityId, d: Stored)
      requires Valid() && WellStored(d)
      modifies this`entities, sm.systems.Values
      ensures Valid()
      ensures var w := old(World());
              World() == w.(entities := w.entities[e := Abstract(d)], systems := EntityModified(w.systems, e, d.mask))
    {
      AbstractUpdated(entities, e, d);
      entities := entities[e := d];
      sm.EntityModified(e, d.mask);
    }

    method AddComponent(e: EntityId, t: ComponentType) returns (added: bool)
      requires Valid()
      modifies this`entities, sm.systems.Values
      ensures Valid()
      ensures added <==> CanAddComponent(old(World()), e, t)
      ensures World() == Ecs.AddComponent(old(World()), e, t)
    {
      if e !in entities || GetBit(entities[e].mask, t) {
        return false;
      }
      if t !in FACTORY {
        return false;
      }
      var d := Extended(entities[e], Fresh(t));
      ExtendedStored(entities[e], Fresh(t));
      Replace(e, d);
      return true;
    }

    method RemoveComponent(e: EntityId, t: ComponentType) returns (removed: bool)
      requires Valid()
      modifies this`entities, sm.systems.Values
      ensures Valid()
      ensures removed <==> CanRemoveComponent(old(World()), e, t)
      ensures World() == Ecs.RemoveComponent(old(World()), e, t)
    {
      if e !in entities || !GetBit(entities[e].mask, t) {
        return false;
      }
      var k := FindIndex(entities[e].components, t);
      if k == |entities[e].components| {
        return false;
      }
      var d := Reduced(entities[e], k);
      ReducedStored(entities[e], k);
      Replace(e, d);
      return true;
    }

    // The loop of addEntity.
    method AddComponents(e: EntityId, bits: Bitset)
      requires Valid()
      modifies this`entities, sm.systems.Values
      ensures Valid()
      ensures World() == Ecs.AddComponents(old(World()), e, bits, N_COMPONENT_TYPES)
    {
      for i := 0 to N_COMPONENT_TYPES
        invariant Valid()
        invariant World() == Ecs.AddComponents(old(World()), e, bits, i)
      {
        if GetBit(bits, i) {
          var _ := AddComponent(e, i);
        }
      }
    }

    // The start of addEntity: an empty record.
    method Open(e: EntityId, id: int)
      requires Valid()
      modifies this`entities, this`idCounter
      ensures Valid()
      ensures World() == old(World()).(entities := old(World()).entities[e := NO_DATA],
                                       idCounter := if id == NULL_ID then old(idCounter) + 1 else old(idCounter))
    {
      AbstractUpdated(entities, e, Stored({}, "", []));
      assert WellStored(Stored({}, "", [])) by {
        assert Present(EMPTY_BODY) == {};
      }
      entities := entities[e := Stored({}, "", [])];
      if id == NULL_ID {
        idCounter := idCounter + 1;
      }
    }

    // The end of addEntity.
    method Close(e: EntityId, bits: Bitset)
      requires Valid()
      modifies sm`events, sm.systems.Values
      ensures Valid()
      ensures var w := old(World());
              World() == w.(systems := EntityModified(w.systems, e, bits), events := AddEvent(w.events, e, Spawned))
    {
      sm.EntityModified(e, bits);
      sm.AddEvent(e, Spawned);
    }

    // addEntity(mask, id): -1 if the id is taken.
    method AddEntity(bits: Bitset, id: int) returns (added: int)
      requires Valid()
      modifies this, sm`events, sm.systems.Values
      ensures Valid()
      ensures added == AddedId(old(World()), id)
      ensures World() == Ecs.AddEntity(old(World()), bits, id)
    {
      var e := if id == NULL_ID then idCounter else id;
      if e in entities {
        return NULL_ID;
      }
      Open(e, id);
      AddComponents(e, bits);
      assert World() == BeforeClosing(old(World()), bits, id);
      Close(e, bits);
      return e;
    }

    // The component lines of an entity file.
    method ReadLines(e: EntityId, lines: seq<Component>)
      requires Valid() && e in entities
      modifies this`entities
      ensures Valid() && e in entities
      ensures World() == Loaded(old(World()), e, lines)
    {
      for i := 0 to |lines|
        invariant Valid() && e in World().entities
        invariant World() == Loaded(old(World()), e, lines[..i])
      {
        assert lines[..i + 1] == lines[..i] + [lines[i]];
        var c := GetComponent(e, lines[i].Type());
        LoadedNext(old(World()), e, lines[..i], lines[i]);
        if c.Some? {
          WriteComponent(e, ReadIn(c.value, lines[i]));
        }
      }
      assert lines[..|lines|] == lines;
    }

    // addEntity(file), for a file already parsed; None stands for one that cannot be opened.
    method AddEntityFromFile(file: Option<Archetype>) returns (added: int)
      requires Valid()
      modifies this, sm`events, sm.systems.Values
      ensures Valid()
      ensures file.None? ==> added == NULL_ID && World() == old(World())
      ensures file.Some? ==> added == AddedId(old(World()), NULL_ID) && World() == Spawn(old(World()), file.value)
    {
      if file.None? {
        return NULL_ID;
      }
      var a := file.value;
      added := AddEntity(a.bits, NULL_ID);
      if added == NULL_ID || added !in entities {
        return;
      }
      ghost var made := World();
      ReadLines(added, a.lines);
      Rename(added, a.name);
      assert World().entities == made.entities[added := World().entities[added]];
    }

    // m_entities.at(e).m_type = kind
    method Rename(e: EntityId, kind: string)
      requires Valid() && e in entities
      modifies this`entities
      ensures Valid()
      ensures var w := old(World());
              && e in w.entities
              && World() == w.(entities := w.entities[e := w.entities[e].(kind := kind)])
    {
      var d := Stored(entities[e].mask, kind, entities[e].components);
      AbstractUpdated(entities, e, d);
      entities := entities[e := d];
    }

    // SystemManager::getSystem, null or not.
    method HasSystem(s: System) returns (has: bool)
      requires Valid()
      ensures has <==> s in World().systems
    {
      has := s in sm.systems;
    }

    // S_Base::hasEntity of system s.
    method SystemHas(s: System, e: EntityId) returns (has: bool)
      requires Valid()
      ensures has <==> e in ListOf(World(), s)
    {
      if s !in sm.systems {
        return false;
      }
      has := sm.systems[s].HasEntity(e);
    }

    method Members(s: System) returns (list: seq<EntityId>)
      requires Valid()
      ensures list == ListOf(World(), s)
    {
      list := if s in sm.systems then sm.systems[s].members else [];
    }

    // m_input[e], which inserts a default.
    method InputFor(e: EntityId) returns (p: PlayerInput)
      requires Valid()
      modifies sm`input
      ensures Valid()
      ensures p == if e in old(World()).input then old(World()).input[e] else NO_INPUT
      ensures World() == old(World()).(input := old(World()).input[e := p])
    {
      p := if e in sm.input then sm.input[e] else NO_INPUT;
      sm.input := sm.input[e := p];
    }

    // Assignment through m_input[e].
    method SetInput(e: EntityId, p: PlayerInput)
      requires Valid()
      modifies sm`input
      ensures Valid()
      ensures World() == old(World()).(input := old(World()).input[e := p])
    {
      sm.input := sm.input[e := p];
    }

    method Order() returns (order: seq<System>)
      requires Valid()
      ensures order == sm.order
      ensures (forall s :: s in order <==> s in World().systems)
      ensures forall j, k :: 0 <= j < k < |order| ==> order[j] != order[k]
    {
      order := sm.order;
    }

    method EventKeys() returns (keys: set<EntityId>)
      requires Valid()
      ensures keys == World().events.Keys
    {
      keys := sm.events.Keys;
    }

    // EventQueue::processEvents of the queue of e.
    method PopEvent(e: EntityId) returns (event: Option<EntityEvent>)
      requires Valid()
      modifies sm`events
      ensures Valid()
      ensures var queue := EventsOf(old(World()), e);
              if queue == [] then event == None && World() == old(World())
              else event == Some(queue[0]) && World() == old(World()).(events := old(World()).events[e := queue[1..]])
    {
      if e !in sm.events || sm.events[e] == [] {
        return None;
      }
      event := Some(sm.events[e][0]);
      sm.events := sm.events[e := sm.events[e][1..]];
    }

    // SystemManager::addEvent.
    method QueueEvent(e: EntityId, event: EntityEvent)
      requires Valid()
      modifies sm`events
      ensures Valid()
      ensures World() == old(World()).(events := AddEvent(old(sm.events), e, event))
    {
      sm.AddEvent(e, event);
    }

    ghost method Note(entry: Entry)
      requires Valid()
      modifies this`log
      ensures Valid()
      ensures World() == Noted(old(World()), entry)
    {
      log := log + [entry];
    }

    // Removed_Entity reaches S_Network, its one subscriber.
    method NotifyRemoved(e: EntityId)
      requires Valid()
      modifies sm`input
      ensures World() == old(World()).(input := if e in ListOf(old(World()), Network) then old(sm.input) - {e}
                                                else old(sm.input))
    {
      var has := SystemHas(Network, e);
      if has {
        sm.input := sm.input - {e};
      }
    }

    // The loop of removeEntity that deletes the components, and the mask.
    method Empty(e: EntityId)
      requires Valid() && e in entities
      modifies this`entities
      ensures Valid()
      ensures var w := old(World());
              World() == w.(entities := w.entities[e := EntityData({}, w.entities[e].kind, EMPTY_BODY)])
    {
      var cs := entities[e].components;
      while cs != []
        decreases |cs|
      {
        cs := cs[1..];
      }
      var d := Stored({}, entities[e].kind, cs);
      AbstractUpdated(entities, e, d);
      assert WellStored(d) by {
        assert Present(EMPTY_BODY) == {};
      }
      entities := entities[e := d];
    }

    method RemoveEntity(e: EntityId) returns (removed: bool)
      requires Valid()
      modifies this`entities, sm`input, sm.systems.Values
      ensures Valid()
      ensures removed <==> e in old(World()).entities
      ensures World() == Ecs.RemoveEntity(old(World()), e)
    {
      if e !in entities {
        return false;
      }
      NotifyRemoved(e);
      Empty(e);
      sm.RemoveEntity(e);
      return true;
    }

    method Purge()
      requires Valid()
      modifies this`entities, this`idCounter, sm.systems.Values
      ensures Valid()
      ensures World() == Ecs.Purge(old(World()))
    {
      sm.PurgeEntities();
      idCounter := 0;
      entities := map[];
    }
  }

  // w with component lines read into e.
  function Loaded(w: World, e: EntityId, lines: seq<Component>): World {
    SetBody(w, e, ReadParts(BodyOf(w, e), lines))
  }

  lemma LoadedNext(w: World, e: EntityId, lines: seq<Component>, line: Component)
    requires e in w.entities
    ensures var w' := Loaded(w, e, lines);
            Loaded(w, e, lines + [line]) == SetBody(w', e, ReadPart(BodyOf(w', e), line))
  {
    assert (lines + [line])[..|lines|] == lines;
  }
}
