/** What the entity manager's operations leave of the entities, their values, and everything beside them. */
module EntityOutcomes {
  import opened Bitmasks
  import opened Components
  import opened Ecs
  import opened EcsIndex

  // A component fresh from the factory: at the origin, at rest, idle, harmless and nobody's.
  lemma FreshIsInert(t: ComponentType)
    requires t in FACTORY
    ensures match Fresh(t)
            case APosition(p) => p.at == Vec(0.0, 0.0) && p.elevation == 0
            case AState(s) => s == Idle
            case AMovable(m) => m.velocity == Vec(0.0, 0.0) && m.acceleration == Vec(0.0, 0.0) && m.direction == Up
            case ACollidable(k) => !k.onX && !k.onY && k.origin == MidBottom && k.box == Rect(0.0, 0.0, 0.0, 0.0)
            case AClient(id) => id == -1
            case AHealth(h) => h.timer == 0 && h.points == 0
            case AName(n) => n == ""
            case AnAttacker(a) => !a.attacked && a.timer == 0
            case AController => true
  {
  }

  // A line of an entity file gives a component the line's own values, each to its own field; what no file holds, like
  // velocities, timers, flags and client ids, stays. Health starts full.
  lemma ReadInTakes(c: Component, line: Component)
    requires c.Type() == line.Type()
    ensures match ReadIn(c, line)
            case APosition(p) => p == c.position.(at := line.position.at, elevation := line.position.elevation)
            case AState(s) => s == line.state
            case AMovable(m) =>
              var l := line.movable;
              m == c.movable.(maxVelocity := l.maxVelocity, speed := l.speed, direction := l.direction)
            case ACollidable(k) =>
              var box, l := c.collidable.box, line.collidable;
              && k == c.collidable.(box := k.box, offset := l.offset, origin := l.origin)
              && k.box == box.(width := l.box.width, height := l.box.height)
            case AClient(id) => id == c.clientId
            case AHealth(h) =>
              var l := line.health;
              && h.timer == c.health.timer && h.points == h.maxPoints == l.maxPoints
              && h.hurtDuration == l.hurtDuration && h.deathDuration == l.deathDuration
            case AName(n) => n == line.name
            case AnAttacker(a) =>
              var area, l := c.attacker.area, line.attacker;
              && a == c.attacker.(area := a.area, offset := l.offset, knockback := l.knockback,
                                  attackDuration := l.attackDuration)
              && a.area == area.(width := l.area.width, height := l.area.height)
            case AController => c == AController
  {
  }

  // An event goes to the end of its entity's queue, and to no other.
  lemma EventQueued(w: World, e: EntityId, event: EntityEvent, f: EntityId)
    ensures var w' := w.(events := AddEvent(w.events, e, event));
            EventsOf(w', f) == if f == e then EventsOf(w, f) + [event] else EventsOf(w, f)
  {
  }

  // addEntity: a record more, under the id asked for or the next one, with an event in its queue, and with fresh
  // components of the requested types the factory knows; no other record, queue or input is touched.
  lemma AddEntityOutcome(w: World, bits: Bitset, id: int)
    requires Consistent(w) && AddedId(w, id) != NULL_ID
    ensures var w', e := AddEntity(w, bits, id), if id == -1 then w.idCounter else id;
            && AddedId(w, id) == e && e !in w.entities && e in w'.entities
            && w'.entities == w.entities[e := w'.entities[e]] && w'.entities[e].mask == bits * FACTORY
            && w'.idCounter == (if id == -1 then w.idCounter + 1 else w.idCounter)
            && w'.events == w.events[e := EventsOf(w, e) + [Spawned]] && w'.input == w.input && w'.log == w.log
  {
    var e := NewId(w, id);
    var counted := if id == NULL_ID then w.idCounter + 1 else w.idCounter;
    AddEntityIndexed(w, bits, id);
    EmptyRecordConsistent(w, e, counted);
    AddComponentsConsistent(w.(entities := w.entities[e := NO_DATA], idCounter := counted), e, bits, N_COMPONENT_TYPES);
  }

  // addEntity from a file: the same, with the file's name for its kind, and its lines read into what it has.
  lemma SpawnOutcome(w: World, a: Archetype)
    requires Consistent(w) && AddedId(w, NULL_ID) != NULL_ID
    ensures var w', e := Spawn(w, a), w.idCounter;
            && e !in w.entities && e in w'.entities && w'.entities[e].kind == a.name
            && w'.entities == w.entities[e := w'.entities[e]] && w'.idCounter == w.idCounter + 1
            && w'.entities[e].mask == Present(w'.entities[e].body) == a.bits * FACTORY
            && w'.events == w.events[e := EventsOf(w, e) + [Spawned]] && w'.input == w.input
  {
    AddEntityOutcome(w, a.bits, NULL_ID);
    AddEntityIndexed(w, a.bits, NULL_ID);
    PresentRead(AddEntity(w, a.bits, NULL_ID).entities[w.idCounter].body, a.lines);
    hide AddEntity, ReadParts, Present;
  }

  // purge: no record, no place in any list, ids from zero; what is queued and what players asked for stays.
  lemma PurgeOutcome(w: World, s: System)
    ensures var w' := Purge(w);
            && w'.entities == map[] && w'.idCounter == 0 && ListOf(w', s) == [] && w'.systems.Keys == w.systems.Keys
            && w'.events == w.events && w'.input == w.input
  {
  }

  // removeEntity: an empty record of the same kind, no place in any list, and a player's input forgotten; no other
  // record, place or queue is touched.
  lemma RemoveEntityOutcome(w: World, e: EntityId, f: EntityId, s: System)
    requires Consistent(w)
    ensures var w' := RemoveEntity(w, e);
            if e !in w.entities then w' == w
            else
              && w'.entities == w.entities[e := EntityData({}, w.entities[e].kind, EMPTY_BODY)]
              && (f in ListOf(w', s) <==> f in ListOf(w, s) && f != e)
              && w'.events == w.events && w'.idCounter == w.idCounter && w'.log == w.log
              && (f in w'.input <==> f in w.input && !(f == e && e in ListOf(w, Network)))
              && (f in w'.input ==> w'.input[f] == w.input[f])
  {
    if s in w.systems {
      assert Indexes(w.systems[s], w.entities);
      RemoveKeepsNoDuplicates(w.systems[s].members, e);
    }
  }

  // addComponent and removeComponent: that component comes fresh, or goes, and all others stay as they are.
  lemma ComponentOutcome(w: World, e: EntityId, t: ComponentType, u: ComponentType)
    requires e in w.entities && t in FACTORY && MasksMatch(w)
    ensures var b, b' := BodyOf(w, e), BodyOf(AddComponent(w, e, t), e);
            && (Has(b', u) <==> Has(b, u) || u == t)
            && (Has(b', u) ==> Part(b', u) == if Has(b, u) then Part(b, u) else Fresh(t))
    ensures var b, b' := BodyOf(w, e), BodyOf(RemoveComponent(w, e, t), e);
            && (Has(b', u) <==> Has(b, u) && u != t) && (Has(b', u) ==> Part(b', u) == Part(b, u))
  {
    HasIsPresence(w.entities[e].body, t);
    PartWith(w.entities[e].body, Fresh(t), u);
  }

  // Whom each system of the server holds, by the components its constructor asks for.
  lemma WhoIsHeld(w: World, e: EntityId)
    requires Consistent(w) && IsServer(w.systems)
    ensures var b := BodyOf(w, e);
            var placed, moving, state := b.position.Some?, b.movable.Some?, b.state.Some?;
            && (e in ListOf(w, Network) <==> b.clientId.Some?)
            && (e in ListOf(w, Movement) <==> placed && moving && state)
            && (e in ListOf(w, Control) <==> placed && moving && b.controller)
            && (e in ListOf(w, StateMachine) <==> state)
            && (e in ListOf(w, Collision) <==> placed && b.collidable.Some?)
            && (e in ListOf(w, Combat) <==> placed && moving && state && (b.health.Some? || b.attacker.Some?))
            && (e in ListOf(w, Timers) <==> state && b.health.Some?)
  {
    HeldBy(w, Network, e);
    HeldBy(w, Movement, e);
    HeldBy(w, Control, e);
    HeldBy(w, StateMachine, e);
    HeldBy(w, Collision, e);
    HeldBy(w, Combat, e);
    HeldBy(w, Timers, e);
    ComponentsPresent(BodyOf(w, e));
    AsksFor(Present(BodyOf(w, e)));
    hide Present, Asks, Consistent, IsServer;
  }

  lemma AsksFor(p: Bitset)
    ensures Asks(Network, p) <==> CLIENT in p
    ensures Asks(Movement, p) <==> MOVABLE in p && POSITION in p && STATE in p
    ensures Asks(Control, p) <==> POSITION in p && MOVABLE in p && CONTROLLER in p
    ensures Asks(StateMachine, p) <==> STATE in p
    ensures Asks(Collision, p) <==> POSITION in p && COLLIDABLE in p
    ensures Asks(Combat, p) <==> POSITION in p && MOVABLE in p && STATE in p && (HEALTH in p || ATTACKER in p)
    ensures Asks(Timers, p) <==> STATE in p && HEALTH in p
  {
    AsksFirst(Network, p);
    AsksFirst(Movement, p);
    AsksFirst(Control, p);
    AsksFirst(StateMachine, p);
    AsksFirst(Collision, p);
    AsksFirst(Combat, p);
    AsksFirst(Timers, p);
    hide Asks;
  }

  lemma AsksFirst(s: System, mask: Bitset)
    requires s in SERVER_SYSTEMS
    ensures var r := ServerRequirements(s);
            && |r| == (if s == Combat then 2 else 1)
            && (Asks(s, mask) <==> r[0] <= mask || (s == Combat && r[1] <= mask))
  {
  }

  predicate Asks(s: System, mask: Bitset) {
    exists k :: 0 <= k < |ServerRequirements(s)| && ServerRequirements(s)[k] <= mask
  }

  lemma ComponentsPresent(b: Body)
    ensures var p := Present(b);
            && (POSITION in p <==> b.position.Some?) && (STATE in p <==> b.state.Some?)
            && (MOVABLE in p <==> b.movable.Some?) && (CONTROLLER in p <==> b.controller)
            && (COLLIDABLE in p <==> b.collidable.Some?) && (CLIENT in p <==> b.clientId.Some?)
            && (HEALTH in p <==> b.health.Some?) && (ATTACKER in p <==> b.attacker.Some?)
  {
  }

  lemma HeldBy(w: World, s: System, e: EntityId)
    requires Consistent(w) && IsServer(w.systems) && s in SERVER_SYSTEMS
    ensures e in ListOf(w, s) <==> Asks(s, Present(BodyOf(w, e)))
  {
    assert Indexes(w.systems[s], w.entities);
    ServerTable(w.systems);
    if e in w.entities {
      FitsIsInclusion(ServerRequirements(s), w.entities[e].mask);
    } else {
      assert Present(EMPTY_BODY) == {};
    }
  }
}
