/**
 The server's systems as objects over the entity manager: message dispatch and the loops of S_State, S_Combat,
 S_Timers, S_Network, S_Movement, S_Control and S_Collision. Every method is proved to take the steps of Machine.dfy,
 and every component it dereferences is proved to be there.
 */
module Game {
  import opened Components
  import opened Ecs
  import opened EcsIndex
  import opened EntityObjects
  import opened Rules
  import opened Motion

  datatype MessageKind =
    | MoveKind | IsMovingKind | SwitchStateKind | AttackKind | BeingAttackedKind | HurtKind | RespawnKind

  datatype Message =
    | Move(receiver: EntityId, direction: Direction)
    | IsMoving(receiver: EntityId)
    | SwitchState(receiver: EntityId, state: EntityState)
    | Attacks(receiver: EntityId)
    | BeingAttacked(sender: EntityId, receiver: EntityId)
    | Hurts(receiver: EntityId)
    | Respawns(receiver: EntityId)
  {
    function Kind(): MessageKind {
      match this
      case Move(_, _) => MoveKind
      case IsMoving(_) => IsMovingKind
      case SwitchState(_, _) => SwitchStateKind
      case Attacks(_) => AttackKind
      case BeingAttacked(_, _) => BeingAttackedKind
      case Hurts(_) => HurtKind
      case Respawns(_) => RespawnKind
    }
  }

  // Who subscribes to what, in the systems' constructors.
  function Subscribers(k: MessageKind): set<System> {
    match k
    case MoveKind => {StateMachine}
    case IsMovingKind => {Movement}
    case SwitchStateKind => {StateMachine}
    case AttackKind => {StateMachine}
    case BeingAttackedKind => {Combat}
    case HurtKind => {StateMachine, Network}
    case RespawnKind => {Network}
  }

  // The one subscriber that changes the world; S_Network only broadcasts a packet on Hurt.
  function Target(k: MessageKind): System {
    match k
    case MoveKind => StateMachine
    case IsMovingKind => Movement
    case SwitchStateKind => StateMachine
    case AttackKind => StateMachine
    case BeingAttackedKind => Combat
    case HurtKind => StateMachine
    case RespawnKind => Network
  }

  function OnSwitch(w: World, e: EntityId, s: EntityState): World {
    if e in ListOf(w, StateMachine) then ChangeState(w, e, s, false) else w
  }

  function OnRespawn(w: World, e: EntityId): World {
    if e in ListOf(w, Network) then SetBody(w, e, Respawned(BodyOf(w, e))) else w
  }

  // What a dispatched message does, whatever the order of the observers.
  function Effect(w: World, m: Message): World {
    match m
    case Move(e, d) => OnMove(w, e, d)
    case IsMoving(e) => OnIsMoving(w, e)
    case SwitchState(e, s) => OnSwitch(w, e, s)
    case Attacks(e) => OnAttack(w, e)
    case BeingAttacked(s, r) => Strike(w, s, r)
    case Hurts(e) => OnHurt(w, e)
    case Respawns(e) => OnRespawn(w, e)
  }

  // Dispatch re-enters itself through changeState; this is why it ends.
  function Rank(w: World, m: Message): nat {
    match m
    case SwitchState(e, s) => if InState(w, e, s) then 0 else 2
    case BeingAttacked(_, _) => 3
    case _ => 2
  }

  lemma SetSame(w: World, e: EntityId)
    ensures SetBody(w, e, BodyOf(w, e)) == w
  {
  }

  // The components system s dereferences without a check.
  predicate EquippedFor(s: System, b: Body) {
    match s
    case Network => b.clientId.Some?
    case Movement => b.movable.Some? && b.position.Some?
    case Control => b.movable.Some?
    case StateMachine => b.state.Some?
    case Collision => b.position.Some? && b.collidable.Some?
    case Combat => b.position.Some? && b.movable.Some? && b.state.Some?
    case Timers => b.state.Some? && b.health.Some?
    case _ => true
  }

  // Every system is there, and holds entities that have what it dereferences.
  ghost predicate Equipped(w: World) {
    && (forall s :: s in SERVER_SYSTEMS ==> s in w.systems)
    && (forall s, e :: s in w.systems && e in w.systems[s].members ==> EquippedFor(s, BodyOf(w, e)))
  }

  lemma ConsistentIsEquipped(w: World)
    requires Consistent(w) && IsServer(w.systems)
    ensures Equipped(w)
  {
    forall s, e | s in w.systems && e in w.systems[s].members
      ensures EquippedFor(s, BodyOf(w, e))
    {
      EquippedOne(w, s, e);
    }
  }

  lemma EquippedOne(w: World, s: System, e: EntityId)
    requires Consistent(w) && IsServer(w.systems) && e in ListOf(w, s)
    ensures EquippedFor(s, BodyOf(w, e))
  {
    forall t | t in Dereferenced(s)
      ensures Has(BodyOf(w, e), t)
    {
      DereferenceSafe(w, s, e, t);
    }
    match s {
      case Network => assert CLIENT in Dereferenced(s);
      case Movement => assert MOVABLE in Dereferenced(s) && POSITION in Dereferenced(s);
      case Control => assert MOVABLE in Dereferenced(s);
      case StateMachine => assert STATE in Dereferenced(s);
      case Collision => assert POSITION in Dereferenced(s) && COLLIDABLE in Dereferenced(s);
      case Combat => assert POSITION in Dereferenced(s) && MOVABLE in Dereferenced(s) && STATE in Dereferenced(s);
      case Timers => assert STATE in Dereferenced(s) && HEALTH in Dereferenced(s);
      case _ =>
    }
  }

  ghost predicate SameParts(b: Body, c: Body) {
    && (b.position.Some? <==> c.position.Some?) && (b.state.Some? <==> c.state.Some?)
    && (b.movable.Some? <==> c.movable.Some?) && (b.collidable.Some? <==> c.collidable.Some?)
    && (b.clientId.Some? <==> c.clientId.Some?) && (b.health.Some? <==> c.health.Some?)
    && (b.attacker.Some? <==> c.attacker.Some?)
  }

  lemma StillEquipped(w: World, e: EntityId, b: Body)
    requires Equipped(w) && SameParts(b, BodyOf(w, e))
    ensures Equipped(SetBody(w, e, b))
  {
    forall s, f | s in w.systems && f in w.systems[s].members
      ensures EquippedFor(s, BodyOf(SetBody(w, e, b), f))
    {
      assert EquippedFor(s, BodyOf(w, f));
    }
  }

  lemma SameEntitiesEquipped(w: World, w': World)
    requires Equipped(w) && w'.entities == w.entities && w'.systems == w.systems
    ensures Equipped(w')
  {
    forall s, e | s in w.systems && e in w.systems[s].members
      ensures EquippedFor(s, BodyOf(w', e))
    {
      assert EquippedFor(s, BodyOf(w, e));
    }
  }

  lemma BledInSteps(w: World, s: EntityId, r: EntityId, h: Health, a: Attacker)
    requires Lands(w, s, r) && BodyOf(w, r).health == Some(h) && BodyOf(w, s).attacker == Some(a)
    ensures var hurt := SetBody(w, r, With(BodyOf(w, r), AHealth(Wounded(h))));
            && Has(BodyOf(hurt, s), ATTACKER)
            && Bled(w, s, r) == SetBody(hurt, s, With(BodyOf(hurt, s), AnAttacker(a.(attacked := true))))
  {
  }

  lemma ReeledInSteps(w: World, s: EntityId, r: EntityId, h: Health)
    requires Lands(w, s, r) && BodyOf(w, r).health == Some(h)
    ensures var bled := Bled(w, s, r);
            && BodyOf(bled, r).state == BodyOf(w, r).state
            && Reeled(bled, r) == if Wounded(h).points == 0 then ChangeState(bled, r, Dying, true) else OnHurt(bled, r)
  {
  }

  lemma StillStriking(w: World, s: EntityId, r: EntityId)
    requires Lands(w, s, r)
    ensures var reeled := Reeled(Bled(w, s, r), r);
            && (Has(BodyOf(reeled, r), MOVABLE) <==> Has(BodyOf(w, r), MOVABLE))
            && Has(BodyOf(reeled, s), ATTACKER)
  {
  }

  class GameSystems {
    const em: EntityManager
    // the observers of Hurt, the one message with two of them, in the order they subscribed
    const hurtObservers: seq<System>

    ghost predicate Valid()
      reads em`entities, em`idCounter, em`log
      reads em.sm`order, em.sm`systems, em.sm.systems.Values`members, em.sm`events, em.sm`input
    {
      em.Valid() && Equipped(em.World()) && hurtObservers in [[Network, StateMachine], [StateMachine, Network]]
    }

    constructor (em: EntityManager, hurtObservers: seq<System>)
      requires em.Valid() && Equipped(em.World())
      requires hurtObservers in [[Network, StateMachine], [StateMachine, Network]]
      ensures Valid() && this.em == em
    {
      this.em, this.hurtObservers := em, hurtObservers;
    }

    function ObserversOf(k: MessageKind): seq<System> {
      match k
      case MoveKind => [StateMachine]
      case IsMovingKind => [Movement]
      case SwitchStateKind => [StateMachine]
      case AttackKind => [StateMachine]
      case BeingAttackedKind => [Combat]
      case HurtKind => hurtObservers
      case RespawnKind => [Network]
    }

    method Store(e: EntityId, c: Component)
      requires Valid() && Has(BodyOf(em.World(), e), c.Type())
      modifies em`entities
      ensures Valid() && em.World() == SetBody(old(em.World()), e, With(BodyOf(old(em.World()), e), c))
    {
      hide EntityManager.World, EntityManager.Valid;
      StillEquipped(em.World(), e, With(BodyOf(em.World(), e), c));
      hide With;
      em.WriteComponent(e, c);
    }

    method QueueEvent(e: EntityId, event: EntityEvent)
      requires Valid()
      modifies em.sm`events
      ensures Valid() && em.World() == Queue(old(em.World()), e, event)
    {
      SameEntitiesEquipped(em.World(), Queue(em.World(), e, event));
      em.QueueEvent(e, event);
    }

    method InputFor(e: EntityId) returns (p: PlayerInput)
      requires Valid()
      modifies em.sm`input
      ensures Valid() && p == InputOf(old(em.World()), e)
      ensures em.World() == old(em.World()).(input := old(em.World()).input[e := p])
    {
      SameEntitiesEquipped(em.World(), em.World().(input := em.World().input[e := InputOf(em.World(), e)]));
      p := em.InputFor(e);
    }

    method PopEvent(e: EntityId) returns (event: Option<EntityEvent>)
      requires Valid()
      modifies em.sm`events
      ensures Valid()
      ensures var queue := EventsOf(old(em.World()), e);
              if queue == [] then event == None && em.World() == old(em.World())
              else event == Some(queue[0]) &&
                   em.World() == old(em.World()).(events := old(em.World()).events[e := queue[1..]])
    {
      ghost var w := em.World();
      if EventsOf(w, e) != [] {
        SameEntitiesEquipped(w, w.(events := w.events[e := EventsOf(w, e)[1..]]));
      }
      event := em.PopEvent(e);
    }

    method HasEntity(s: System, e: EntityId) returns (has: bool)
      requires Valid() && s in SERVER_SYSTEMS
      ensures has <==> e in ListOf(em.World(), s)
      ensures has ==> EquippedFor(s, BodyOf(em.World(), e))
    {
      hide EntityManager.World, EntityManager.Valid;
      has := em.SystemHas(s, e);
    }

    // ---------- messages ----------

    method Dispatch(m: Message)
      requires Valid()
      modifies em`entities, em`log, em.sm`events
      ensures Valid() && em.World() == Effect(old(em.World()), m)
      decreases Rank(em.World(), m), 4
    {
      hide EntityManager.World, EntityManager.Valid;
      ghost var w := em.World();
      var list := ObserversOf(m.Kind());
      for i := 0 to |list|
        invariant Valid()
        invariant em.World() == if Target(m.Kind()) in list[..i] then Effect(w, m) else w
      {
        assert list[..i + 1] == list[..i] + [list[i]];
        assert list[i] !in list[..i];
        Notify(list[i], m);
      }
      assert list[..|list|] == list;
    }

    // The observer's notify.
    method Notify(s: System, m: Message)
      requires Valid() && s in Subscribers(m.Kind())
      modifies em`entities, em`log, em.sm`events
      ensures Valid() && em.World() == if s == Target(m.Kind()) then Effect(old(em.World()), m) else old(em.World())
      decreases Rank(em.World(), m), 3
    {
      hide EntityManager.World, EntityManager.Valid;
      match s {
        case StateMachine => NotifyState(m);
        case Combat => NotifyCombat(m);
        case Movement => NotifyMovement(m);
        case Network => var _ := NotifyNetwork(m);
      }
    }

    method NotifyState(m: Message)
      requires Valid() && StateMachine in Subscribers(m.Kind())
      modifies em`entities, em`log, em.sm`events
      ensures Valid() && em.World() == Effect(old(em.World()), m)
      decreases Rank(em.World(), m), 2
    {
      hide EntityManager.World, EntityManager.Valid;
      var has := HasEntity(StateMachine, m.receiver);
      if !has {
        return;
      }
      match m {
        case Move(e, d) => NotifyMove(e, d);
        case Attacks(e) => NotifyAttack(e);
        case Hurts(e) => NotifyHurt(e);
        case SwitchState(e, s) => SwitchTo(e, s, false);
      }
    }

    method NotifyMove(e: EntityId, d: Direction)
      requires Valid() && e in ListOf(em.World(), StateMachine)
      modifies em`entities, em`log, em.sm`events
      ensures Valid() && em.World() == OnMove(old(em.World()), e, d)
      decreases 2, 1
    {
      hide EntityManager.World, EntityManager.Valid;
      var state := em.GetComponent(e, STATE);
      if state.value.state == Attacking || state.value.state == Dying {
        return;
      }
      QueueEvent(e, MovingEvent(d));
      SwitchTo(e, Walking, false);
    }

    method NotifyAttack(e: EntityId)
      requires Valid() && e in ListOf(em.World(), StateMachine)
      modifies em`entities, em`log, em.sm`events
      ensures Valid() && em.World() == OnAttack(old(em.World()), e)
      decreases 2, 1
    {
      hide EntityManager.World, EntityManager.Valid;
      var state := em.GetComponent(e, STATE);
      if state.value.state != Dying && state.value.state != Attacking {
        QueueEvent(e, BeganAttacking);
        SwitchTo(e, Attacking, false);
      }
    }

    method NotifyHurt(e: EntityId)
      requires Valid() && e in ListOf(em.World(), StateMachine)
      modifies em`entities, em`log, em.sm`events
      ensures Valid() && em.World() == OnHurt(old(em.World()), e)
      decreases 2, 1
    {
      hide EntityManager.World, EntityManager.Valid;
      var state := em.GetComponent(e, STATE);
      if state.value.state != Dying {
        SwitchTo(e, Hurt, false);
      }
    }

    // S_State::changeState.
    method SwitchTo(e: EntityId, next: EntityState, force: bool)
      requires Valid() && Has(BodyOf(em.World(), e), STATE)
      modifies em`entities, em`log, em.sm`events
      ensures Valid() && em.World() == ChangeState(old(em.World()), e, next, force)
      decreases if InState(em.World(), e, next) then 0 else 1, 0
    {
      hide EntityManager.World, EntityManager.Valid;
      SetSame(em.World(), e);
      var state := em.GetComponent(e, STATE);
      if next == state.value.state {
        return;
      }
      if !force && state.value.state == Dying {
        return;
      }
      ghost var w := em.World();
      Store(e, AState(next));
      assert em.World() == ChangeState(w, e, next, force);
      ghost var changed := em.World();
      SetSame(changed, e);
      Dispatch(SwitchState(e, next));
    }

    method NotifyMovement(m: Message)
      requires Valid() && m.IsMoving?
      modifies em.sm`events
      ensures Valid() && em.World() == Effect(old(em.World()), m)
    {
      hide EntityManager.World, EntityManager.Valid;
      var has := HasEntity(Movement, m.receiver);
      if !has {
        return;
      }
      var mov := em.GetComponent(m.receiver, MOVABLE);
      if mov.value.movable.velocity != ZERO {
        return;
      }
      QueueEvent(m.receiver, BecameIdle);
    }

    // The entity whose Hurt packet is broadcast, if any, is returned.
    method NotifyNetwork(m: Message) returns (broadcast: Option<EntityId>)
      requires Valid() && (m.Respawns? || m.Hurts?)
      modifies em`entities
      ensures Valid() && em.World() == if m.Respawns? then Effect(old(em.World()), m) else old(em.World())
      ensures broadcast ==
              if m.Hurts? && m.receiver in ListOf(old(em.World()), Network) then Some(m.receiver) else None
    {
      hide EntityManager.World, EntityManager.Valid;
      var e := m.receiver;
      var has := HasEntity(Network, e);
      if !has {
        return None;
      }
      if m.Hurts? {
        return Some(e);
      }
      broadcast := None;
      SetSame(em.World(), e);
      var pos := em.GetComponent(e, POSITION);
      if pos.None? {
        return;
      }
      Store(e, APosition(Position(SPAWN_POINT, pos.value.position.at, 1)));
    }

    method NotifyCombat(m: Message)
      requires Valid() && m.BeingAttacked?
      modifies em`entities, em`log, em.sm`events
      ensures Valid() && em.World() == Strike(old(em.World()), m.sender, m.receiver)
      decreases 3, 1
    {
      hide EntityManager.World, EntityManager.Valid;
      var lands, victim, attacker := CanLand(m.sender, m.receiver);
      if !lands {
        Note(Struck(m.sender, m.receiver));
        return;
      }
      hide Bled, Reeled, Knocked, Lands;
      StillStriking(em.World(), m.sender, m.receiver);
      HurtVictim(m.sender, m.receiver, victim, attacker);
      PushVictim(m.sender, m.receiver);
      Note(Struck(m.sender, m.receiver));
    }

    // The checks before any damage is done.
    method CanLand(s: EntityId, r: EntityId) returns (lands: bool, victim: Health, attacker: Attacker)
      requires Valid()
      ensures lands <==> Lands(em.World(), s, r)
      ensures lands ==> BodyOf(em.World(), r).health == Some(victim) && BodyOf(em.World(), s).attacker == Some(attacker)
      ensures lands ==> BodyOf(em.World(), r).state.Some? && BodyOf(em.World(), r).movable.Some?
    {
      hide EntityManager.World, EntityManager.Valid;
      lands, victim, attacker := false, Fresh(HEALTH).health, Fresh(ATTACKER).attacker;
      var hasReceiver := HasEntity(Combat, r);
      var hasSender := HasEntity(Combat, s);
      if !hasReceiver || !hasSender {
        return;
      }
      var h := em.GetComponent(r, HEALTH);
      var a := em.GetComponent(s, ATTACKER);
      if h.None? || a.None? {
        return;
      }
      var hasState := em.HasSystem(StateMachine);
      if !hasState {
        return;
      }
      if a.value.attacker.attacked {
        return;
      }
      lands, victim, attacker := true, h.value.health, a.value.attacker;
    }

    // The damage and the flag.
    method Bleed(s: EntityId, r: EntityId, h: Health, a: Attacker)
      requires Valid() && Lands(em.World(), s, r)
      requires BodyOf(em.World(), r).health == Some(h) && BodyOf(em.World(), s).attacker == Some(a)
      modifies em`entities
      ensures Valid() && em.World() == Bled(old(em.World()), s, r)
    {
      hide EntityManager.World, EntityManager.Valid;
      ghost var w := em.World();
      BledInSteps(w, s, r, h, a);
      var wounded := h.(points := if h.points > 1 then h.points - 1 else 0);
      assert wounded == Wounded(h) && Has(BodyOf(w, r), HEALTH);
      hide Bled, Lands, Wounded, SetBody, With, BodyOf, Has, GameSystems.Valid;
      Store(r, AHealth(wounded));
      Store(s, AnAttacker(a.(attacked := true)));
    }

    // Damage, the flag, and death or Hurt.
    method HurtVictim(s: EntityId, r: EntityId, h: Health, a: Attacker)
      requires Valid() && Lands(em.World(), s, r) && Has(BodyOf(em.World(), r), STATE)
      requires BodyOf(em.World(), r).health == Some(h) && BodyOf(em.World(), s).attacker == Some(a)
      modifies em`entities, em`log, em.sm`events
      ensures Valid() && em.World() == Reeled(Bled(old(em.World()), s, r), r)
      decreases 3, 0
    {
      hide EntityManager.World, EntityManager.Valid, Bled, Reeled, Lands;
      ReeledInSteps(em.World(), s, r, h);
      Bleed(s, r, h, a);
      if Wounded(h).points == 0 {
        SwitchTo(r, Dying, true);
      } else {
        Dispatch(Hurts(r));
      }
    }

    ghost method Note(entry: Entry)
      requires Valid()
      modifies em`log
      ensures Valid() && em.World() == Noted(old(em.World()), entry)
    {
      SameEntitiesEquipped(em.World(), Noted(em.World(), entry));
      em.Note(entry);
    }

    // The knockback.
    method PushVictim(s: EntityId, r: EntityId)
      requires Valid() && Has(BodyOf(em.World(), r), MOVABLE) && Has(BodyOf(em.World(), s), ATTACKER)
      modifies em`entities
      ensures Valid() && em.World() == Knocked(old(em.World()), s, r)
    {
      hide EntityManager.World, EntityManager.Valid;
      var mov := em.GetComponent(s, MOVABLE);
      if mov.None? {
        return;
      }
      var attacker := em.GetComponent(s, ATTACKER);
      var knockback := attacker.value.attacker.knockback;
      var d := mov.value.movable.direction;
      if d == Left || d == Up {
        knockback := -knockback;
      }
      var push := if d == Left || d == Right then Vec(knockback, 0.0) else Vec(0.0, knockback);
      var pushed := em.GetComponent(r, MOVABLE);
      Store(r, AMovable(pushed.value.movable.(velocity := push)));
    }
  }
}
