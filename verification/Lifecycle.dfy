/** Health, death, respawn and the once-per-attack flag, over every run of the simulation. */
module Lifecycle {
  import opened Bitmasks
  import opened Components
  import opened Ecs
  import opened EcsIndex
  import opened Frames
  import opened Rules
  import opened Machine

  // 0 <= health <= maxHealth, and no health left exactly while dying.
  ghost predicate LifeOk(b: Body) {
    b.health.Some? && b.state.Some? ==>
      var h := b.health.value;
      0 < h.maxPoints && 0 <= h.points <= h.maxPoints && (h.points == 0 <==> b.state == Some(Dying))
  }

  // Players have an attacker component, and so has whatever S_Timers finds attacking.
  ghost predicate Armed(b: Body) {
    && (b.health.Some? && b.state == Some(Attacking) ==> b.attacker.Some?)
    && (b.health.Some? && b.state.Some? && b.clientId.Some? ==> b.attacker.Some?)
  }

  ghost predicate Fine(w: World, e: EntityId) {
    LifeOk(BodyOf(w, e)) && Armed(BodyOf(w, e))
  }

  ghost predicate Living(w: World) {
    forall e :: Fine(w, e)
  }

  // The components an archetype's file gives an entity.
  function Built(a: Archetype): Body {
    ReadParts(FreshParts(EMPTY_BODY, a.bits, N_COMPONENT_TYPES), a.lines)
  }

  // b with fresh components of the requested factory types below n.
  function FreshParts(b: Body, bits: Bitset, n: nat): Body
    requires n <= N_COMPONENT_TYPES
  {
    if n == 0 then b
    else
      var b' := FreshParts(b, bits, n - 1);
      if n - 1 in bits && n - 1 in FACTORY then With(b', Fresh(n - 1)) else b'
  }

  // What the entity files are required to say: maximal health is positive, nobody is born dying, and players
  // and born attackers have an attacker component.
  predicate SoundArchetype(a: Archetype) {
    var b := Built(a);
    b.health.Some? && b.state.Some? ==>
      && 0 < b.health.value.maxPoints
      && b.state != Some(Dying)
      && (b.clientId.Some? || b.state == Some(Attacking) ==> b.attacker.Some?)
  }

  // The steps of the running game. The console's `health` command is not one of them, and entities come from
  // files only.
  ghost predicate GameStep(w: World, a: Action) {
    match a
    case CreateEntity(_, _) => false
    case AttachComponent(_, _) => false
    case DetachComponent(_, _) => false
    case SpawnEntity(archetype) => SoundArchetype(archetype)
    case TakeInput(e) => e in ListOf(w, Network)
    case _ => true
  }

  ghost predicate GameRun(w: World, actions: seq<Action>) {
    actions == [] ||
    (GameRun(w, actions[..|actions| - 1]) && GameStep(Run(w, actions[..|actions| - 1]), actions[|actions| - 1]))
  }

  // ---------- spawning ----------

  // The loop of addEntity builds the fresh components and leaves every other entity alone.
  lemma {:induction false} AddComponentsBuild(w: World, e: EntityId, bits: Bitset, n: nat)
    requires n <= N_COMPONENT_TYPES && e in w.entities && w.entities[e] == NO_DATA
    ensures var w' := AddComponents(w, e, bits, n);
            && BodyOf(w', e) == FreshParts(EMPTY_BODY, bits, n)
            && e in w'.entities && w'.entities[e].mask == Below(bits * FACTORY, n)
  {
    AddComponentsMask(w, e, bits, n);
    if n > 0 {
      AddComponentsBuild(w, e, bits, n - 1);
      assert n - 1 !in Below(bits * FACTORY, n - 1);
    }
  }

  lemma {:induction false} BuiltFacts(bits: Bitset, n: nat, lines: seq<Component>)
    requires n <= N_COMPONENT_TYPES
    ensures var b := ReadParts(FreshParts(EMPTY_BODY, bits, n), lines);
            && (b.health.Some? ==> b.health.value.points == b.health.value.maxPoints)
            && (b.attacker.Some? ==> !b.attacker.value.attacked && b.attacker.value.timer == 0)
            && (b.attacker.Some? ==> ATTACKER in bits && ATTACKER < n)
    decreases n, |lines|
  {
    if lines != [] {
      BuiltFacts(bits, n, lines[..|lines| - 1]);
    } else if n > 0 {
      BuiltFacts(bits, n - 1, []);
    }
  }

  lemma SpawnBuilds(w: World, a: Archetype)
    requires Consistent(w) && AddedId(w, NULL_ID) != NULL_ID
    ensures var w', e := Spawn(w, a), AddedId(w, NULL_ID);
            && e in w'.entities && BodyOf(w', e) == Built(a)
            && (forall f :: f != e ==> BodyOf(w', f) == BodyOf(w, f))
  {
    var e := AddedId(w, NULL_ID);
    var start := w.(entities := w.entities[e := NO_DATA], idCounter := w.idCounter + 1);
    AddComponentsBuild(start, e, a.bits, N_COMPONENT_TYPES);
    EmptyRecordConsistent(w, e, w.idCounter + 1);
    AddComponentsConsistent(start, e, a.bits, N_COMPONENT_TYPES);
    var built := BeforeClosing(w, a.bits, NULL_ID);
    assert built == AddComponents(start, e, a.bits, N_COMPONENT_TYPES);
    forall f | f != e
      ensures BodyOf(built, f) == BodyOf(w, f)
    {
      assert f in built.entities <==> f in start.entities;
    }
  }

  lemma SpawnLiving(w: World, a: Archetype)
    requires Consistent(w) && Living(w) && SoundArchetype(a)
    ensures Living(Spawn(w, a))
  {
    var w' := Spawn(w, a);
    var e := AddedId(w, NULL_ID);
    if e != NULL_ID {
      SpawnBuilds(w, a);
      BuiltFacts(a.bits, N_COMPONENT_TYPES, a.lines);
      forall f
        ensures Fine(w', f)
      {
        assert Fine(w, f);
      }
    }
  }

  // ---------- the rules, one entity f at a time ----------

  // A change of state into anything but Dying, of an entity that is not dying.
  lemma ChangeFine(w: World, e: EntityId, next: EntityState, force: bool, f: EntityId)
    requires Fine(w, f) && next != Dying && !(force && InState(w, e, Dying))
    requires next == Attacking ==> BodyOf(w, e).health.None? || BodyOf(w, e).attacker.Some?
    ensures Fine(ChangeState(w, e, next, force), f)
  {
  }

  lemma MoveFine(w: World, e: EntityId, d: Direction, f: EntityId)
    requires Fine(w, f)
    ensures Fine(OnMove(w, e, d), f)
    ensures BodyOf(OnMove(w, e, d), e).(state := None) == BodyOf(w, e).(state := None)
  {
    if e in ListOf(w, StateMachine) && !InState(w, e, Attacking) && !InState(w, e, Dying) {
      ChangeFine(Queue(w, e, MovingEvent(d)), e, Walking, false, f);
    }
  }

  lemma AttackFine(w: World, e: EntityId, f: EntityId)
    requires Fine(w, e) && Fine(w, f) && BodyOf(w, e).clientId.Some?
    ensures Fine(OnAttack(w, e), f)
  {
  }

  lemma MovesFine(w: World, e: EntityId, f: EntityId, x: int, y: int)
    requires Fine(w, f)
    ensures Fine(MoveY(MoveX(w, e, x), e, y), f)
    ensures BodyOf(MoveY(MoveX(w, e, x), e, y), e).clientId == BodyOf(w, e).clientId
  {
    MoveFine(w, e, if x > 0 then Right else Left, f);
    MoveFine(MoveX(w, e, x), e, if y > 0 then Down else Up, f);
  }

  lemma InputFine(w: World, e: EntityId, f: EntityId)
    requires Fine(w, e) && Fine(w, f) && BodyOf(w, e).clientId.Some?
    ensures Fine(InputStep(w, e), f)
  {
    var p := InputOf(w, e);
    var w' := w.(input := w.input[e := p]);
    assert Fine(w', e) && Fine(w', f);
    MovesFine(w', e, e, p.movedX, p.movedY);
    MovesFine(w', e, f, p.movedX, p.movedY);
    AttackFine(MoveY(MoveX(w', e, p.movedX), e, p.movedY), e, f);
  }

  // The wound itself: only the victim's health is out of step with its state, by at most the last point.
  lemma BledAlmostFine(w: World, s: EntityId, r: EntityId, f: EntityId)
    requires Lands(w, s, r) && Fine(w, s) && Fine(w, r) && Fine(w, f)
    ensures var bled := Bled(w, s, r);
            && Armed(BodyOf(bled, f))
            && (f != r ==> LifeOk(BodyOf(bled, f)))
            && BodyOf(bled, r).health == Some(Wounded(BodyOf(w, r).health.value))
            && BodyOf(bled, r).state == BodyOf(w, r).state
  {
  }

  lemma ReeledFine(w: World, r: EntityId, f: EntityId)
    requires Armed(BodyOf(w, f)) && (f != r ==> LifeOk(BodyOf(w, f)))
    requires BodyOf(w, r).health.Some? && BodyOf(w, r).state.Some? ==>
        var h := BodyOf(w, r).health.value;
        0 < h.maxPoints && 0 <= h.points <= h.maxPoints && (InState(w, r, Dying) ==> h.points == 0)
    ensures Fine(Reeled(w, r), f)
  {
  }

  lemma KnockedFine(w: World, s: EntityId, r: EntityId, f: EntityId)
    requires Fine(w, f)
    ensures Fine(Knocked(w, s, r), f)
  {
  }

  // The wounded entity dies exactly when its last health goes.
  lemma StrikeFine(w: World, s: EntityId, r: EntityId, f: EntityId)
    requires Fine(w, s) && Fine(w, r) && Fine(w, f)
    ensures Fine(Strike(w, s, r), f)
  {
    if Lands(w, s, r) {
      BledAlmostFine(w, s, r, f);
      ReeledFine(Bled(w, s, r), r, f);
      KnockedFine(Reeled(Bled(w, s, r), r), s, r, f);
    }
  }

  lemma TickedFine(b: Body, dt: nat, player: bool)
    requires LifeOk(b) && Armed(b)
    ensures LifeOk(Ticked(b, dt, player)) && Armed(Ticked(b, dt, player))
  {
  }

  lemma TimerFine(w: World, e: EntityId, dt: nat, f: EntityId)
    requires Fine(w, e) && Fine(w, f)
    ensures Fine(TimerStep(w, e, dt), f)
  {
    TickedFine(BodyOf(w, e), dt, e in ListOf(w, Network));
    var w' := TimerStep(w, e, dt);
    assert BodyOf(w', f) == if f == e && e in w.entities then Ticked(BodyOf(w, e), dt, e in ListOf(w, Network))
                            else BodyOf(w, f);
  }

  // Movement, collision, areas, labels and events leave health, flags and timers alone.
  ghost predicate SameLife(b: Body, c: Body) {
    b.health == c.health && b.state == c.state && (b.clientId.Some? <==> c.clientId.Some?) &&
    (b.attacker.Some? <==> c.attacker.Some?) &&
    (b.attacker.Some? ==> b.attacker.value.(area := c.attacker.value.area) == c.attacker.value)
  }

  lemma SameLifeFine(w: World, e: EntityId, b: Body, f: EntityId)
    requires Fine(w, f) && SameLife(BodyOf(w, e), b)
    ensures Fine(SetBody(w, e, b), f)
  {
  }

  lemma MotionFine(w: World, e: EntityId, coefficient: Vec, dt: nat, magnitude: real, f: EntityId)
    requires Fine(w, f)
    ensures Fine(MotionStep(w, e, coefficient, dt, magnitude), f)
  {
    SameLifeFine(w, e, BodyOf(MotionStep(w, e, coefficient, dt, magnitude), e), f);
  }

  lemma AreaFine(w: World, e: EntityId, f: EntityId)
    requires Fine(w, f)
    ensures Fine(AreaStep(w, e), f)
  {
  }

  lemma LabelFine(w: World, e: EntityId, c: Component, f: EntityId)
    requires Fine(w, f)
    ensures Fine(Labelled(w, e, c), f)
  {
  }

  lemma ResolveFine(w: World, e: EntityId, p: Position, c: Collidable, events: seq<EntityEvent>, f: EntityId)
    requires Fine(w, f)
    ensures Fine(Resolve(w, e, p, c, events), f)
  {
    var b := BodyOf(w, e).(position := Some(p), collidable := Some(c));
    SameLifeFine(w, e, b, f);
    QueueAllFramed(SetBody(w, e, b), e, events);
  }

  lemma HandleFine(w: World, s: System, e: EntityId, event: EntityEvent, f: EntityId)
    requires Fine(w, f)
    ensures Fine(Deliver(w, s, e, event), f)
  {
    if s == StateMachine && event == BecameIdle {
      ChangeFine(w, e, Idle, false, f);
    }
  }

  lemma EraseFine(w: World, e: EntityId, f: EntityId)
    requires Fine(w, f)
    ensures Fine(RemoveEntity(w, e), f)
  {
  }

  lemma PurgeFine(w: World, f: EntityId)
    ensures Fine(Purge(w), f)
  {
  }

  lemma RuleFine(w: World, a: Action, f: EntityId)
    requires !IsEntityEdit(a) && !a.TakeInput? && !a.RunTimer? && !a.Attack? && Fine(w, f)
    ensures Fine(Apply(w, a), f)
  {
    match a {
      case Label(e, c) => LabelFine(w, e, c, f);
      case MoveBody(e, coefficient, dt, magnitude) => MotionFine(w, e, coefficient, dt, magnitude, f);
      case ResolveMap(e, p, c, events) => ResolveFine(w, e, p, c, events, f);
      case PlaceArea(e) => AreaFine(w, e, f);
      case Handle(s, e, event) => HandleFine(w, s, e, event, f);
      case _ =>
    }
  }

  lemma StepFine(w: World, a: Action, f: EntityId)
    requires Consistent(w) && IsServer(w.systems) && Living(w) && GameStep(w, a)
    ensures Fine(Apply(w, a), f)
  {
    hide LifeOk, Armed, Fine, InputStep, TimerStep, Strike, RemoveEntity, Spawn, Purge;
    assert Fine(w, f);
    match a {
      case SpawnEntity(archetype) => SpawnLiving(w, archetype);
      case EraseEntity(e) => EraseFine(w, e, f);
      case PurgeEntities => PurgeFine(w, f);
      case TakeInput(e) =>
        DereferenceSafe(w, Network, e, CLIENT);
        assert Fine(w, e);
        InputFine(w, e, f);
      case RunTimer(e, dt) =>
        assert Fine(w, e);
        TimerFine(w, e, dt, f);
      case Attack(s, r) =>
        assert Fine(w, s) && Fine(w, r);
        StrikeFine(w, s, r, f);
      case _ => RuleFine(w, a, f);
    }
  }

  // At every step boundary of every run of the game, whatever the order of systems, observers and entities.
  lemma {:induction false} LifecycleInEveryRun(w: World, actions: seq<Action>)
    requires Consistent(w) && IsServer(w.systems) && Living(w) && GameRun(w, actions)
    ensures Living(Run(w, actions))
  {
    if actions != [] {
      var before := actions[..|actions| - 1];
      LifecycleInEveryRun(w, before);
      IndexInEveryRun(w, before);
      forall f
        ensures Fine(Run(w, actions), f)
      {
        StepFine(Run(w, before), actions[|actions| - 1], f);
      }
    }
  }

  // Whatever S_Timers finds attacking has the attacker component it dereferences.
  lemma TimersDereferenceSafe(w: World, e: EntityId)
    requires Consistent(w) && IsServer(w.systems) && Living(w)
    requires e in ListOf(w, Timers) && InState(w, e, Attacking)
    ensures BodyOf(w, e).attacker.Some?
  {
    DereferenceSafe(w, Timers, e, HEALTH);
    assert Fine(w, e);
  }
}
