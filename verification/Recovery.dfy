/** How being hurt and how an attack end: what S_Timers does to each, turn by turn, over runs. */
module Recovery {
  import opened Components
  import opened Ecs
  import opened EcsIndex
  import opened Motion
  import opened Rules
  import opened Machine
  import opened Lifecycle
  import opened Death
  import opened Frames
  import opened Settling
  import opened Wounds

  // ---------- one turn ----------

  // Hurt: the timer runs, and at hurtDuration it starts over and the entity is idle.
  lemma HurtTurn(w: World, e: EntityId, dt: nat)
    requires InState(w, e, Hurt) && BodyOf(w, e).health.Some?
    ensures var b, b', h := BodyOf(w, e), BodyOf(TimerStep(w, e, dt), e), BodyOf(w, e).health.value;
            if h.timer + dt < h.hurtDuration then b' == b.(health := Some(h.(timer := h.timer + dt)))
            else b' == b.(health := Some(h.(timer := 0)), state := Some(Idle))
  {
  }

  // Dying: at deathDuration it comes back with all its health, a player at the start, on the first elevation.
  lemma DyingTurn(w: World, e: EntityId, dt: nat)
    requires InState(w, e, Dying) && BodyOf(w, e).health.Some?
    ensures var b, b', h := BodyOf(w, e), BodyOf(TimerStep(w, e, dt), e), BodyOf(w, e).health.value;
            if h.timer + dt < h.deathDuration then b' == b.(health := Some(h.(timer := h.timer + dt)))
            else
              && b' == b.(health := Some(h.(timer := 0, points := h.maxPoints)), state := Some(Idle),
                          position := b'.position)
              && (b'.position.Some? <==> b.position.Some?)
              && (b.position.Some? ==>
                    if e in ListOf(w, Network) then
                      b'.position.value.at == Vec(64.0, 64.0) && b'.position.value.elevation == 1 &&
                      b'.position.value.previous == b.position.value.at
                    else b'.position == b.position)
  {
  }

  // Attacking: at attackDuration the attack is over, and the next one may hit again.
  lemma AttackTurn(w: World, e: EntityId, dt: nat)
    requires InState(w, e, Attacking) && BodyOf(w, e).attacker.Some?
    ensures var b, b', a := BodyOf(w, e), BodyOf(TimerStep(w, e, dt), e), BodyOf(w, e).attacker.value;
            if a.timer + dt < a.attackDuration then b' == b.(attacker := Some(a.(timer := a.timer + dt)))
            else b' == b.(attacker := Some(a.(timer := 0, attacked := false)), state := Some(Idle))
  {
  }

  // Otherwise nothing happens, and never to anyone else.
  lemma NoTurn(w: World, e: EntityId, dt: nat, f: EntityId)
    requires f != e || !(InState(w, e, Hurt) || InState(w, e, Dying) || InState(w, e, Attacking))
    ensures BodyOf(TimerStep(w, e, dt), f) == BodyOf(w, f)
  {
  }

  // ---------- runs ----------

  // What S_Timers waits for: e is in the state, its timer for that at `waited` of `duration`.
  ghost predicate WaitsIn(w: World, e: EntityId, s: EntityState, waited: nat, duration: nat) {
    && InState(w, e, s)
    && match s
       case Hurt =>
         BodyOf(w, e).health.Some? && BodyOf(w, e).health.value.timer == waited &&
         BodyOf(w, e).health.value.hurtDuration == duration
       case Attacking =>
         BodyOf(w, e).attacker.Some? && BodyOf(w, e).attacker.value.timer == waited &&
         BodyOf(w, e).attacker.value.attackDuration == duration
       case _ => false
  }

  // The wait is over: e is idle, with its timer at zero, and its flag down after an attack.
  ghost predicate Recovered(w: World, e: EntityId, s: EntityState, duration: nat) {
    && InState(w, e, Idle)
    && match s
       case Hurt =>
         BodyOf(w, e).health.Some? && BodyOf(w, e).health.value.timer == 0 &&
         BodyOf(w, e).health.value.hurtDuration == duration
       case Attacking =>
         BodyOf(w, e).attacker.Some? && BodyOf(w, e).attacker.value.timer == 0 &&
         BodyOf(w, e).attacker.value.attackDuration == duration && !BodyOf(w, e).attacker.value.attacked
       case _ => false
  }

  // No message or event of e that could end the wait early: no hit, no Became_Idle, and while it is hurt no input.
  ghost predicate Leaves(w: World, a: Action, e: EntityId, s: EntityState) {
    && Spares(a, e)
    && match a
       case Attack(_, r) => r != e
       case Handle(system, f, event) => !(f == e && system == StateMachine && event == BecameIdle)
       case TakeInput(f) => f == e && s == Hurt ==> InputOf(w, e) == NO_INPUT
       case _ => true
  }

  ghost predicate LeftAlone(w: World, actions: seq<Action>, e: EntityId, s: EntityState) {
    actions == [] ||
    (LeftAlone(w, actions[..|actions| - 1], e, s) &&
     Leaves(Run(w, actions[..|actions| - 1]), actions[|actions| - 1], e, s))
  }

  // What the wait depends on.
  ghost predicate SameWait(b: Body, b': Body) {
    && b'.state == b.state && b'.health == b.health && (b'.attacker.Some? <==> b.attacker.Some?)
    && (b.attacker.Some? ==>
          b'.attacker.value.timer == b.attacker.value.timer &&
          b'.attacker.value.attackDuration == b.attacker.value.attackDuration)
  }

  lemma AttackingIgnoresInput(w: World, e: EntityId)
    requires InState(w, e, Attacking)
    ensures BodyOf(InputStep(w, e), e) == BodyOf(w, e)
  {
    var p := InputOf(w, e);
    var w1 := w.(input := w.input[e := p]);
    var w2 := MoveX(w1, e, p.movedX);
    assert BodyOf(w2, e) == BodyOf(w, e);
    var w3 := MoveY(w2, e, p.movedY);
    assert BodyOf(w3, e) == BodyOf(w, e);
  }

  lemma EventKeepsWait(w: World, s: System, f: EntityId, event: EntityEvent, e: EntityId)
    requires !(f == e && s == StateMachine && event == BecameIdle)
    ensures SameWait(BodyOf(w, e), BodyOf(Deliver(w, s, f, event), e))
  {
    hide Steered, Driven;
  }

  lemma TurnKeepsWait(w: World, a: Action, e: EntityId)
    requires a.MoveBody? || a.PlaceArea? || a.Label? || a.CheckWalk? || a.SetInput? || a.TakeQueue?
    ensures SameWait(BodyOf(w, e), BodyOf(Apply(w, a), e))
  {
    hide MovementStep, Shifted;
    match a {
      case MoveBody(f, coefficient, dt, magnitude) => MotionKeepsWait(w, f, coefficient, dt, magnitude, e);
      case Label(f, c) => LabelKeepsWait(w, f, c, e);
      case _ =>
    }
    hide MotionStep, Labelled;
  }

  lemma MotionKeepsWait(w: World, f: EntityId, coefficient: Vec, dt: nat, magnitude: real, e: EntityId)
    ensures SameWait(BodyOf(w, e), BodyOf(MotionStep(w, f, coefficient, dt, magnitude), e))
  {
    hide MovementStep;
  }

  lemma LabelKeepsWait(w: World, f: EntityId, c: Component, e: EntityId)
    ensures SameWait(BodyOf(w, e), BodyOf(Labelled(w, f, c), e))
  {
  }

  lemma ResolveKeepsWait(w: World, f: EntityId, p: Position, c: Collidable, events: seq<EntityEvent>, e: EntityId)
    ensures SameWait(BodyOf(w, e), BodyOf(Resolve(w, f, p, c, events), e))
  {
    ResolveSettles(w, f, p, c, events, e);
    var b := BodyOf(w, f).(position := Some(p), collidable := Some(c));
    QueueAllFramed(SetBody(w, f, b), f, events);
  }

  lemma StepKeepsWait(w: World, a: Action, e: EntityId, s: EntityState)
    requires Consistent(w) && GameStep(w, a) && Leaves(w, a, e, s) && !TimesOf(a, e)
    requires InState(w, e, s) && (s == Hurt || s == Attacking)
    ensures SameWait(BodyOf(w, e), BodyOf(Apply(w, a), e))
  {
    match a {
      case SpawnEntity(archetype) =>
        if AddedId(w, NULL_ID) != NULL_ID {
          SpawnBuilds(w, archetype);
        }
      case TakeInput(f) =>
        if f == e && s == Attacking {
          AttackingIgnoresInput(w, e);
        } else {
          OtherInput(w, f, e);
        }
      case Attack(s, r) => HitTouchesOnly(w, s, r, e);
      case Handle(s, f, event) => EventKeepsWait(w, s, f, event, e);
      case ResolveMap(f, p, c, events) => ResolveKeepsWait(w, f, p, c, events, e);
      case RunTimer(f, dt) => NoTurn(w, f, dt, e);
      case EraseEntity(_) =>
      case _ => TurnKeepsWait(w, a, e);
    }
  }

  lemma TimerWaits(w: World, e: EntityId, s: EntityState, dt: nat, waited: nat, duration: nat)
    requires WaitsIn(w, e, s, waited, duration)
    ensures if waited + dt < duration then WaitsIn(TimerStep(w, e, dt), e, s, waited + dt, duration)
            else Recovered(TimerStep(w, e, dt), e, s, duration)
  {
    match s {
      case Hurt => HurtTurn(w, e, dt);
      case Attacking => AttackTurn(w, e, dt);
      case _ =>
    }
    hide TimerStep;
  }

  lemma WaitStep(w: World, a: Action, e: EntityId, s: EntityState, waited: nat, duration: nat)
    requires Consistent(w) && GameStep(w, a) && Leaves(w, a, e, s) && WaitsIn(w, e, s, waited, duration)
    ensures if !TimesOf(a, e) then WaitsIn(Apply(w, a), e, s, waited, duration)
            else if waited + a.dt < duration then WaitsIn(Apply(w, a), e, s, waited + a.dt, duration)
            else Recovered(Apply(w, a), e, s, duration)
  {
    hide TimerStep, Strike, InputStep, Resolve, Spawn, RemoveEntity, Deliver;
    if TimesOf(a, e) {
      TimerWaits(w, e, s, a.dt, waited, duration);
    } else {
      StepKeepsWait(w, a, e, s);
    }
  }

  // Left alone, whoever is hurt stays hurt, and whoever attacks goes on attacking, its timer counting the time S_Timers
  // has run for it, until that reaches the duration.
  lemma {:induction false} WaitIsStable(w: World, actions: seq<Action>, e: EntityId, s: EntityState, waited: nat,
                                        duration: nat)
    requires Consistent(w) && IsServer(w.systems) && GameRun(w, actions) && LeftAlone(w, actions, e, s)
    requires WaitsIn(w, e, s, waited, duration) && Pending(actions, e, waited, duration)
    ensures WaitsIn(Run(w, actions), e, s, waited + Ran(actions, e), duration)
  {
    hide Apply, Leaves, WaitsIn, Recovered, Consistent, IsServer, GameStep;
    if actions != [] {
      var before, last := actions[..|actions| - 1], actions[|actions| - 1];
      NoUpdatesNoTime(before, e);
      WaitIsStable(w, before, e, s, waited, duration);
      IndexInEveryRun(w, before);
      WaitStep(Run(w, before), last, e, s, waited + Ran(before, e), duration);
    }
  }

  // The first turn that reaches the duration leaves it idle, with its timer at zero and, after an attack, its flag
  // down.
  lemma {:induction false} WaitEnds(w: World, actions: seq<Action>, e: EntityId, s: EntityState, waited: nat,
                                    duration: nat) returns (k: nat)
    requires Consistent(w) && IsServer(w.systems) && GameRun(w, actions) && LeftAlone(w, actions, e, s)
    requires WaitsIn(w, e, s, waited, duration) && !Pending(actions, e, waited, duration)
    ensures 0 < k <= |actions| && Recovered(Run(w, actions[..k]), e, s, duration)
    ensures Pending(actions[..k - 1], e, waited, duration)
  {
    hide Apply, Leaves, WaitsIn, Recovered, Consistent, IsServer, GameStep;
    var before, last := actions[..|actions| - 1], actions[|actions| - 1];
    if Pending(before, e, waited, duration) {
      k := |actions|;
      NoUpdatesNoTime(before, e);
      WaitIsStable(w, before, e, s, waited, duration);
      IndexInEveryRun(w, before);
      WaitStep(Run(w, before), last, e, s, waited + Ran(before, e), duration);
      assert actions[..k] == actions && actions[..k - 1] == before;
    } else {
      k := WaitEnds(w, before, e, s, waited, duration);
      assert actions[..k] == before[..k] && actions[..k - 1] == before[..k - 1];
    }
  }
}
