/** How many hits an entity survives: the points it has, no fewer and no more, whatever else happens. */
module Survival {
  import opened Components
  import opened Ecs
  import opened EcsIndex
  import opened Frames
  import opened Rules
  import opened Machine
  import opened Lifecycle
  import opened Death
  import opened Wounds
  import opened Recovery

  // The step is a hit on r.
  predicate HitsOn(w: World, a: Action, r: EntityId) {
    a.Attack? && a.receiver == r && Lands(w, a.sender, r)
  }

  // How many hits land on r in a run.
  function HitsTaken(w: World, actions: seq<Action>, r: EntityId): nat {
    if actions == [] then 0
    else
      var before, a := actions[..|actions| - 1], actions[|actions| - 1];
      HitsTaken(w, before, r) + if HitsOn(Run(w, before), a, r) then 1 else 0
  }

  // r has so many points of health, and is not dying.
  ghost predicate Alive(w: World, r: EntityId, points: int) {
    && BodyOf(w, r).health.Some? && BodyOf(w, r).state.Some? && !InState(w, r, Dying)
    && points >= 1 && BodyOf(w, r).health.value.points == points
  }

  // r has been hit for the last time.
  ghost predicate Dead(w: World, r: EntityId) {
    BodyOf(w, r).health.Some? && BodyOf(w, r).health.value.points == 0 && InState(w, r, Dying)
  }

  lemma PartsStay(w: World, a: Action, e: EntityId)
    requires Consistent(w) && !IsEntityEdit(a)
    ensures BodyOf(Apply(w, a), e).state.Some? <==> BodyOf(w, e).state.Some?
  {
    hide Apply;
    var w' := Apply(w, a);
    RuleFramed(w, a);
    SameMasks(w.entities, w'.entities);
    HasIsPresence(BodyOf(w, e), STATE);
    HasIsPresence(BodyOf(w', e), STATE);
  }

  lemma EventKeepsHealth(w: World, s: System, f: EntityId, event: EntityEvent, e: EntityId)
    ensures BodyOf(Deliver(w, s, f, event), e).health == BodyOf(w, e).health
  {
    hide Steered, Driven;
  }

  lemma TimerKeepsPoints(w: World, f: EntityId, dt: nat, e: EntityId)
    requires BodyOf(w, e).health.Some? && !InState(w, e, Dying)
    ensures var h := BodyOf(TimerStep(w, f, dt), e).health;
            h.Some? && h.value.(timer := BodyOf(w, e).health.value.timer) == BodyOf(w, e).health.value
  {
    if f == e && InState(w, e, Hurt) {
      HurtTurn(w, e, dt);
    } else if f == e && InState(w, e, Attacking) && BodyOf(w, e).attacker.Some? {
      AttackTurn(w, e, dt);
    }
  }

  lemma OtherPoints(w: World, a: Action, e: EntityId)
    requires !IsEntityEdit(a) && !a.Attack? && BodyOf(w, e).health.Some? && !InState(w, e, Dying)
    ensures var h := BodyOf(Apply(w, a), e).health; h.Some? && h.value.points == BodyOf(w, e).health.value.points
  {
    match a {
      case TakeInput(f) => InputBody(w, f, e);
      case Handle(s, f, event) => EventKeepsHealth(w, s, f, event, e);
      case ResolveMap(f, p, c, events) => ResolveKeepsWait(w, f, p, c, events, e);
      case RunTimer(f, dt) => TimerKeepsPoints(w, f, dt, e);
      case _ => TurnKeepsWait(w, a, e);
    }
    hide InputStep, Resolve, TimerStep, Deliver, WalkCheck, MotionStep, AreaStep, Labelled;
  }

  lemma StrikePoints(w: World, s: EntityId, r: EntityId, e: EntityId)
    requires Consistent(w) && BodyOf(w, e).health.Some?
    ensures var h := BodyOf(Strike(w, s, r), e).health;
            && h.Some?
            && h.value.points ==
               if HitsOn(w, Attack(s, r), e) then
                 if BodyOf(w, e).health.value.points >= 1 then BodyOf(w, e).health.value.points - 1 else 0
               else BodyOf(w, e).health.value.points
  {
    hide Strike, Lands;
    HitTouchesOnly(w, s, r, e);
    if Lands(w, s, r) {
      HitTakesOnePoint(w, s, r);
    }
  }

  // Points only go with hits, one for each.
  lemma StepPoints(w: World, a: Action, r: EntityId, points: int)
    requires Consistent(w) && IsServer(w.systems) && Living(w) && GameStep(w, a) && Spares(a, r) && Alive(w, r, points)
    ensures var w' := Apply(w, a);
            if !HitsOn(w, a, r) then Alive(w', r, points)
            else if points > 1 then Alive(w', r, points - 1)
            else Dead(w', r)
  {
    hide Apply, Strike, Lands, Spawn, RemoveEntity;
    var w' := Apply(w, a);
    StepFine(w, a, r);
    match a {
      case SpawnEntity(archetype) => SpawnSpares(w, archetype, r);
      case EraseEntity(e) => EraseSpares(w, e, r);
      case Attack(s, v) =>
        PartsStay(w, a, r);
        AttackIsStrike(w, s, v);
        StrikePoints(w, s, v, r);
      case _ =>
        PartsStay(w, a, r);
        OtherPoints(w, a, r);
    }
  }

  lemma AttackIsStrike(w: World, s: EntityId, r: EntityId)
    ensures Apply(w, Attack(s, r)) == Strike(w, s, r)
  {
  }

  lemma SpawnSpares(w: World, a: Archetype, r: EntityId)
    requires Consistent(w) && BodyOf(w, r).health.Some?
    ensures BodyOf(Apply(w, SpawnEntity(a)), r) == BodyOf(w, r)
  {
    if AddedId(w, NULL_ID) != NULL_ID {
      SpawnBuilds(w, a);
    }
  }

  lemma EraseSpares(w: World, e: EntityId, r: EntityId)
    requires e != r
    ensures BodyOf(Apply(w, EraseEntity(e)), r) == BodyOf(w, r)
  {
  }

  // Being hurt and being dead share a timer that a hit does not start over: whoever is killed while it is hurt is dead
  // for what is left of deathDuration only.
  lemma KilledWhileHurt(w: World, s: EntityId, r: EntityId, waited: nat, duration: nat)
    requires Consistent(w) && Lands(w, s, r) && WaitsIn(w, r, Hurt, waited, duration)
    requires BodyOf(w, r).health.value.points == 1
    ensures DyingFor(Strike(w, s, r), r, waited, BodyOf(w, r).health.value.deathDuration)
  {
    hide Strike, Lands;
    HitTakesOnePoint(w, s, r);
    HitState(w, s, r);
  }

  // While fewer hits have landed on it than it had points, an entity has lost exactly one point for each of them, and
  // is not dying, whoever else is hit, moves, heals or dies.
  lemma {:induction false} PointsPaidInHits(w: World, actions: seq<Action>, r: EntityId, points: int)
    requires Consistent(w) && IsServer(w.systems) && Living(w) && GameRun(w, actions) && Alive(w, r, points)
    requires (forall a :: a in actions ==> Spares(a, r)) && HitsTaken(w, actions, r) < points
    ensures Alive(Run(w, actions), r, points - HitsTaken(w, actions, r))
  {
    hide Apply, Alive, Dead, HitsOn, Consistent, IsServer, Living, GameStep;
    if actions != [] {
      var before, last := actions[..|actions| - 1], actions[|actions| - 1];
      assert actions == before + [last];
      PointsPaidInHits(w, before, r, points);
      IndexInEveryRun(w, before);
      LifecycleInEveryRun(w, before);
      StepPoints(Run(w, before), last, r, points - HitsTaken(w, before, r));
    }
  }

  // With as many hits as it had points it is dying, without health; the last of them kills it, and none before.
  lemma {:induction false} DiesWithItsPoints(w: World, actions: seq<Action>, r: EntityId, points: int) returns (k: nat)
    requires Consistent(w) && IsServer(w.systems) && Living(w) && GameRun(w, actions) && Alive(w, r, points)
    requires (forall a :: a in actions ==> Spares(a, r)) && HitsTaken(w, actions, r) >= points
    ensures 0 < k <= |actions| && HitsTaken(w, actions[..k], r) == points && Dead(Run(w, actions[..k]), r)
    ensures Alive(Run(w, actions[..k - 1]), r, 1) && HitsOn(Run(w, actions[..k - 1]), actions[k - 1], r)
  {
    hide Apply, Dead, HitsOn, Consistent, IsServer, Living, GameStep;
    var before, last := actions[..|actions| - 1], actions[|actions| - 1];
    assert actions == before + [last];
    if HitsTaken(w, before, r) < points {
      k := |actions|;
      assert actions[..k] == actions && actions[..k - 1] == before;
      PointsPaidInHits(w, before, r, points);
      IndexInEveryRun(w, before);
      LifecycleInEveryRun(w, before);
      StepPoints(Run(w, before), last, r, points - HitsTaken(w, before, r));
    } else {
      k := DiesWithItsPoints(w, before, r, points);
      assert actions[..k] == before[..k] && actions[..k - 1] == before[..k - 1];
    }
  }
}
