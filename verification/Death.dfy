/** Death is stable until its timer runs out, and bounded: S_State, S_Combat and S_Timers together. */
module Death {
  import opened Components
  import opened Ecs
  import opened EcsIndex
  import opened Frames
  import opened Rules
  import opened Machine
  import opened Lifecycle

  // e is dying, and its health timer stands at `waited` of `duration`.
  ghost predicate DyingFor(w: World, e: EntityId, waited: nat, duration: nat) {
    && InState(w, e, Dying)
    && BodyOf(w, e).health.Some?
    && BodyOf(w, e).health.value.timer == waited
    && BodyOf(w, e).health.value.deathDuration == duration
  }

  // e has come back to life.
  ghost predicate BackToLife(w: World, e: EntityId) {
    && InState(w, e, Idle)
    && BodyOf(w, e).health.Some?
    && BodyOf(w, e).health.value.points == BodyOf(w, e).health.value.maxPoints
    && BodyOf(w, e).health.value.timer == 0
  }

  predicate Spares(a: Action, e: EntityId) {
    !a.PurgeEntities? && (a.EraseEntity? ==> a.entity != e)
  }

  predicate TimesOf(a: Action, e: EntityId) {
    a.RunTimer? && a.entity == e
  }

  // How long, and how often, S_Timers ran for e.
  function Ran(actions: seq<Action>, e: EntityId): nat {
    if actions == [] then 0
    else
      var a := actions[|actions| - 1];
      Ran(actions[..|actions| - 1], e) + if TimesOf(a, e) then a.dt else 0
  }

  function Updates(actions: seq<Action>, e: EntityId): nat {
    if actions == [] then 0
    else Updates(actions[..|actions| - 1], e) + if TimesOf(actions[|actions| - 1], e) then 1 else 0
  }

  // No message, event, hit or input changes the state, the timer or the duration of a dying entity.
  lemma DyingIgnores(w: World, a: Action, e: EntityId, waited: nat, duration: nat)
    requires Consistent(w) && GameStep(w, a) && DyingFor(w, e, waited, duration)
    requires Spares(a, e) && !TimesOf(a, e)
    ensures DyingFor(Apply(w, a), e, waited, duration)
  {
    match a {
      case SpawnEntity(archetype) =>
        if AddedId(w, NULL_ID) != NULL_ID {
          SpawnBuilds(w, archetype);
        }
      case Attack(s, r) => DyingUnderAttack(w, s, r, e, waited, duration);
      case TakeInput(f) => DyingUnderInput(w, f, e);
      case Handle(s, f, event) => DyingUnderEvent(w, s, f, event, e);
      case _ => DyingElsewhere(w, a, e, waited, duration);
    }
  }

  lemma DyingUnderEvent(w: World, s: System, f: EntityId, event: EntityEvent, e: EntityId)
    requires InState(w, e, Dying)
    ensures BodyOf(Deliver(w, s, f, event), e).health == BodyOf(w, e).health
    ensures InState(Deliver(w, s, f, event), e, Dying)
  {
  }

  lemma DyingElsewhere(w: World, a: Action, e: EntityId, waited: nat, duration: nat)
    requires DyingFor(w, e, waited, duration) && Spares(a, e) && !TimesOf(a, e)
    requires a.EraseEntity? || (!IsEntityEdit(a) && !a.Attack? && !a.TakeInput? && !a.Handle?)
    ensures DyingFor(Apply(w, a), e, waited, duration)
  {
    if a.ResolveMap? {
      var b := BodyOf(w, a.entity).(position := Some(a.position), collidable := Some(a.box));
      QueueAllFramed(SetBody(w, a.entity, b), a.entity, a.events);
    }
  }

  lemma DyingUnderAttack(w: World, s: EntityId, r: EntityId, e: EntityId, waited: nat, duration: nat)
    requires DyingFor(w, e, waited, duration)
    ensures DyingFor(Strike(w, s, r), e, waited, duration)
  {
    if Lands(w, s, r) {
      var bled := Bled(w, s, r);
      assert DyingFor(bled, e, waited, duration);
      assert DyingFor(Reeled(bled, r), e, waited, duration);
    }
  }

  lemma DyingUnderInput(w: World, f: EntityId, e: EntityId)
    requires InState(w, e, Dying)
    ensures BodyOf(InputStep(w, f), e) == BodyOf(w, e)
  {
    var p := InputOf(w, f);
    var w1 := w.(input := w.input[f := p]);
    var w2 := MoveX(w1, f, p.movedX);
    assert BodyOf(w2, e) == BodyOf(w, e);
    var w3 := MoveY(w2, f, p.movedY);
    assert BodyOf(w3, e) == BodyOf(w, e);
  }

  lemma DyingWaits(w: World, e: EntityId, dt: nat, waited: nat, duration: nat)
    requires DyingFor(w, e, waited, duration)
    ensures if waited + dt < duration then DyingFor(TimerStep(w, e, dt), e, waited + dt, duration)
            else BackToLife(TimerStep(w, e, dt), e)
  {
  }

  // The timer has not run since, or not long enough.
  ghost predicate Pending(actions: seq<Action>, e: EntityId, waited: nat, duration: nat) {
    Updates(actions, e) == 0 || waited + Ran(actions, e) < duration
  }

  lemma {:induction false} NoUpdatesNoTime(actions: seq<Action>, e: EntityId)
    ensures Updates(actions, e) == 0 ==> Ran(actions, e) == 0
  {
    if actions != [] {
      NoUpdatesNoTime(actions[..|actions| - 1], e);
    }
  }

  // A dying entity stays dying, its timer counting the time S_Timers has run for it, until that reaches
  // deathDuration.
  lemma {:induction false} DeathIsStable(w: World, actions: seq<Action>, e: EntityId, waited: nat, duration: nat)
    requires Consistent(w) && IsServer(w.systems) && GameRun(w, actions)
    requires DyingFor(w, e, waited, duration)
    requires forall a :: a in actions ==> Spares(a, e)
    requires Pending(actions, e, waited, duration)
    ensures DyingFor(Run(w, actions), e, waited + Ran(actions, e), duration)
  {
    if actions != [] {
      var before, last := actions[..|actions| - 1], actions[|actions| - 1];
      NoUpdatesNoTime(before, e);
      DeathIsStable(w, before, e, waited, duration);
      IndexInEveryRun(w, before);
      if TimesOf(last, e) {
        DyingWaits(Run(w, before), e, last.dt, waited + Ran(before, e), duration);
      } else {
        DyingIgnores(Run(w, before), last, e, waited + Ran(before, e), duration);
      }
    }
  }

  // As soon as S_Timers has run at all and long enough, the entity has been back, idle and with full health.
  lemma {:induction false} DeathEnds(w: World, actions: seq<Action>, e: EntityId, waited: nat, duration: nat)
    returns (k: nat)
    requires Consistent(w) && IsServer(w.systems) && GameRun(w, actions)
    requires DyingFor(w, e, waited, duration)
    requires forall a :: a in actions ==> Spares(a, e)
    requires !Pending(actions, e, waited, duration)
    ensures k <= |actions| && BackToLife(Run(w, actions[..k]), e)
    ensures 0 < k && Pending(actions[..k - 1], e, waited, duration)
  {
    var before, last := actions[..|actions| - 1], actions[|actions| - 1];
    if Pending(before, e, waited, duration) {
      k := |actions|;
      NoUpdatesNoTime(before, e);
      DeathIsStable(w, before, e, waited, duration);
      DyingWaits(Run(w, before), e, last.dt, waited + Ran(before, e), duration);
      assert actions[..k] == actions && actions[..k - 1] == before;
    } else {
      k := DeathEnds(w, before, e, waited, duration);
      assert actions[..k] == before[..k] && actions[..k - 1] == before[..k - 1];
    }
  }

  lemma {:induction false} UpdatesTakeTime(actions: seq<Action>, e: EntityId)
    requires forall a :: a in actions && TimesOf(a, e) ==> a.dt >= 1
    ensures Ran(actions, e) >= Updates(actions, e)
  {
    if actions != [] {
      var before := actions[..|actions| - 1];
      assert forall a :: a in before ==> a in actions;
      UpdatesTakeTime(before, e);
      assert actions[|actions| - 1] in actions;
    }
  }

  // With ticks of at least one millisecond, max(1, deathDuration) timer updates are enough.
  lemma DeathIsBounded(w: World, actions: seq<Action>, e: EntityId, waited: nat, duration: nat) returns (k: nat)
    requires Consistent(w) && IsServer(w.systems) && GameRun(w, actions)
    requires DyingFor(w, e, waited, duration)
    requires forall a :: a in actions ==> Spares(a, e) && (TimesOf(a, e) ==> a.dt >= 1)
    requires Updates(actions, e) >= if duration > 1 then duration else 1
    ensures k <= |actions| && BackToLife(Run(w, actions[..k]), e)
  {
    UpdatesTakeTime(actions, e);
    k := DeathEnds(w, actions, e, waited, duration);
  }
}
