/** How fast an attacker can hit: S_Combat's once-per-attack flag against S_Timers' attack timer. */
module Damage {
  import opened Components
  import opened Ecs
  import opened EcsIndex
  import opened Frames
  import opened Rules
  import opened Machine
  import opened Lifecycle
  import opened Death
  import opened Strikes

  // What the timer and the flag of an attack stand at.
  datatype Charge = Charge(attacked: bool, timer: nat, duration: nat)

  function ChargeOf(b: Body): Option<Charge> {
    if b.attacker.None? then None
    else
      var a := b.attacker.value;
      Some(Charge(a.attacked, a.timer, a.attackDuration))
  }

  // The step is a hit of e.
  predicate IsHit(w: World, a: Action, e: EntityId) {
    a.Attack? && a.sender == e && Lands(w, e, a.receiver)
  }

  lemma StrikeCharge(w: World, s: EntityId, r: EntityId, e: EntityId)
    requires e in w.entities
    ensures var w' := Strike(w, s, r);
            && e in w'.entities
            && ChargeOf(BodyOf(w', e)) ==
               (if IsHit(w, Attack(s, r), e) then Some(ChargeOf(BodyOf(w, e)).value.(attacked := true))
                else ChargeOf(BodyOf(w, e)))
  {
    StrikeFacts(w, s, r, e);
    StrikeFramed(w, s, r);
    SameMasks(w.entities, Strike(w, s, r).entities);
  }

  lemma StaysStored(w: World, a: Action, e: EntityId)
    requires !IsEntityEdit(a) && e in w.entities
    ensures e in Apply(w, a).entities
  {
    RuleFramed(w, a);
    SameMasks(w.entities, Apply(w, a).entities);
  }

  lemma TurnCharge(w: World, a: Action, e: EntityId)
    requires !TimesOf(a, e) && (a.MoveBody? || a.RunTimer? || a.PlaceArea?)
    ensures ChargeOf(BodyOf(Apply(w, a), e)) == ChargeOf(BodyOf(w, e))
  {
    hide Ticked;
  }

  lemma TalkCharge(w: World, a: Action, e: EntityId)
    requires a.Label? || a.CheckWalk?
    ensures ChargeOf(BodyOf(Apply(w, a), e)) == ChargeOf(BodyOf(w, e))
  {
  }

  lemma EventCharge(w: World, s: System, f: EntityId, event: EntityEvent, e: EntityId)
    ensures ChargeOf(BodyOf(Deliver(w, s, f, event), e)) == ChargeOf(BodyOf(w, e))
  {
    hide Steered, Driven;
  }

  lemma OtherCharge(w: World, a: Action, e: EntityId)
    requires !IsEntityEdit(a) && !a.Attack? && !TimesOf(a, e)
    ensures ChargeOf(BodyOf(Apply(w, a), e)) == ChargeOf(BodyOf(w, e))
  {
    if a.MoveBody? || a.RunTimer? || a.PlaceArea? {
      TurnCharge(w, a, e);
    } else if a.Label? || a.CheckWalk? {
      TalkCharge(w, a, e);
    } else if a.Handle? {
      EventCharge(w, a.system, a.entity, a.event, e);
    } else if a.TakeInput? {
      InputBody(w, a.entity, e);
    } else if a.ResolveMap? {
      var b := BodyOf(w, a.entity).(position := Some(a.position), collidable := Some(a.box));
      QueueAllFramed(SetBody(w, a.entity, b), a.entity, a.events);
    }
  }

  // Only a hit of e and a timer update of e change flag and timer of its attack.
  lemma ChargeKept(w: World, a: Action, e: EntityId)
    requires Consistent(w) && GameStep(w, a) && Spares(a, e) && !TimesOf(a, e) && e in w.entities
    ensures e in Apply(w, a).entities
    ensures ChargeOf(BodyOf(Apply(w, a), e)) ==
            if IsHit(w, a, e) then Some(ChargeOf(BodyOf(w, e)).value.(attacked := true)) else ChargeOf(BodyOf(w, e))
  {
    match a {
      case SpawnEntity(archetype) =>
        if AddedId(w, NULL_ID) != NULL_ID {
          SpawnBuilds(w, archetype);
          SpawnKeepsRecords(w, archetype, e);
        }
      case Attack(s, r) => StrikeCharge(w, s, r, e);
      case EraseEntity(_) =>
      case _ =>
        StaysStored(w, a, e);
        OtherCharge(w, a, e);
    }
  }

  lemma SpawnKeepsRecords(w: World, a: Archetype, e: EntityId)
    requires Consistent(w) && e in w.entities
    ensures e in Spawn(w, a).entities
  {
    if AddedId(w, NULL_ID) != NULL_ID {
      AddEntityIndexed(w, a.bits, NULL_ID);
    }
  }

  // A timer update of e.
  lemma ChargeTimed(w: World, a: Action, e: EntityId)
    requires e in w.entities && TimesOf(a, e)
    ensures var w', dt := Apply(w, a), a.dt;
            && e in w'.entities
            && ChargeOf(BodyOf(w', e)) ==
               (match ChargeOf(BodyOf(w, e))
                case None => None
                case Some(c) =>
                  if !InState(w, e, Attacking) then Some(c)
                  else if c.timer + dt < c.duration then Some(c.(timer := c.timer + dt))
                  else Some(Charge(false, 0, c.duration)))
  {
  }

  function Flag(attacked: bool): nat {
    if attacked then 1 else 0
  }

  // The hits landed since the charge was `start`, with the flag up or down now, are paid for by the time that has run.
  ghost predicate PaidFor(start: Charge, now: Charge, hits: nat, ran: nat) {
    && now.duration == start.duration
    && (hits + Flag(start.attacked)) * now.duration + now.timer <= ran + start.timer + Flag(now.attacked) * now.duration
  }

  lemma HitPaid(start: Charge, now: Charge, hits: nat, ran: nat)
    requires PaidFor(start, now, hits, ran) && !now.attacked
    ensures PaidFor(start, now.(attacked := true), hits + 1, ran)
  {
    var n, d := hits + Flag(start.attacked), now.duration;
    assert (n + 1) * d == n * d + d;
  }

  lemma TimePaid(start: Charge, now: Charge, hits: nat, ran: nat, dt: nat)
    requires PaidFor(start, now, hits, ran)
    ensures PaidFor(start, now, hits, ran + dt)
    ensures PaidFor(start, now.(timer := now.timer + dt), hits, ran + dt)
    ensures now.timer + dt >= now.duration ==> PaidFor(start, Charge(false, 0, now.duration), hits, ran + dt)
  {
  }

  lemma {:induction false} EveryHitIsPaid(w: World, actions: seq<Action>, e: EntityId)
    requires Consistent(w) && IsServer(w.systems) && GameRun(w, actions)
    requires e in w.entities && BodyOf(w, e).attacker.Some? && forall a :: a in actions ==> Spares(a, e)
    ensures var w' := Run(w, actions);
            && e in w'.entities && BodyOf(w', e).attacker.Some?
            && PaidFor(ChargeOf(BodyOf(w, e)).value, ChargeOf(BodyOf(w', e)).value,
                       Hits(w, actions, e), Ran(actions, e))
  {
    if actions != [] {
      var before, last := actions[..|actions| - 1], actions[|actions| - 1];
      assert actions == before + [last];
      EveryHitIsPaid(w, before, e);
      IndexInEveryRun(w, before);
      OneMorePaid(w, before, last, e);
    }
  }

  lemma OneMoreStep(w: World, before: seq<Action>, a: Action, e: EntityId)
    ensures Run(w, before + [a]) == Apply(Run(w, before), a)
    ensures Hits(w, before + [a], e) == Hits(w, before, e) + if IsHit(Run(w, before), a, e) then 1 else 0
    ensures Ran(before + [a], e) == Ran(before, e) + if TimesOf(a, e) then a.dt else 0
  {
    hide Apply, Lands;
    assert (before + [a])[..|before|] == before;
  }

  // The charge of an attacker after one more step.
  function NextCharge(c: Charge, hits: bool, timed: bool, attacking: bool, dt: nat): Charge {
    if hits then c.(attacked := true)
    else if !timed || !attacking then c
    else if c.timer + dt < c.duration then c.(timer := c.timer + dt)
    else Charge(false, 0, c.duration)
  }

  lemma ChargeStep(w: World, a: Action, e: EntityId)
    requires Consistent(w) && GameStep(w, a) && Spares(a, e) && e in w.entities && BodyOf(w, e).attacker.Some?
    ensures e in Apply(w, a).entities && BodyOf(Apply(w, a), e).attacker.Some?
    ensures var timed := TimesOf(a, e);
            ChargeOf(BodyOf(Apply(w, a), e)) ==
            Some(NextCharge(ChargeOf(BodyOf(w, e)).value, IsHit(w, a, e), timed, InState(w, e, Attacking),
                            if timed then a.dt else 0))
  {
    hide Apply, Lands, Consistent, GameStep;
    if TimesOf(a, e) {
      ChargeTimed(w, a, e);
    } else {
      ChargeKept(w, a, e);
    }
  }

  // A hit comes with the flag down.
  lemma HitFlag(w: World, a: Action, e: EntityId)
    requires IsHit(w, a, e)
    ensures BodyOf(w, e).attacker.Some? && !ChargeOf(BodyOf(w, e)).value.attacked
  {
  }

  lemma ChargePaid(start: Charge, now: Charge, hits: nat, ran: nat, hit: bool, timed: bool, attacking: bool, dt: nat)
    requires PaidFor(start, now, hits, ran) && (hit ==> !now.attacked && !timed)
    ensures PaidFor(start, NextCharge(now, hit, timed, attacking, dt), hits + (if hit then 1 else 0),
                    ran + if timed then dt else 0)
  {
    if hit {
      HitPaid(start, now, hits, ran);
    } else if timed {
      TimePaid(start, now, hits, ran, dt);
    }
    hide PaidFor;
  }

  lemma OneMorePaid(w: World, before: seq<Action>, a: Action, e: EntityId)
    requires var w' := Run(w, before);
             && Consistent(w') && GameStep(w', a) && Spares(a, e)
             && e in w'.entities && BodyOf(w, e).attacker.Some? && BodyOf(w', e).attacker.Some?
             && PaidFor(ChargeOf(BodyOf(w, e)).value, ChargeOf(BodyOf(w', e)).value, Hits(w, before, e), Ran(before, e))
    ensures var actions := before + [a];
            var w' := Run(w, actions);
            && e in w'.entities && BodyOf(w', e).attacker.Some?
            && PaidFor(ChargeOf(BodyOf(w, e)).value, ChargeOf(BodyOf(w', e)).value,
                       Hits(w, actions, e), Ran(actions, e))
  {
    hide Apply, Run, Consistent, GameStep, PaidFor, Hits, Ran, BodyOf, Lands, InState, NextCharge;
    var w' := Run(w, before);
    OneMoreStep(w, before, a, e);
    ChargeStep(w', a, e);
    if IsHit(w', a, e) {
      HitFlag(w', a, e);
    }
    var timed := TimesOf(a, e);
    ChargePaid(ChargeOf(BodyOf(w, e)).value, ChargeOf(BodyOf(w', e)).value, Hits(w, before, e), Ran(before, e),
               IsHit(w', a, e), timed, InState(w', e, Attacking), if timed then a.dt else 0);
  }

  // A timer turn of e that ends its attack with the flag up.
  predicate Clears(w: World, a: Action, e: EntityId) {
    && TimesOf(a, e) && Flagged(w, e) && InState(w, e, Attacking)
    && BodyOf(w, e).attacker.value.timer + a.dt >= BodyOf(w, e).attacker.value.attackDuration
  }

  // How often that happens in a run.
  function Cleared(w: World, actions: seq<Action>, e: EntityId): nat {
    if actions == [] then 0
    else
      var before, a := actions[..|actions| - 1], actions[|actions| - 1];
      Cleared(w, before, e) + if Clears(Run(w, before), a, e) then 1 else 0
  }

  lemma FlagStep(w: World, a: Action, e: EntityId)
    requires Consistent(w) && GameStep(w, a) && Spares(a, e) && e in w.entities && BodyOf(w, e).attacker.Some?
    ensures var w' := Apply(w, a);
            && e in w'.entities && BodyOf(w', e).attacker.Some?
            && Flag(Flagged(w, e)) + (if IsHit(w, a, e) then 1 else 0) ==
               Flag(Flagged(w', e)) + if Clears(w, a, e) then 1 else 0
  {
    hide Apply, Consistent, GameStep, InState;
    ChargeStep(w, a, e);
    if IsHit(w, a, e) {
      HitFlag(w, a, e);
    }
  }

  // Every hit is accounted for: it raises the flag, and the next one has to wait until the timer has ended an attack
  // and lowered it. The hits landed, and the flag if it was up, are the times it was lowered, and the flag if it is up.
  lemma {:induction false} HitsAccounted(w: World, actions: seq<Action>, e: EntityId)
    requires Consistent(w) && IsServer(w.systems) && GameRun(w, actions)
    requires e in w.entities && BodyOf(w, e).attacker.Some? && forall a :: a in actions ==> Spares(a, e)
    ensures var w' := Run(w, actions);
            && e in w'.entities && BodyOf(w', e).attacker.Some?
            && Hits(w, actions, e) + Flag(Flagged(w, e)) == Cleared(w, actions, e) + Flag(Flagged(w', e))
  {
    hide Apply, Clears, Lands, Consistent, IsServer, GameStep, Flagged;
    if actions != [] {
      var before, last := actions[..|actions| - 1], actions[|actions| - 1];
      assert actions == before + [last];
      HitsAccounted(w, before, e);
      IndexInEveryRun(w, before);
      FlagStep(Run(w, before), last, e);
    }
  }

  // Between its hits an attacker needs attackDuration of the time S_Timers runs for it, however often attacks are
  // broken off. In any stretch of a run in which e is not removed: the hits it lands, times its attackDuration, are at
  // most the time run, one attackDuration, and what was on its timer at the start; with the timer at zero, as it is
  // when e is made, at most the time run and one attackDuration.
  lemma DamageRate(w: World, actions: seq<Action>, e: EntityId)
    requires Consistent(w) && IsServer(w.systems) && GameRun(w, actions)
    requires e in w.entities && BodyOf(w, e).attacker.Some? && forall a :: a in actions ==> Spares(a, e)
    ensures var a := BodyOf(w, e).attacker.value;
            && (Hits(w, actions, e) + Flag(a.attacked)) * a.attackDuration
               <= Ran(actions, e) + a.timer + a.attackDuration
            && (a.timer == 0 && !a.attacked ==>
                Hits(w, actions, e) * a.attackDuration <= Ran(actions, e) + a.attackDuration)
  {
    EveryHitIsPaid(w, actions, e);
    var now := ChargeOf(BodyOf(Run(w, actions), e)).value;
    assert Flag(now.attacked) * now.duration <= now.duration;
  }
}
