/** A walking entity that gets no further input and no further hits comes to rest and goes idle. */
module Settling {
  import opened Bitmasks
  import opened Components
  import opened Ecs
  import opened EcsIndex
  import opened Motion
  import opened Frames
  import opened Rules
  import opened Machine
  import opened Lifecycle
  import opened Death

  // A step that brings e no input, no hit and no pending move, and under which the tile friction per tick is at
  // least `least` on both axes. Everything else may happen, in any order.
  ghost predicate Quiet(w: World, a: Action, e: EntityId, least: real) {
    && GameStep(w, a) && Spares(a, e)
    && match a
       case SetInput(f, _) => f != e
       case TakeInput(f) => f == e ==> InputOf(w, e) == NO_INPUT
       case Attack(_, r) => r != e
       case Handle(_, f, event) => f == e ==> event !in {MovingLeft, MovingRight, MovingUp, MovingDown}
       case MoveBody(f, coefficient, dt, _) =>
         f == e && BodyOf(w, e).movable.Some? ==>
           var friction := Friction(BodyOf(w, e).movable.value, coefficient, dt as real);
           friction.x >= least && friction.y >= least
       case _ => true
  }

  ghost predicate QuietRun(w: World, actions: seq<Action>, e: EntityId, least: real) {
    actions == [] ||
    (QuietRun(w, actions[..|actions| - 1], e, least) &&
     Quiet(Run(w, actions[..|actions| - 1]), actions[|actions| - 1], e, least))
  }

  // e is walking or idle, with a velocity limited to `limit`.
  ghost predicate Roaming(b: Body, limit: real) {
    && (b.state == Some(Walking) || b.state == Some(Idle))
    && b.position.Some? && b.movable.Some? && b.movable.value.maxVelocity == limit
  }

  ghost predicate AxisWithin(v: real, bound: real) {
    Abs(v) <= bound || v == 0.0
  }

  // And nothing accelerates it, and both axes are within the bound or at rest.
  ghost predicate Calm(b: Body, limit: real, bound: real) {
    && Roaming(b, limit)
    && b.movable.value.acceleration == ZERO
    && AxisWithin(b.movable.value.velocity.x, bound) && AxisWithin(b.movable.value.velocity.y, bound)
  }

  predicate Moves(a: Action, e: EntityId) {
    a.MoveBody? && a.entity == e
  }

  function MoveCount(actions: seq<Action>, e: EntityId): nat {
    if actions == [] then 0
    else MoveCount(actions[..|actions| - 1], e) + if Moves(actions[|actions| - 1], e) then 1 else 0
  }

  // What a quiet step other than a move does to the body of e: its state may turn to idle and its velocity to zero
  // on an axis.
  ghost predicate Settles(b: Body, b': Body) {
    && (b'.state == b.state || b'.state == Some(Idle))
    && (b'.position.Some? <==> b.position.Some?)
    && (b.movable.None? ==> b'.movable.None?)
    && (b.movable.Some? ==> b'.movable.Some? && SettlesTo(b.movable.value, b'.movable.value))
  }

  ghost predicate SettlesTo(m: Movable, m': Movable) {
    && m'.maxVelocity == m.maxVelocity && m'.acceleration == m.acceleration
    && (m'.velocity.x == m.velocity.x || m'.velocity.x == 0.0)
    && (m'.velocity.y == m.velocity.y || m'.velocity.y == 0.0)
  }

  lemma OtherInput(w: World, f: EntityId, e: EntityId)
    requires f != e || InputOf(w, e) == NO_INPUT
    ensures BodyOf(InputStep(w, f), e) == BodyOf(w, e)
  {
    if f != e {
      var p := InputOf(w, f);
      var w1 := w.(input := w.input[f := p]);
      var w2 := MoveX(w1, f, p.movedX);
      assert BodyOf(w2, e) == BodyOf(w, e);
      var w3 := MoveY(w2, f, p.movedY);
      assert BodyOf(w3, e) == BodyOf(w, e);
    }
  }

  lemma OtherStrike(w: World, s: EntityId, r: EntityId, e: EntityId)
    requires r != e
    ensures Settles(BodyOf(w, e), BodyOf(Strike(w, s, r), e))
  {
    if Lands(w, s, r) {
      var bled := Bled(w, s, r);
      assert Settles(BodyOf(w, e), BodyOf(bled, e));
      var reeled := Reeled(bled, r);
      assert BodyOf(reeled, e) == BodyOf(bled, e);
    }
  }

  lemma EventSettles(w: World, s: System, f: EntityId, event: EntityEvent, e: EntityId)
    requires f == e ==> event !in {MovingLeft, MovingRight, MovingUp, MovingDown}
    ensures Settles(BodyOf(w, e), BodyOf(Deliver(w, s, f, event), e))
  {
  }

  lemma ResolveSettles(w: World, f: EntityId, p: Position, c: Collidable, events: seq<EntityEvent>, e: EntityId)
    ensures Settles(BodyOf(w, e), BodyOf(Resolve(w, f, p, c, events), e))
  {
    var b := BodyOf(w, f).(position := Some(p), collidable := Some(c));
    QueueAllFramed(SetBody(w, f, b), f, events);
    hide QueueAll;
    if BodyOf(w, f).position.Some? && BodyOf(w, f).collidable.Some? {
      assert BodyOf(Resolve(w, f, p, c, events), e) == BodyOf(SetBody(w, f, b), e);
    }
  }

  lemma TimerSettles(w: World, f: EntityId, dt: nat, e: EntityId, limit: real)
    requires Roaming(BodyOf(w, e), limit)
    ensures Settles(BodyOf(w, e), BodyOf(TimerStep(w, f, dt), e))
  {
    hide HealthTicked, AttackTicked;
  }

  // Labels and questions, then motions of others and areas.
  lemma TalkSettles(w: World, a: Action, e: EntityId)
    requires a.Label? || a.CheckWalk?
    ensures Settles(BodyOf(w, e), BodyOf(Apply(w, a), e))
  {
  }

  lemma TurnSettles(w: World, a: Action, e: EntityId)
    requires !Moves(a, e) && (a.MoveBody? || a.PlaceArea?)
    ensures Settles(BodyOf(w, e), BodyOf(Apply(w, a), e))
  {
    hide MovementStep, Shifted, Aimed;
  }

  lemma QuietSettles(w: World, a: Action, e: EntityId, limit: real, least: real)
    requires Consistent(w) && Quiet(w, a, e, least) && !Moves(a, e) && Roaming(BodyOf(w, e), limit)
    ensures Settles(BodyOf(w, e), BodyOf(Apply(w, a), e))
  {
    match a {
      case SpawnEntity(archetype) =>
        if AddedId(w, NULL_ID) != NULL_ID {
          SpawnBuilds(w, archetype);
        }
      case TakeInput(f) => OtherInput(w, f, e);
      case Attack(s, r) => OtherStrike(w, s, r, e);
      case Handle(s, f, event) => EventSettles(w, s, f, event, e);
      case ResolveMap(f, p, c, events) => ResolveSettles(w, f, p, c, events, e);
      case MoveBody(_, _, _, _) => TurnSettles(w, a, e);
      case RunTimer(f, dt) => TimerSettles(w, f, dt, e, limit);
      case PlaceArea(_) => TurnSettles(w, a, e);
      case Label(_, _) => TalkSettles(w, a, e);
      case CheckWalk(_) => TalkSettles(w, a, e);
      case _ =>
    }
  }

  // A move of e: whatever it was doing, it is calm afterwards; if it was calm, its bound drops by `least`.
  lemma MoveCalms(w: World, a: Action, e: EntityId, limit: real, least: real)
    requires Quiet(w, a, e, least) && Moves(a, e) && Roaming(BodyOf(w, e), limit) && limit >= 0.0 && least > 0.0
    ensures Calm(BodyOf(Apply(w, a), e), limit, limit)
    ensures forall bound :: Calm(BodyOf(w, e), limit, bound) ==> Calm(BodyOf(Apply(w, a), e), limit, bound - least)
  {
    var m := BodyOf(w, e).movable.value;
    var push, friction := Push(m, a.dt as real), Friction(m, a.coefficient, a.dt as real);
    StepLimits(m.velocity, push, friction, limit, a.magnitude);
    var m' := MovementStep(m, a.coefficient, a.dt as real, a.magnitude);
    assert BodyOf(Apply(w, a), e).movable == Some(m');
    if m.acceleration == ZERO {
      assert push == ZERO;
      StepSlows(m.velocity, friction, limit, a.magnitude, least);
    }
  }

  // The bound after n moves: the limit at first, and `least` less with each further one.
  function Bound(n: nat, limit: real, least: real): real {
    if n <= 1 then limit else Bound(n - 1, limit, least) - least
  }

  lemma {:induction false} BoundFalls(n: nat, k: nat, limit: real, least: real)
    requires n >= k + 1 && least > 0.0
    ensures Bound(n, limit, least) <= limit - k as real * least
  {
    if k == 0 {
      if n > 1 {
        BoundFalls(n - 1, 0, limit, least);
      }
    } else {
      BoundFalls(n - 1, k - 1, limit, least);
      assert k as real * least == (k - 1) as real * least + least;
    }
  }

  lemma {:induction false} Slowing(w: World, actions: seq<Action>, e: EntityId, limit: real, least: real)
    requires Consistent(w) && IsServer(w.systems) && QuietRun(w, actions, e, least)
    requires Roaming(BodyOf(w, e), limit) && limit >= 0.0 && least > 0.0
    ensures var n, b := MoveCount(actions, e), BodyOf(Run(w, actions), e);
            Roaming(b, limit) && (n > 0 ==> Calm(b, limit, Bound(n, limit, least)))
  {
    if actions != [] {
      var before, last := actions[..|actions| - 1], actions[|actions| - 1];
      var w' := Run(w, before);
      Slowing(w, before, e, limit, least);
      assert Consistent(w') by {
        IndexInEveryRun(w, before);
      }
      if Moves(last, e) {
        MoveCalms(w', last, e, limit, least);
      } else {
        QuietSettles(w', last, e, limit, least);
      }
    }
  }

  // k + 1 moves stop an entity whose maximal velocity is at most k times the least friction.
  lemma ComesToRest(w: World, actions: seq<Action>, e: EntityId, limit: real, least: real, k: nat)
    requires Consistent(w) && IsServer(w.systems) && QuietRun(w, actions, e, least)
    requires Roaming(BodyOf(w, e), limit) && limit >= 0.0 && least > 0.0
    requires k as real * least >= limit && MoveCount(actions, e) >= k + 1
    ensures Calm(BodyOf(Run(w, actions), e), limit, 0.0)
    ensures BodyOf(Run(w, actions), e).movable.value.velocity == ZERO
  {
    var n, b := MoveCount(actions, e), BodyOf(Run(w, actions), e);
    var bound := Bound(n, limit, least);
    assert Calm(b, limit, bound) by {
      Slowing(w, actions, e, limit, least);
    }
    assert bound <= 0.0 by {
      BoundFalls(n, k, limit, least);
    }
  }

  // ---------- whole ticks ----------

  // A tick: the systems' updates in some order, then the events they queued.
  datatype Tick = Tick(updates: seq<Action>, deliveries: seq<Action>)

  function RunTick(w: World, t: Tick): World {
    Run(Run(w, t.updates), t.deliveries)
  }

  function RunTicks(w: World, ticks: seq<Tick>): World {
    if ticks == [] then w else RunTick(RunTicks(w, ticks[..|ticks| - 1]), ticks[|ticks| - 1])
  }

  // e has its turn in S_Movement and in S_State, and handleEvents hands S_State the Became_Idle left for e.
  ghost predicate FullTick(w: World, t: Tick, e: EntityId) {
    && MoveCount(t.updates, e) >= 1
    && CheckWalk(e) in t.updates
    && (forall a :: a in t.updates ==> !a.TakeQueue?)
    && (BecameIdle in EventsOf(Run(w, t.updates), e) ==> Handle(StateMachine, e, BecameIdle) in t.deliveries)
  }

  ghost predicate QuietTicks(w: World, ticks: seq<Tick>, e: EntityId, least: real) {
    ticks == [] ||
    (var before, last := RunTicks(w, ticks[..|ticks| - 1]), ticks[|ticks| - 1];
     && QuietTicks(w, ticks[..|ticks| - 1], e, least)
     && QuietRun(before, last.updates, e, least)
     && QuietRun(Run(before, last.updates), last.deliveries, e, least)
     && FullTick(before, last, e))
  }

  lemma TurnQueuesNothing(w: World, a: Action)
    requires a.RunTimer? || a.MoveBody? || a.PlaceArea? || a.Label? || a.Handle?
    ensures Apply(w, a).events == w.events
  {
  }

  // Events stay queued until handleEvents takes the queue.
  lemma EventsStay(w: World, a: Action, e: EntityId)
    requires Consistent(w) && GameStep(w, a) && !a.TakeQueue?
    ensures BecameIdle in EventsOf(w, e) ==> BecameIdle in EventsOf(Apply(w, a), e)
  {
    hide Strike, TimerStep, MotionStep, AreaStep, Deliver, Labelled, InputStep;
    match a {
      case Attack(s, r) => StrikeQuiet(w, s, r);
      case RunTimer(_, _) => TurnQueuesNothing(w, a);
      case MoveBody(_, _, _, _) => TurnQueuesNothing(w, a);
      case PlaceArea(_) => TurnQueuesNothing(w, a);
      case Label(_, _) => TurnQueuesNothing(w, a);
      case Handle(_, _, _) => TurnQueuesNothing(w, a);
      case SpawnEntity(archetype) =>
        var id := NewId(w, NULL_ID);
        if id !in w.entities {
          EmptyRecordConsistent(w, id, w.idCounter + 1);
          AddComponentsConsistent(w.(entities := w.entities[id := NO_DATA], idCounter := w.idCounter + 1), id,
                                  archetype.bits, N_COMPONENT_TYPES);
        }
      case ResolveMap(f, p, c, events) =>
        QueuesStay(SetBody(w, f, BodyOf(w, f).(position := Some(p), collidable := Some(c))), f, events, e);
      case TakeInput(f) => InputEvents(w, f, e);
      case _ =>
    }
  }

  lemma InputEvents(w: World, f: EntityId, e: EntityId)
    ensures BecameIdle in EventsOf(w, e) ==> BecameIdle in EventsOf(InputStep(w, f), e)
  {
    var p := InputOf(w, f);
    var w1 := w.(input := w.input[f := p]);
    var w2 := MoveX(w1, f, p.movedX);
    assert BecameIdle in EventsOf(w, e) ==> BecameIdle in EventsOf(w2, e);
    var w3 := MoveY(w2, f, p.movedY);
    assert BecameIdle in EventsOf(w, e) ==> BecameIdle in EventsOf(w3, e);
  }

  lemma {:induction false} QueuesStay(w: World, f: EntityId, events: seq<EntityEvent>, e: EntityId)
    ensures BecameIdle in EventsOf(w, e) ==> BecameIdle in EventsOf(QueueAll(w, f, events), e)
  {
    if events != [] {
      QueuesStay(w, f, events[..|events| - 1], e);
    }
  }

  // e is at rest and stays so.
  ghost predicate Resting(w: World, e: EntityId, limit: real) {
    Calm(BodyOf(w, e), limit, 0.0)
  }

  // e is idle, or about to be told so.
  ghost predicate Told(w: World, e: EntityId) {
    InState(w, e, Idle) || BecameIdle in EventsOf(w, e)
  }

  lemma RestingStays(w: World, a: Action, e: EntityId, limit: real, least: real)
    requires Consistent(w) && Quiet(w, a, e, least) && Resting(w, e, limit) && limit >= 0.0 && least > 0.0
    ensures Resting(Apply(w, a), e, limit)
    ensures InState(w, e, Idle) ==> InState(Apply(w, a), e, Idle)
  {
    if Moves(a, e) {
      MoveCalms(w, a, e, limit, least);
    } else {
      QuietSettles(w, a, e, limit, least);
    }
  }

  lemma WalkCheckTells(w: World, e: EntityId, limit: real)
    requires Consistent(w) && IsServer(w.systems) && Resting(w, e, limit) && e in w.entities
    ensures Told(WalkCheck(w, e), e)
  {
    var b := w.entities[e].body;
    assert {MOVABLE, POSITION, STATE} <= w.entities[e].mask by {
      HasIsPresence(b, MOVABLE);
      HasIsPresence(b, POSITION);
      HasIsPresence(b, STATE);
    }
    assert {MOVABLE, POSITION, STATE} in ServerRequirements(Movement);
    HeldWhenEquipped(w, Movement, e, {MOVABLE, POSITION, STATE});
  }

  lemma ToldIsIdle(w: World, e: EntityId, limit: real)
    requires Resting(w, e, limit)
    ensures InState(Apply(w, Handle(StateMachine, e, BecameIdle)), e, Idle)
  {
  }

  // A resting entity stays at rest; idle, it stays idle; told it is idle, it is.
  lemma {:induction false} RestRun(w: World, actions: seq<Action>, e: EntityId, limit: real, least: real)
    requires Consistent(w) && IsServer(w.systems) && QuietRun(w, actions, e, least)
    requires Resting(w, e, limit) && limit >= 0.0 && least > 0.0
    ensures Resting(Run(w, actions), e, limit)
    ensures InState(w, e, Idle) || Handle(StateMachine, e, BecameIdle) in actions ==> InState(Run(w, actions), e, Idle)
  {
    hide Apply, Resting, Consistent, IsServer, InState, Quiet;
    if actions != [] {
      var before, last := actions[..|actions| - 1], actions[|actions| - 1];
      var w' := Run(w, before);
      RestRun(w, before, e, limit, least);
      IndexInEveryRun(w, before);
      RestingStays(w', last, e, limit, least);
      ToldIsIdle(w', e, limit);
      assert actions == before + [last];
    }
  }

  // Having its walk checked, a resting entity is idle, or will be told so.
  lemma {:induction false} CheckedRun(w: World, actions: seq<Action>, e: EntityId, limit: real, least: real)
    requires Consistent(w) && IsServer(w.systems) && QuietRun(w, actions, e, least)
    requires Resting(w, e, limit) && limit >= 0.0 && least > 0.0
    requires CheckWalk(e) in actions && forall a :: a in actions ==> !a.TakeQueue?
    ensures Told(Run(w, actions), e)
  {
    var before, last := actions[..|actions| - 1], actions[|actions| - 1];
    var w' := Run(w, before);
    assert actions == before + [last];
    assert Consistent(w') && IsServer(w'.systems) by {
      IndexInEveryRun(w, before);
    }
    assert Resting(w', e, limit) by {
      RestRun(w, before, e, limit, least);
    }
    if last == CheckWalk(e) {
      assert e in w'.entities;
      WalkCheckTells(w', e, limit);
    } else {
      CheckedRun(w, before, e, limit, least);
      RestingStays(w', last, e, limit, least);
      EventsStay(w', last, e);
    }
  }

  lemma IndexInTicks(w: World, ticks: seq<Tick>)
    requires Consistent(w) && IsServer(w.systems)
    ensures Consistent(RunTicks(w, ticks)) && IsServer(RunTicks(w, ticks).systems)
  {
    if ticks != [] {
      var w' := RunTicks(w, ticks[..|ticks| - 1]);
      IndexInTicks(w, ticks[..|ticks| - 1]);
      IndexInEveryRun(w', ticks[|ticks| - 1].updates);
      IndexInEveryRun(Run(w', ticks[|ticks| - 1].updates), ticks[|ticks| - 1].deliveries);
    }
  }

  function AllActions(ticks: seq<Tick>): seq<Action> {
    if ticks == [] then []
    else AllActions(ticks[..|ticks| - 1]) + (ticks[|ticks| - 1].updates + ticks[|ticks| - 1].deliveries)
  }

  lemma {:induction false} QuietConcat(w: World, a: seq<Action>, b: seq<Action>, e: EntityId, least: real)
    requires QuietRun(w, a, e, least) && QuietRun(Run(w, a), b, e, least)
    ensures QuietRun(w, a + b, e, least)
  {
    if b == [] {
      assert a + b == a;
    } else {
      var before := b[..|b| - 1];
      assert (a + b)[..|a + b| - 1] == a + before;
      QuietConcat(w, a, before, e, least);
      RunConcat(w, a, before);
    }
  }

  lemma {:induction false} MoveCountConcat(a: seq<Action>, b: seq<Action>, e: EntityId)
    ensures MoveCount(a + b, e) == MoveCount(a, e) + MoveCount(b, e)
  {
    if b == [] {
      assert a + b == a;
    } else {
      assert (a + b)[..|a + b| - 1] == a + b[..|b| - 1];
      MoveCountConcat(a, b[..|b| - 1], e);
    }
  }

  // Ticks, flattened.
  lemma {:induction false} Flattened(w: World, ticks: seq<Tick>, e: EntityId, least: real)
    requires QuietTicks(w, ticks, e, least)
    ensures Run(w, AllActions(ticks)) == RunTicks(w, ticks)
    ensures QuietRun(w, AllActions(ticks), e, least)
    ensures MoveCount(AllActions(ticks), e) >= |ticks|
  {
    if ticks != [] {
      var rest, t := ticks[..|ticks| - 1], ticks[|ticks| - 1];
      Flattened(w, rest, e, least);
      var w' := RunTicks(w, rest);
      RunConcat(w', t.updates, t.deliveries);
      QuietConcat(w', t.updates, t.deliveries, e, least);
      RunConcat(w, AllActions(rest), t.updates + t.deliveries);
      QuietConcat(w, AllActions(rest), t.updates + t.deliveries, e, least);
      MoveCountConcat(t.updates, t.deliveries, e);
      MoveCountConcat(AllActions(rest), t.updates + t.deliveries, e);
    }
  }

  // Within k + 2 full ticks, whatever the order of the systems in each, the entity stands still and is idle.
  lemma WalkingSettles(w: World, ticks: seq<Tick>, e: EntityId, limit: real, least: real, k: nat)
    requires Consistent(w) && IsServer(w.systems) && QuietTicks(w, ticks, e, least)
    requires Roaming(BodyOf(w, e), limit) && limit >= 0.0 && least > 0.0
    requires k as real * least >= limit && |ticks| >= k + 2
    ensures InState(RunTicks(w, ticks), e, Idle) && Resting(RunTicks(w, ticks), e, limit)
    ensures BodyOf(RunTicks(w, ticks), e).movable.value.velocity == ZERO
  {
    var rest, t := ticks[..|ticks| - 1], ticks[|ticks| - 1];
    var w1 := RunTicks(w, rest);
    assert Resting(w1, e, limit) by {
      Flattened(w, rest, e, least);
      ComesToRest(w, AllActions(rest), e, limit, least, k);
    }
    IndexInTicks(w, rest);
    RestRun(w1, t.updates, e, limit, least);
    CheckedRun(w1, t.updates, e, limit, least);
    IndexInEveryRun(w1, t.updates);
    RestRun(Run(w1, t.updates), t.deliveries, e, limit, least);
  }
}
