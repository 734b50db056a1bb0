/** From a player's input to the way its entity goes: S_Network, S_State, S_Control and S_Movement end to end. */
module Steering {
  import opened Components
  import opened Ecs
  import opened Motion
  import opened Rules
  import opened Machine
  import opened Drain

  // ---------- input becomes events and a state ----------

  // What the player asks for: left or right, then up or down, then an attack.
  function Wanted(p: PlayerInput): seq<EntityEvent> {
    Sideways(p.movedX) + Upright(p.movedY) + (if p.attacking then [BeganAttacking] else [])
  }

  function Sideways(x: int): seq<EntityEvent> {
    if x > 0 then [MovingRight] else if x < 0 then [MovingLeft] else []
  }

  // The screen's y axis points down.
  function Upright(y: int): seq<EntityEvent> {
    if y > 0 then [MovingDown] else if y < 0 then [MovingUp] else []
  }

  // The entity can do what it is asked: S_State holds it, and it is neither attacking nor dying.
  predicate Free(w: World, e: EntityId) {
    e in ListOf(w, StateMachine) && BodyOf(w, e).state.Some? && !InState(w, e, Attacking) && !InState(w, e, Dying)
  }

  // The queues with more events at the end of that of e.
  function Longer(queues: EventQueues, e: EntityId, more: seq<EntityEvent>): EventQueues {
    if more == [] then queues else queues[e := (if e in queues then queues[e] else []) + more]
  }

  // The world with events added to the queue of e, and e in the state.
  function Asked(w: World, e: EntityId, events: seq<EntityEvent>, s: Option<EntityState>): World {
    SetBody(w.(events := Longer(w.events, e, events)), e, BodyOf(w, e).(state := s))
  }

  lemma MoveAsks(w: World, e: EntityId, d: Direction)
    requires Free(w, e)
    ensures OnMove(w, e, d) == Asked(w, e, [MovingEvent(d)], Some(Walking))
  {
  }

  lemma AttackAsks(w: World, e: EntityId)
    requires Free(w, e)
    ensures OnAttack(w, e) == Asked(w, e, [BeganAttacking], Some(Attacking))
  {
  }

  lemma LongerTwice(queues: EventQueues, e: EntityId, a: seq<EntityEvent>, b: seq<EntityEvent>)
    ensures Longer(Longer(queues, e, a), e, b) == Longer(queues, e, a + b)
  {
    assert a + [] == a && [] + b == b;
    var queue := if e in queues then queues[e] else [];
    assert queue + a + b == queue + (a + b);
  }

  lemma AskedTwice(w: World, e: EntityId, a: seq<EntityEvent>, b: seq<EntityEvent>, s: Option<EntityState>,
                   t: Option<EntityState>)
    requires e in w.entities
    ensures Asked(Asked(w, e, a, s), e, b, t) == Asked(w, e, a + b, t)
  {
    hide Longer;
    LongerTwice(w.events, e, a, b);
  }

  lemma AskedOnce(w: World, e: EntityId, a: seq<EntityEvent>, s: Option<EntityState>)
    requires e in w.entities
    ensures Asked(w, e, [], BodyOf(w, e).state) == w
    ensures BodyOf(Asked(w, e, a, s), e) == BodyOf(w, e).(state := s)
    ensures Asked(w, e, a, s).systems == w.systems && e in Asked(w, e, a, s).entities
  {
  }

  lemma SidewaysAsks(w: World, e: EntityId, x: int)
    requires Free(w, e)
    ensures MoveX(w, e, x) == Asked(w, e, Sideways(x), if x != 0 then Some(Walking) else BodyOf(w, e).state)
    ensures Free(MoveX(w, e, x), e)
  {
    AskedOnce(w, e, Sideways(x), Some(Walking));
    if x != 0 {
      MoveAsks(w, e, if x > 0 then Right else Left);
    }
    hide Asked, OnMove;
  }

  lemma UprightAsks(w: World, e: EntityId, y: int)
    requires Free(w, e)
    ensures MoveY(w, e, y) == Asked(w, e, Upright(y), if y != 0 then Some(Walking) else BodyOf(w, e).state)
    ensures Free(MoveY(w, e, y), e)
  {
    AskedOnce(w, e, Upright(y), Some(Walking));
    if y != 0 {
      MoveAsks(w, e, if y > 0 then Down else Up);
    }
    hide Asked, OnMove;
  }

  lemma AttackAsked(w: World, e: EntityId, attacking: bool)
    requires Free(w, e)
    ensures (if attacking then OnAttack(w, e) else w) ==
            Asked(w, e, if attacking then [BeganAttacking] else [],
                  if attacking then Some(Attacking) else BodyOf(w, e).state)
  {
    AskedOnce(w, e, [], None);
    if attacking {
      AttackAsks(w, e);
    }
    hide Asked, OnAttack;
  }

  // A turn in S_Network makes of the input exactly the events that were asked for, in that order, and the state that
  // goes with the last of them.
  lemma InputOutcome(w: World, e: EntityId)
    requires Free(w, e)
    ensures var p, b := InputOf(w, e), BodyOf(w, e);
            InputStep(w, e) ==
            Asked(w.(input := w.input[e := p]), e, Wanted(p),
                  if p.attacking then Some(Attacking)
                  else if p.movedX != 0 || p.movedY != 0 then Some(Walking)
                  else b.state)
  {
    var p := InputOf(w, e);
    var w0 := w.(input := w.input[e := p]);
    var s0, x, y := BodyOf(w, e).state, Sideways(p.movedX), Upright(p.movedY);
    var s1 := if p.movedX != 0 then Some(Walking) else s0;
    var s2 := if p.movedY != 0 then Some(Walking) else s1;
    var z, s3 := if p.attacking then [BeganAttacking] else [], if p.attacking then Some(Attacking) else s2;
    assert Free(w0, e) && e in w0.entities;
    hide Asked, MoveX, MoveY, OnAttack, Free, Sideways, Upright;
    SidewaysAsks(w0, e, p.movedX);
    AskedOnce(w0, e, x, s1);
    UprightAsks(MoveX(w0, e, p.movedX), e, p.movedY);
    AskedTwice(w0, e, x, y, s1, s2);
    AskedOnce(w0, e, x + y, s2);
    AttackAsked(MoveY(MoveX(w0, e, p.movedX), e, p.movedY), e, p.attacking);
    AskedTwice(w0, e, x + y, z, s2, s3);
  }

  // Whoever is not free ignores it.
  lemma InputIgnored(w: World, e: EntityId)
    requires e !in ListOf(w, StateMachine) || InState(w, e, Attacking) || InState(w, e, Dying)
    ensures InputStep(w, e) == w.(input := w.input[e := InputOf(w, e)])
  {
  }

  // ---------- events become acceleration ----------

  // What an event adds to the acceleration of whoever S_Control holds.
  function Drive(event: EntityEvent, speed: Vec): Vec {
    match event
    case MovingLeft => Vec(-speed.x, 0.0)
    case MovingRight => Vec(speed.x, 0.0)
    case MovingUp => Vec(0.0, -speed.y)
    case MovingDown => Vec(0.0, speed.y)
    case _ => ZERO
  }

  // From w to w' nothing happens to the place and the motion of e but `extra` acceleration, and a turn perhaps.
  ghost predicate Pressed(w: World, w': World, e: EntityId, extra: Vec) {
    var b, b' := BodyOf(w, e), BodyOf(w', e);
    && b.movable.Some? && b'.movable.Some? && b'.position == b.position
    && var m, m' := b.movable.value, b'.movable.value;
       m' == m.(acceleration := Plus(m.acceleration, extra), direction := m'.direction)
  }

  predicate Collides(event: EntityEvent) {
    event == CollidingX || event == CollidingY
  }

  lemma EventDrives(w: World, s: System, e: EntityId, event: EntityEvent)
    requires BodyOf(w, e).movable.Some? && !Collides(event)
    ensures Pressed(w, Deliver(w, s, e, event), e,
                   if s == Control then Drive(event, BodyOf(w, e).movable.value.speed) else ZERO)
  {
  }

  lemma PressedTwice(w: World, w1: World, w2: World, e: EntityId, a: Vec, b: Vec)
    requires Pressed(w, w1, e, a) && Pressed(w1, w2, e, b)
    ensures Pressed(w, w2, e, Plus(a, b))
  {
  }

  // One event, handed to all systems that hold e, which `w` says.
  lemma {:induction false} HandlersDrive(w: World, start: World, order: seq<System>, e: EntityId, event: EntityEvent)
    requires DistinctSystems(order) && BodyOf(start, e).movable.Some? && !Collides(event)
    ensures Pressed(start, Run(start, EventHandlers(w, order, e, event)), e,
                   if Control in order && e in ListOf(w, Control)
                   then Drive(event, BodyOf(start, e).movable.value.speed)
                   else ZERO)
  {
    hide Apply, Deliver, Drive, ListOf;
    if order != [] {
      var before, last := order[..|order| - 1], order[|order| - 1];
      assert order == before + [last] && last !in before;
      var first := EventHandlers(w, before, e, event);
      var middle, speed := Run(start, first), BodyOf(start, e).movable.value.speed;
      HandlersDrive(w, start, before, e, event);
      RunConcat(start, first, Handed(w, last, e, event));
      if e in ListOf(w, last) {
        EventDrives(middle, last, e, event);
        OneHandled(middle, last, e, event);
        PressedTwice(start, middle, Deliver(middle, last, e, event), e,
                    if Control in before && e in ListOf(w, Control) then Drive(event, speed) else ZERO,
                    if last == Control then Drive(event, speed) else ZERO);
      }
    }
  }

  lemma OneHandled(w: World, s: System, e: EntityId, event: EntityEvent)
    ensures Run(w, [Handle(s, e, event)]) == Deliver(w, s, e, event)
  {
    assert [Handle(s, e, event)][..0] == [];
  }

  function Drives(events: seq<EntityEvent>, speed: Vec): Vec {
    if events == [] then ZERO else Plus(Drives(events[..|events| - 1], speed), Drive(events[|events| - 1], speed))
  }

  // A queue, handed out to all systems, for an entity S_Control holds.
  lemma {:induction false} QueueDrives(w: World, start: World, order: seq<System>, e: EntityId,
                                       events: seq<EntityEvent>)
    requires DistinctSystems(order) && Control in order && e in ListOf(w, Control)
    requires BodyOf(start, e).movable.Some? && forall event :: event in events ==> !Collides(event)
    ensures Pressed(start, Run(start, QueueDeliveries(w, order, e, events)), e,
                   Drives(events, BodyOf(start, e).movable.value.speed))
  {
    hide Apply, Drive, ListOf, EventHandlers, Collides, DistinctSystems;
    if events != [] {
      var before, last := events[..|events| - 1], events[|events| - 1];
      assert events == before + [last];
      var middle := Run(start, QueueDeliveries(w, order, e, before));
      QueueDrives(w, start, order, e, before);
      HandlersDrive(w, middle, order, e, last);
      RunConcat(start, QueueDeliveries(w, order, e, before), EventHandlers(w, order, e, last));
      PressedTwice(start, middle, Run(middle, EventHandlers(w, order, e, last)), e,
                  Drives(before, BodyOf(start, e).movable.value.speed),
                  Drive(last, BodyOf(start, e).movable.value.speed));
    }
  }

  lemma PartsDrive(x: int, y: int, attacking: bool, speed: Vec)
    ensures Drives(Sideways(x), speed) == Vec(WishAlong(x, speed.x), 0.0)
    ensures Drives(Upright(y), speed) == Vec(0.0, WishAlong(y, speed.y))
    ensures Drives(if attacking then [BeganAttacking] else [], speed) == ZERO
  {
    DrivesAtMostOne(Sideways(x), speed);
    DrivesAtMostOne(Upright(y), speed);
    DrivesAtMostOne(if attacking then [BeganAttacking] else [], speed);
    hide Drives;
  }

  lemma WantedDrives(p: PlayerInput, speed: Vec)
    ensures Drives(Wanted(p), speed) == Wish(p, speed)
  {
    hide Drives, Sideways, Upright, WishAlong;
    PartsDrive(p.movedX, p.movedY, p.attacking, speed);
    DrivesBoth(Sideways(p.movedX), Upright(p.movedY), speed);
    DrivesBoth(Sideways(p.movedX) + Upright(p.movedY), if p.attacking then [BeganAttacking] else [], speed);
  }

  lemma WantedNoCollision(p: PlayerInput)
    ensures forall event :: event in Wanted(p) ==> !Collides(event)
  {
  }

  lemma DrivesAtMostOne(events: seq<EntityEvent>, speed: Vec)
    requires |events| <= 1
    ensures Drives(events, speed) == if events == [] then ZERO else Drive(events[0], speed)
  {
  }

  lemma {:induction false} DrivesBoth(a: seq<EntityEvent>, b: seq<EntityEvent>, speed: Vec)
    ensures Drives(a + b, speed) == Plus(Drives(a, speed), Drives(b, speed))
  {
    if b == [] {
      assert a + b == a;
    } else {
      assert (a + b)[..|a + b| - 1] == a + b[..|b| - 1];
      DrivesBoth(a, b[..|b| - 1], speed);
    }
  }

  // The acceleration the input asks for: along each axis by its sign.
  function Wish(p: PlayerInput, speed: Vec): Vec {
    Vec(WishAlong(p.movedX, speed.x), WishAlong(p.movedY, speed.y))
  }

  function WishAlong(x: int, speed: real): real {
    if x > 0 then speed else if x < 0 then -speed else 0.0
  }

  // The world when handleEvents has drained the queue of e.
  ghost function Drained(w: World, order: seq<System>, e: EntityId): World {
    Run(Apply(w, TakeQueue(e)), QueueDeliveries(w, order, e, EventsOf(w, e)))
  }

  lemma DrainDrives(w: World, order: seq<System>, e: EntityId)
    requires BodyOf(w, e).movable.Some? && forall event :: event in EventsOf(w, e) ==> !Collides(event)
    requires DistinctSystems(order) && Control in order && e in ListOf(w, Control)
    ensures Pressed(w, Drained(w, order, e), e, Drives(EventsOf(w, e), BodyOf(w, e).movable.value.speed))
  {
    hide Drives;
    QueueDrives(w, Apply(w, TakeQueue(e)), order, e, EventsOf(w, e));
    hide QueueDeliveries, Run;
  }

  // The input of a player S_Control holds, handed out by handleEvents, is acceleration along each axis by the sign of
  // the input, whatever the order of the systems.
  lemma InputDrives(w: World, order: seq<System>, e: EntityId)
    requires Free(w, e) && EventsOf(w, e) == [] && BodyOf(w, e).movable.Some?
    requires DistinctSystems(order) && Control in order && e in ListOf(w, Control)
    ensures var p, speed := InputOf(w, e), BodyOf(w, e).movable.value.speed;
            Pressed(w, Drained(InputStep(w, e), order, e), e, Wish(p, speed))
  {
    var p, speed, w1 := InputOf(w, e), BodyOf(w, e).movable.value.speed, InputStep(w, e);
    hide InputStep, Drained, Wanted, Wish, Free, DistinctSystems, Pressed, Plus;
    InputQueued(w, e);
    DrainWanted(w1, order, e, p);
    PressedTwice(w, w1, Drained(w1, order, e), e, ZERO, Wish(p, speed));
    ZeroPlus(Wish(p, speed));
  }

  lemma DrainWanted(w: World, order: seq<System>, e: EntityId, p: PlayerInput)
    requires BodyOf(w, e).movable.Some? && EventsOf(w, e) == Wanted(p)
    requires DistinctSystems(order) && Control in order && e in ListOf(w, Control)
    ensures var speed := BodyOf(w, e).movable.value.speed;
            Pressed(w, Drained(w, order, e), e, Wish(p, speed))
  {
    hide Wanted, Wish, Drained, Pressed, Drives, DistinctSystems, Collides;
    WantedNoCollision(p);
    WantedDrives(p, BodyOf(w, e).movable.value.speed);
    DrainDrives(w, order, e);
  }

  lemma ZeroPlus(v: Vec)
    ensures Plus(ZERO, v) == v
  {
  }

  lemma InputQueued(w: World, e: EntityId)
    requires Free(w, e) && EventsOf(w, e) == [] && BodyOf(w, e).movable.Some?
    ensures var w1 := InputStep(w, e);
            && EventsOf(w1, e) == Wanted(InputOf(w, e)) && (forall s :: ListOf(w1, s) == ListOf(w, s))
            && Pressed(w, w1, e, ZERO) && BodyOf(w1, e).movable.Some?
            && BodyOf(w1, e).movable.value.speed == BodyOf(w, e).movable.value.speed
  {
    hide InputStep, Wanted;
    InputOutcome(w, e);
    assert [] + Wanted(InputOf(w, e)) == Wanted(InputOf(w, e));
  }

  // ---------- acceleration becomes movement ----------

  // A turn in S_Movement: the entity is displaced by the velocity it comes out with, remembers where it was, and has no
  // acceleration left; nothing else of it changes, and nothing of anyone else.
  lemma MotionOutcome(w: World, e: EntityId, coefficient: Vec, dt: nat, magnitude: real, f: EntityId)
    requires BodyOf(w, e).movable.Some? && BodyOf(w, e).position.Some?
    ensures var b, b' := BodyOf(w, e), BodyOf(MotionStep(w, e, coefficient, dt, magnitude), e);
            && b'.movable.Some? && b'.position.Some? && b'.(movable := b.movable, position := b.position) == b
            && var m, m', p, p' := b.movable.value, b'.movable.value, b.position.value, b'.position.value;
               && m' == m.(velocity := m'.velocity, acceleration := Vec(0.0, 0.0))
               && p'.at == Vec(p.at.x + m'.velocity.x, p.at.y + m'.velocity.y)
               && p'.previous == p.at && p'.elevation == p.elevation
    ensures f != e ==> BodyOf(MotionStep(w, e, coefficient, dt, magnitude), f) == BodyOf(w, f)
  {
    hide Stepped, Push, Friction;
  }

  // What acceleration makes of a frame's time on an axis, and what the friction of the tile takes in it.
  function Gain(acceleration: real, dt: nat): real {
    acceleration * dt as real
  }

  function Drag(speed: real, coefficient: real, dt: nat): real {
    speed * coefficient * dt as real
  }

  // On an axis: to the side of the gain, if gain and limit are more than the drag, and otherwise not at all.
  predicate Goes(from: real, to: real, gain: real, drag: real, limit: real) {
    (to > from <==> gain > drag && limit > drag) && (to < from <==> -gain > drag && limit > drag)
  }

  // From rest it goes where it is accelerated: along each axis, if and only if acceleration and maximal velocity are
  // more than the friction of the tile takes; accelerated along one axis, by exactly what friction leaves.
  lemma GoesWhereAccelerated(w: World, e: EntityId, coefficient: Vec, dt: nat, magnitude: real)
    requires BodyOf(w, e).movable.Some? && BodyOf(w, e).position.Some?
    requires var m := BodyOf(w, e).movable.value;
             && m.velocity == ZERO && m.maxVelocity >= 0.0
             && Drag(m.speed.x, coefficient.x, dt) >= 0.0 && Drag(m.speed.y, coefficient.y, dt) >= 0.0
    requires IsMotionMagnitude(w, e, coefficient, dt, magnitude)
    ensures var m, p := BodyOf(w, e).movable.value, BodyOf(w, e).position.value;
            var p' := BodyOf(MotionStep(w, e, coefficient, dt, magnitude), e).position;
            var gainX, gainY := Gain(m.acceleration.x, dt), Gain(m.acceleration.y, dt);
            var dragX, dragY := Drag(m.speed.x, coefficient.x, dt), Drag(m.speed.y, coefficient.y, dt);
            && p'.Some?
            && Goes(p.at.x, p'.value.at.x, gainX, dragX, m.maxVelocity)
            && Goes(p.at.y, p'.value.at.y, gainY, dragY, m.maxVelocity)
            && (gainY == 0.0 ==> p'.value.at == Vec(p.at.x + Remains(gainX, dragX, m.maxVelocity), p.at.y))
            && (gainX == 0.0 ==> p'.value.at == Vec(p.at.x, p.at.y + Remains(gainY, dragY, m.maxVelocity)))
  {
    hide MotionStep, Push, Friction, Unclamped, IsMagnitude, Remains, Gain, Drag;
    var m := BodyOf(w, e).movable.value;
    MotionOutcome(w, e, coefficient, dt, magnitude, e);
    VelocityOutcome(w, e, coefficient, dt, magnitude);
    StepFromRest(Push(m, dt as real), Friction(m, coefficient, dt as real), m.maxVelocity, magnitude);
  }

  lemma VelocityOutcome(w: World, e: EntityId, coefficient: Vec, dt: nat, magnitude: real)
    requires BodyOf(w, e).movable.Some? && BodyOf(w, e).position.Some?
    ensures var m, m' := BodyOf(w, e).movable.value, BodyOf(MotionStep(w, e, coefficient, dt, magnitude), e).movable;
            var push, friction := Push(m, dt as real), Friction(m, coefficient, dt as real);
            && m'.Some? && m'.value.velocity == Stepped(m.velocity, push, friction, m.maxVelocity, magnitude)
            && push == Vec(Gain(m.acceleration.x, dt), Gain(m.acceleration.y, dt))
            && friction == Vec(Drag(m.speed.x, coefficient.x, dt), Drag(m.speed.y, coefficient.y, dt))
  {
    hide Stepped;
  }

  // On an axis: the way that was asked for, if it is able to, and otherwise not at all.
  predicate AsAsked(from: real, to: real, wanted: int, able: bool) {
    (to > from <==> wanted > 0 && able) && (to < from <==> wanted < 0 && able)
  }

  // From the keys to the map: a player at rest asks for a way, handleEvents hands that out, and its next turn in
  // S_Movement takes it that way along each axis, if and only if its speed and its maximal velocity overcome the
  // friction of the tile below it.
  lemma PlayerGoesItsWay(w: World, order: seq<System>, e: EntityId, coefficient: Vec, dt: nat, magnitude: real)
    requires Free(w, e) && EventsOf(w, e) == [] && AtRest(BodyOf(w, e))
    requires DistinctSystems(order) && Control in order && e in ListOf(w, Control)
    requires coefficient.x >= 0.0 && coefficient.y >= 0.0
    requires IsMotionMagnitude(Drained(InputStep(w, e), order, e), e, coefficient, dt, magnitude)
    ensures var p, m := InputOf(w, e), BodyOf(w, e).movable.value;
            var from := BodyOf(w, e).position.value.at;
            var to := BodyOf(MotionStep(Drained(InputStep(w, e), order, e), e, coefficient, dt, magnitude), e).position;
            && to.Some?
            && AsAsked(from.x, to.value.at.x, p.movedX, Overcomes(m.speed.x, m.maxVelocity, coefficient.x, dt))
            && AsAsked(from.y, to.value.at.y, p.movedY, Overcomes(m.speed.y, m.maxVelocity, coefficient.y, dt))
  {
    hide InputStep, Drained, MotionStep, Free, DistinctSystems, Overcomes, IsMotionMagnitude, Wish;
    var w2 := Drained(InputStep(w, e), order, e);
    InputDrives(w, order, e);
    WishedTurn(w, w2, e, InputOf(w, e), coefficient, dt, magnitude);
  }

  // e stands still, and nothing accelerates it.
  ghost predicate AtRest(b: Body) {
    && b.movable.Some? && b.position.Some?
    && var m := b.movable.value;
       m.velocity == ZERO && m.acceleration == ZERO && m.maxVelocity >= 0.0 && m.speed.x >= 0.0 && m.speed.y >= 0.0
  }

  // The root that the turn of e in S_Movement takes.
  ghost predicate IsMotionMagnitude(w: World, e: EntityId, coefficient: Vec, dt: nat, magnitude: real) {
    BodyOf(w, e).movable.Some? ==>
      var m := BodyOf(w, e).movable.value;
      IsMagnitude(Unclamped(m.velocity, Push(m, dt as real), Friction(m, coefficient, dt as real), m.maxVelocity),
                  magnitude)
  }

  predicate Overcomes(speed: real, limit: real, coefficient: real, dt: nat) {
    Gain(speed, dt) > Drag(speed, coefficient, dt) && limit > Drag(speed, coefficient, dt)
  }

  lemma WishedTurn(w: World, w2: World, e: EntityId, p: PlayerInput, coefficient: Vec, dt: nat, magnitude: real)
    requires AtRest(BodyOf(w, e)) && Pressed(w, w2, e, Wish(p, BodyOf(w, e).movable.value.speed))
    requires coefficient.x >= 0.0 && coefficient.y >= 0.0 && IsMotionMagnitude(w2, e, coefficient, dt, magnitude)
    ensures var m, from := BodyOf(w, e).movable.value, BodyOf(w, e).position.value.at;
            var to := BodyOf(MotionStep(w2, e, coefficient, dt, magnitude), e).position;
            && to.Some?
            && AsAsked(from.x, to.value.at.x, p.movedX, Overcomes(m.speed.x, m.maxVelocity, coefficient.x, dt))
            && AsAsked(from.y, to.value.at.y, p.movedY, Overcomes(m.speed.y, m.maxVelocity, coefficient.y, dt))
  {
    var m := BodyOf(w, e).movable.value;
    hide MotionStep, Overcomes, Remains, WishAlong, Gain, Drag, IsMotionMagnitude, Goes, AsAsked;
    DragPositive(m.speed.x, coefficient.x, dt);
    DragPositive(m.speed.y, coefficient.y, dt);
    WishedBody(w, w2, e, p);
    hide Pressed;
    GoesWhereAccelerated(w2, e, coefficient, dt, magnitude);
    var from, to := BodyOf(w, e).position.value.at, BodyOf(MotionStep(w2, e, coefficient, dt, magnitude), e).position;
    WishGain(p.movedX, m.speed.x, m.maxVelocity, coefficient.x, dt, from.x, to.value.at.x);
    WishGain(p.movedY, m.speed.y, m.maxVelocity, coefficient.y, dt, from.y, to.value.at.y);
  }

  lemma WishedBody(w: World, w2: World, e: EntityId, p: PlayerInput)
    requires AtRest(BodyOf(w, e)) && Pressed(w, w2, e, Wish(p, BodyOf(w, e).movable.value.speed))
    ensures var b, b2 := BodyOf(w, e), BodyOf(w2, e);
            && b2.position == b.position && b2.movable.Some?
            && var m, m2 := b.movable.value, b2.movable.value;
               && m2.velocity == ZERO && m2.maxVelocity == m.maxVelocity && m2.speed == m.speed
               && m2.acceleration == Vec(WishAlong(p.movedX, m.speed.x), WishAlong(p.movedY, m.speed.y))
  {
    hide WishAlong;
    ZeroPlus(Wish(p, BodyOf(w, e).movable.value.speed));
  }

  lemma DragPositive(speed: real, coefficient: real, dt: nat)
    requires speed >= 0.0 && coefficient >= 0.0
    ensures Drag(speed, coefficient, dt) >= 0.0
  {
    assert speed * coefficient >= 0.0;
  }

  lemma WishGain(x: int, speed: real, limit: real, coefficient: real, dt: nat, from: real, to: real)
    requires speed >= 0.0 && coefficient >= 0.0
    requires Goes(from, to, Gain(WishAlong(x, speed), dt), Drag(speed, coefficient, dt), limit)
    ensures AsAsked(from, to, x, Overcomes(speed, limit, coefficient, dt))
  {
    DragPositive(speed, coefficient, dt);
    DragPositive(speed, 1.0, dt);
    assert (-speed) * dt as real == -(speed * dt as real);
  }
}
