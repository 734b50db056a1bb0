/** What S_State, S_Combat and the event handlers do in a turn, said of the entity's own values. */
module Answers {
  import opened Components
  import opened Ecs
  import opened Motion
  import opened Rules
  import opened Steering

  // S_State's turn: whoever walks and stands still is told that it became idle, and nobody else is told anything.
  lemma WalkCheckOutcome(w: World, e: EntityId)
    ensures var told := InState(w, e, Walking) && e in ListOf(w, Movement) && BodyOf(w, e).movable.Some? &&
                        BodyOf(w, e).movable.value.velocity == Vec(0.0, 0.0);
            WalkCheck(w, e) == w.(events := Longer(w.events, e, if told then [BecameIdle] else []))
  {
  }

  // S_Combat's turn: the centre of the area of attack lies at the attacker's place, its offset further, and half the
  // area's size further still the way the attacker faces; the size stays, and nothing else changes.
  lemma AreaOutcome(w: World, e: EntityId, f: EntityId)
    requires BodyOf(w, e).attacker.Some? && BodyOf(w, e).position.Some? && BodyOf(w, e).movable.Some?
    ensures var b, b' := BodyOf(w, e), BodyOf(AreaStep(w, e), e);
            && b'.attacker.Some? && b'.(attacker := b.attacker) == b
            && var a, a', at, u := b.attacker.value, b'.attacker.value, b.position.value.at,
                                   Unit(b.movable.value.direction);
               && a'.(area := a.area) == a && a'.area.width == a.area.width && a'.area.height == a.area.height
               && a'.area.left + a.area.width / 2.0 == at.x + a.offset.x + u.x * (a.area.width / 2.0)
               && a'.area.top + a.area.height / 2.0 == at.y + a.offset.y + u.y * (a.area.height / 2.0)
    ensures f != e ==> BodyOf(AreaStep(w, e), f) == BodyOf(w, f)
  {
  }

  // The way an event turns an entity: sideways at once, up and down only while it does not move sideways.
  function Facing(event: EntityEvent, m: Movable): Direction {
    if event == MovingLeft then Left
    else if event == MovingRight then Right
    else if event == MovingUp && m.velocity.x == 0.0 then Up
    else if event == MovingDown && m.velocity.x == 0.0 then Down
    else m.direction
  }

  // S_Movement stops the axis that collided and turns the entity; S_Control adds to its acceleration.
  lemma EventMotion(w: World, s: System, e: EntityId, event: EntityEvent)
    requires BodyOf(w, e).movable.Some?
    ensures var m, b' := BodyOf(w, e).movable.value, BodyOf(Deliver(w, s, e, event), e);
            && b'.movable.Some?
            && var m' := b'.movable.value;
               && m'.maxVelocity == m.maxVelocity && m'.speed == m.speed
               && m'.velocity.x == (if s == Movement && event == CollidingX then 0.0 else m.velocity.x)
               && m'.velocity.y == (if s == Movement && event == CollidingY then 0.0 else m.velocity.y)
               && m'.direction == (if s == Movement then Facing(event, m) else m.direction)
               && m'.acceleration ==
                  (if s == Control then Plus(m.acceleration, Drive(event, m.speed)) else m.acceleration)
  {
  }

  // S_State makes it idle unless it is dying; no other system does anything, and no other entity changes.
  lemma EventOutcome(w: World, s: System, e: EntityId, event: EntityEvent, f: EntityId)
    ensures var w', b, b' := Deliver(w, s, e, event), BodyOf(w, e), BodyOf(Deliver(w, s, e, event), e);
            && w'.events == w.events && w'.systems == w.systems && w'.input == w.input
            && (f != e ==> BodyOf(w', f) == BodyOf(w, f))
            && b'.(movable := b.movable, state := b.state) == b && (b.movable.None? ==> b'.movable.None?)
            && b'.state == (if s == StateMachine && event == BecameIdle && b.state.Some? && b.state != Some(Dying)
                            then Some(Idle) else b.state)
  {
    hide Steered, Rules.Driven;
  }

  // Being told to change state: nothing if it is that already, or dying and not forced.
  lemma ChangeOutcome(w: World, e: EntityId, next: EntityState, force: bool, f: EntityId)
    requires BodyOf(w, e).state.Some?
    ensures var b, b' := BodyOf(w, e), BodyOf(ChangeState(w, e, next, force), e);
            && b'.(state := b.state) == b
            && b'.state == (if b.state == Some(Dying) && !force then b.state else Some(next))
            && (f != e ==> BodyOf(ChangeState(w, e, next, force), f) == BodyOf(w, f))
            && ChangeState(w, e, next, force).events == w.events
  {
  }
}
