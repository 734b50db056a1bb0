/**
 What one entity's turn in each system does to the world: S_State, S_Combat, S_Timers, S_Movement, S_Control,
 S_Network and S_Collision, and the message each of them reacts to. A null component pointer leaves the world
 unchanged here; that no null is ever dereferenced is proved separately.
 */
module Rules {
  import opened Components
  import opened Ecs
  import opened Geometry
  import opened Motion

  function Queue(w: World, e: EntityId, event: EntityEvent): World {
    w.(events := AddEvent(w.events, e, event))
  }

  predicate InState(w: World, e: EntityId, s: EntityState) {
    BodyOf(w, e).state == Some(s)
  }

  // ---------- S_State ----------

  // changeState. The Switch_State message it broadcasts comes back to S_State with the state already set.
  function Changed(b: Body, next: EntityState, force: bool): Body {
    if b.state.None? || b.state == Some(next) || (!force && b.state == Some(Dying)) then b
    else b.(state := Some(next))
  }

  function ChangeState(w: World, e: EntityId, next: EntityState, force: bool): World {
    SetBody(w, e, Changed(BodyOf(w, e), next, force))
  }

  function MovingEvent(d: Direction): EntityEvent {
    match d
    case Left => MovingLeft
    case Right => MovingRight
    case Up => MovingUp
    case Down => MovingDown
  }

  function OnMove(w: World, e: EntityId, d: Direction): World {
    if e !in ListOf(w, StateMachine) || InState(w, e, Attacking) || InState(w, e, Dying) then w
    else ChangeState(Queue(w, e, MovingEvent(d)), e, Walking, false)
  }

  function OnAttack(w: World, e: EntityId): World {
    if e !in ListOf(w, StateMachine) || InState(w, e, Attacking) || InState(w, e, Dying) then w
    else ChangeState(Queue(w, e, BeganAttacking), e, Attacking, false)
  }

  function OnHurt(w: World, e: EntityId): World {
    if e !in ListOf(w, StateMachine) || InState(w, e, Dying) then w
    else ChangeState(w, e, Hurt, false)
  }

  // S_Movement's answer to Is_Moving.
  function OnIsMoving(w: World, e: EntityId): World {
    var m := BodyOf(w, e).movable;
    if e in ListOf(w, Movement) && m.Some? && m.value.velocity == ZERO then Queue(w, e, BecameIdle) else w
  }

  function WalkCheck(w: World, e: EntityId): World {
    if InState(w, e, Walking) then OnIsMoving(w, e) else w
  }

  // ---------- S_Network ----------

  function InputOf(w: World, e: EntityId): PlayerInput {
    if e in w.input then w.input[e] else NO_INPUT
  }

  function MoveX(w: World, e: EntityId, x: int): World {
    if x == 0 then w else OnMove(w, e, if x > 0 then Right else Left)
  }

  function MoveY(w: World, e: EntityId, y: int): World {
    if y == 0 then w else OnMove(w, e, if y > 0 then Down else Up)
  }

  function InputStep(w: World, e: EntityId): World {
    var p := InputOf(w, e);
    var moved := MoveY(MoveX(w.(input := w.input[e := p]), e, p.movedX), e, p.movedY);
    if p.attacking then OnAttack(moved, e) else moved
  }

  const SPAWN_POINT := Vec(64.0, 64.0)

  // S_Network's answer to Respawn, for an entity it holds.
  function Respawned(b: Body): Body {
    if b.position.None? then b
    else b.(position := Some(Position(SPAWN_POINT, b.position.value.at, 1)))
  }

  // ---------- S_Combat ----------

  function Shifted(offset: Vec, d: Direction, area: Rect): Vec {
    match d
    case Left => Vec(offset.x - area.width / 2.0, offset.y)
    case Right => Vec(offset.x + area.width / 2.0, offset.y)
    case Up => Vec(offset.x, offset.y - area.height / 2.0)
    case Down => Vec(offset.x, offset.y + area.height / 2.0)
  }

  // The area of attack, centred on the attacker and shifted its way.
  function Aimed(a: Attacker, at: Vec, d: Direction): Attacker {
    var offset := Shifted(a.offset, d, a.area);
    a.(area := Rect(at.x - a.area.width / 2.0 + offset.x, at.y - a.area.height / 2.0 + offset.y,
                    a.area.width, a.area.height))
  }

  // S_Combat::update for one entity.
  function AreaStep(w: World, e: EntityId): World {
    var b := BodyOf(w, e);
    if b.attacker.None? || b.position.None? || b.movable.None? then w
    else SetBody(w, e, b.(attacker := Some(Aimed(b.attacker.value, b.position.value.at, b.movable.value.direction))))
  }

  function Knockback(d: Direction, strength: real): Vec {
    match d
    case Left => Vec(-strength, 0.0)
    case Right => Vec(strength, 0.0)
    case Up => Vec(0.0, -strength)
    case Down => Vec(0.0, strength)
  }

  // The Being_Attacked message from s to r takes effect.
  predicate Lands(w: World, s: EntityId, r: EntityId) {
    && r in ListOf(w, Combat) && s in ListOf(w, Combat)
    && BodyOf(w, r).health.Some?
    && BodyOf(w, s).attacker.Some?
    && StateMachine in w.systems
    && !BodyOf(w, s).attacker.value.attacked
  }

  function Wounded(h: Health): Health {
    h.(points := if h.points > 1 then h.points - 1 else 0)
  }

  // The victim's health goes down and the attacker's once-per-attack flag goes up.
  function Bled(w: World, s: EntityId, r: EntityId): World
    requires Lands(w, s, r)
  {
    var b := BodyOf(w, r);
    var bled := SetBody(w, r, b.(health := Some(Wounded(b.health.value))));
    var c := BodyOf(bled, s);
    SetBody(bled, s, c.(attacker := Some(BodyOf(w, s).attacker.value.(attacked := true))))
  }

  // The victim dies, or is told it is hurt.
  function Reeled(w: World, r: EntityId): World {
    if BodyOf(w, r).health.Some? && BodyOf(w, r).health.value.points == 0 then ChangeState(w, r, Dying, true)
    else OnHurt(w, r)
  }

  // The victim is pushed the way the attacker faces.
  function Knocked(w: World, s: EntityId, r: EntityId): World {
    var b, c := BodyOf(w, r), BodyOf(w, s);
    if c.movable.None? || b.movable.None? || c.attacker.None? then w
    else
      var push := Knockback(c.movable.value.direction, c.attacker.value.knockback);
      SetBody(w, r, b.(movable := Some(b.movable.value.(velocity := push))))
  }

  // S_Combat's answer to Being_Attacked.
  function Strike(w: World, s: EntityId, r: EntityId): World {
    Noted(if !Lands(w, s, r) then w else Knocked(Reeled(Bled(w, s, r), r), s, r), Struck(s, r))
  }

  // ---------- S_Timers ----------

  // The health timer of a dying entity has run out: full health, Respawn (which reaches S_Network's entities), Idle.
  function Revived(b: Body, h: Health, player: bool): Body {
    var healed := b.(health := Some(h.(timer := 0, points := h.maxPoints)));
    Changed(if player then Respawned(healed) else healed, Idle, true)
  }

  // The health timer of a hurt or dying entity.
  function HealthTicked(b: Body, dt: nat, player: bool): Body {
    if b.health.None? then b
    else
      var h := b.health.value;
      var waited := h.timer + dt;
      if (b.state == Some(Hurt) && waited < h.hurtDuration) || (b.state == Some(Dying) && waited < h.deathDuration) then
        b.(health := Some(h.(timer := waited)))
      else if b.state == Some(Dying) then Revived(b, h, player)
      else Changed(b.(health := Some(h.(timer := 0))), Idle, true)
  }

  // The attack timer of an attacking entity; a completed attack may hit again.
  function AttackTicked(b: Body, dt: nat): Body {
    if b.attacker.None? then b
    else
      var a := b.attacker.value;
      if a.timer + dt < a.attackDuration then b.(attacker := Some(a.(timer := a.timer + dt)))
      else Changed(b.(attacker := Some(a.(timer := 0, attacked := false))), Idle, true)
  }

  function Ticked(b: Body, dt: nat, player: bool): Body {
    if b.state == Some(Hurt) || b.state == Some(Dying) then HealthTicked(b, dt, player)
    else if b.state == Some(Attacking) then AttackTicked(b, dt)
    else b
  }

  // S_Timers::update for one entity.
  function TimerStep(w: World, e: EntityId, dt: nat): World {
    var b := BodyOf(w, e);
    Noted(SetBody(w, e, Ticked(b, dt, e in ListOf(w, Network))), Timed(e, dt))
  }

  // ---------- S_Movement and S_Control ----------

  // S_Movement::update for one entity: `coefficient` is the tile friction under it, `magnitude` the square root.
  function MotionStep(w: World, e: EntityId, coefficient: Vec, dt: nat, magnitude: real): World {
    var b := BodyOf(w, e);
    if b.movable.None? || b.position.None? then w
    else
      var p := b.position.value;
      var m := MovementStep(b.movable.value, coefficient, dt as real, magnitude);
      SetBody(w, e, b.(movable := Some(m), position := Some(Position(Plus(p.at, m.velocity), p.at, p.elevation))))
  }

  function Steered(m: Movable, event: EntityEvent): Movable {
    match event
    case CollidingX => m.(velocity := Vec(0.0, m.velocity.y))
    case CollidingY => m.(velocity := Vec(m.velocity.x, 0.0))
    case MovingLeft => m.(direction := Left)
    case MovingRight => m.(direction := Right)
    case MovingUp => if m.velocity.x == 0.0 then m.(direction := Up) else m
    case MovingDown => if m.velocity.x == 0.0 then m.(direction := Down) else m
    case _ => m
  }

  function Driven(m: Movable, event: EntityEvent): Movable {
    match event
    case MovingLeft => Accelerated(m, Left)
    case MovingRight => Accelerated(m, Right)
    case MovingUp => Accelerated(m, Up)
    case MovingDown => Accelerated(m, Down)
    case _ => m
  }

  // The screen's y axis points down.
  function Unit(d: Direction): Vec {
    match d
    case Left => Vec(-1.0, 0.0)
    case Right => Vec(1.0, 0.0)
    case Up => Vec(0.0, -1.0)
    case Down => Vec(0.0, 1.0)
  }

  // All that has a direction goes the same way: a Move message comes out as acceleration that way and, unless it
  // would face up or down while moving sideways, as facing that way; knockback and the area of attack follow the
  // facing.
  lemma FacingAgrees(m: Movable, d: Direction, offset: Vec, area: Rect, strength: real)
    ensures var accelerated := Driven(m, MovingEvent(d));
            && accelerated.acceleration == Plus(m.acceleration, Vec(Unit(d).x * m.speed.x, Unit(d).y * m.speed.y))
            && accelerated.(acceleration := m.acceleration) == m
    ensures var steered := Steered(m, MovingEvent(d));
            && steered.direction == (if Unit(d).y == 0.0 || m.velocity.x == 0.0 then d else m.direction)
            && steered.(direction := m.direction) == m
    ensures Knockback(d, strength) == Scale(Unit(d), strength)
    ensures Shifted(offset, d, area) ==
            Plus(offset, Vec(Unit(d).x * (area.width / 2.0), Unit(d).y * (area.height / 2.0)))
  {
  }

  function Reaction(w: World, s: System, e: EntityId, event: EntityEvent): World {
    var b := BodyOf(w, e);
    match s
    case Movement => if b.movable.Some? then SetBody(w, e, b.(movable := Some(Steered(b.movable.value, event)))) else w
    case Control => if b.movable.Some? then SetBody(w, e, b.(movable := Some(Driven(b.movable.value, event)))) else w
    case StateMachine => if event == BecameIdle then ChangeState(w, e, Idle, false) else w
    case _ => w
  }

  // handleEvent of system s, for an entity the system holds.
  function Deliver(w: World, s: System, e: EntityId, event: EntityEvent): World {
    Noted(Reaction(w, s, e, event), Handled(s, e, event))
  }

  // ---------- S_Collision ----------

  // s's area of attack overlaps r's box.
  predicate Reaches(w: World, s: EntityId, r: EntityId) {
    && BodyOf(w, s).attacker.Some? && BodyOf(w, r).collidable.Some?
    && Intersects(BodyOf(w, s).attacker.value.area, BodyOf(w, r).collidable.value.box)
  }

  function QueueAll(w: World, e: EntityId, events: seq<EntityEvent>): World {
    if events == [] then w else Queue(QueueAll(w, e, events[..|events| - 1]), e, events[|events| - 1])
  }

  // What the map pass leaves of an entity's position and box, with the collision events it queues.
  function Resolve(w: World, e: EntityId, p: Position, c: Collidable, events: seq<EntityEvent>): World {
    var b := BodyOf(w, e);
    if b.position.None? || b.collidable.None? then w
    else QueueAll(SetBody(w, e, b.(position := Some(p), collidable := Some(c))), e, events)
  }
}
