/** Component types and values: the C_*.h headers and the factory table of src/server/Server_Entity_Manager.cpp. */
module Components {
  import opened Bitmasks

  datatype Option<+T> = None | Some(value: T)

  type EntityId = int

  datatype Vec = Vec(x: real, y: real)

  datatype Rect = Rect(left: real, top: real, width: real, height: real)

  datatype Direction = Up | Left | Down | Right

  datatype Origin = TopLeft | AbsCentre | MidBottom

  datatype EntityState = Idle | Walking | Hurt | Attacking | Dying

  const POSITION: ComponentType := 0
  const STATE: ComponentType := 2
  const MOVABLE: ComponentType := 3
  const CONTROLLER: ComponentType := 4
  const COLLIDABLE: ComponentType := 5
  const CLIENT: ComponentType := 8
  const HEALTH: ComponentType := 9
  const NAME: ComponentType := 10
  const ATTACKER: ComponentType := 12

  // The component types ServerEntityManager registers with the factory.
  const FACTORY: Bitset :=
    {POSITION, STATE, MOVABLE, CONTROLLER, COLLIDABLE, CLIENT, HEALTH, NAME, ATTACKER}

  const NULL_ID: int := -1

  datatype Position = Position(at: Vec, previous: Vec, elevation: nat)

  datatype Movable = Movable(velocity: Vec, maxVelocity: real, speed: Vec, acceleration: Vec, direction: Direction)

  datatype Collidable = Collidable(box: Rect, offset: Vec, origin: Origin, onX: bool, onY: bool)

  // Durations and timers are in milliseconds.
  datatype Health = Health(points: int, maxPoints: int, hurtDuration: nat, deathDuration: nat, timer: nat)

  datatype Attacker =
    Attacker(area: Rect, offset: Vec, attacked: bool, knockback: real, attackDuration: nat, timer: nat)

  // One component object, as an entity's component vector holds it.
  datatype Component =
    | APosition(position: Position)
    | AState(state: EntityState)
    | AMovable(movable: Movable)
    | AController
    | ACollidable(collidable: Collidable)
    | AClient(clientId: int)
    | AHealth(health: Health)
    | AName(name: string)
    | AnAttacker(attacker: Attacker)
  {
    function Type(): ComponentType {
      match this
      case APosition(_) => POSITION
      case AState(_) => STATE
      case AMovable(_) => MOVABLE
      case AController => CONTROLLER
      case ACollidable(_) => COLLIDABLE
      case AClient(_) => CLIENT
      case AHealth(_) => HEALTH
      case AName(_) => NAME
      case AnAttacker(_) => ATTACKER
    }
  }

  // A component as the factory makes it. Fields the constructors leave unset are taken to be zero.
  function Fresh(t: ComponentType): (c: Component)
    requires t in FACTORY
    ensures c.Type() == t
  {
    var zero := Vec(0.0, 0.0);
    var nowhere := Rect(0.0, 0.0, 0.0, 0.0);
    if t == POSITION then APosition(Position(zero, zero, 0))
    else if t == STATE then AState(Idle)
    else if t == MOVABLE then AMovable(Movable(zero, 0.0, zero, zero, Up))
    else if t == CONTROLLER then AController
    else if t == COLLIDABLE then ACollidable(Collidable(nowhere, zero, MidBottom, false, false))
    else if t == CLIENT then AClient(NULL_ID)
    else if t == HEALTH then AHealth(Health(0, 0, 0, 0, 0))
    else if t == NAME then AName("")
    else AnAttacker(Attacker(nowhere, zero, false, 0.0, 0, 0))
  }

  // readIn: what reading the values of `line` from an entity file does to a component of the same type.
  function ReadIn(c: Component, line: Component): (r: Component)
    requires c.Type() == line.Type()
    ensures r.Type() == c.Type()
  {
    match c
    case APosition(p) => APosition(Position(line.position.at, p.previous, line.position.elevation))
    case AState(_) => line
    case AMovable(m) =>
      var l := line.movable;
      AMovable(Movable(m.velocity, l.maxVelocity, l.speed, m.acceleration, l.direction))
    case AController => c
    case ACollidable(b) =>
      var l := line.collidable;
      ACollidable(Collidable(Rect(b.box.left, b.box.top, l.box.width, l.box.height), l.offset, l.origin, b.onX, b.onY))
    case AClient(_) => c
    case AHealth(h) =>
      var l := line.health;
      AHealth(Health(l.maxPoints, l.maxPoints, l.hurtDuration, l.deathDuration, h.timer))
    case AName(_) => line
    case AnAttacker(a) =>
      var l := line.attacker;
      AnAttacker(Attacker(Rect(a.area.left, a.area.top, l.area.width, l.area.height), l.offset, a.attacked,
                          l.knockback, l.attackDuration, a.timer))
  }

  // The components of one entity, at most one of each type.
  datatype Body = Body(
    position: Option<Position>,
    state: Option<EntityState>,
    movable: Option<Movable>,
    controller: bool,
    collidable: Option<Collidable>,
    clientId: Option<int>,
    health: Option<Health>,
    name: Option<string>,
    attacker: Option<Attacker>)

  const EMPTY_BODY := Body(None, None, None, false, None, None, None, None, None)

  predicate Has(b: Body, t: ComponentType) {
    if t == POSITION then b.position.Some?
    else if t == STATE then b.state.Some?
    else if t == MOVABLE then b.movable.Some?
    else if t == CONTROLLER then b.controller
    else if t == COLLIDABLE then b.collidable.Some?
    else if t == CLIENT then b.clientId.Some?
    else if t == HEALTH then b.health.Some?
    else if t == NAME then b.name.Some?
    else if t == ATTACKER then b.attacker.Some?
    else false
  }

  // The types present.
  function Present(b: Body): Bitset {
    set t | t in FACTORY && Has(b, t)
  }

  // b with c as its component of c's type.
  function With(b: Body, c: Component): Body {
    match c
    case APosition(p) => b.(position := Some(p))
    case AState(s) => b.(state := Some(s))
    case AMovable(m) => b.(movable := Some(m))
    case AController => b.(controller := true)
    case ACollidable(k) => b.(collidable := Some(k))
    case AClient(id) => b.(clientId := Some(id))
    case AHealth(h) => b.(health := Some(h))
    case AName(n) => b.(name := Some(n))
    case AnAttacker(a) => b.(attacker := Some(a))
  }

  function Dropped(b: Body, t: ComponentType): Body {
    if t == POSITION then b.(position := None)
    else if t == STATE then b.(state := None)
    else if t == MOVABLE then b.(movable := None)
    else if t == CONTROLLER then b.(controller := false)
    else if t == COLLIDABLE then b.(collidable := None)
    else if t == CLIENT then b.(clientId := None)
    else if t == HEALTH then b.(health := None)
    else if t == NAME then b.(name := None)
    else if t == ATTACKER then b.(attacker := None)
    else b
  }

  // The component of type t, for a body that has one.
  function Part(b: Body, t: ComponentType): (c: Component)
    requires Has(b, t)
    ensures c.Type() == t
  {
    if t == POSITION then APosition(b.position.value)
    else if t == STATE then AState(b.state.value)
    else if t == MOVABLE then AMovable(b.movable.value)
    else if t == CONTROLLER then AController
    else if t == COLLIDABLE then ACollidable(b.collidable.value)
    else if t == CLIENT then AClient(b.clientId.value)
    else if t == HEALTH then AHealth(b.health.value)
    else if t == NAME then AName(b.name.value)
    else AnAttacker(b.attacker.value)
  }

  lemma PartWith(b: Body, c: Component, t: ComponentType)
    ensures c.Type() in FACTORY
    ensures Has(With(b, c), t) <==> t == c.Type() || Has(b, t)
    ensures Has(With(b, c), t) ==> Part(With(b, c), t) == if t == c.Type() then c else Part(b, t)
    ensures Has(b, c.Type()) && Part(b, c.Type()) == c ==> With(b, c) == b
  {
  }

  lemma HasIsPresence(b: Body, t: ComponentType)
    ensures Has(b, t) <==> t in Present(b)
  {
  }
}
