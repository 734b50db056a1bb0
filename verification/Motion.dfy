/** Velocity arithmetic of src/common/C_Movable.h and S_Movement::movementStep, over the reals. */
module Motion {
  import opened Components

  function Abs(x: real): real {
    if x < 0.0 then -x else x
  }

  function Plus(a: Vec, b: Vec): Vec {
    Vec(a.x + b.x, a.y + b.y)
  }

  function Scale(a: Vec, k: real): Vec {
    Vec(a.x * k, a.y * k)
  }

  const ZERO := Vec(0.0, 0.0)

  // One axis of applyFriction.
  function Slowed(v: real, f: real): real {
    if v != 0.0 && f != 0.0 then
      if Abs(v) - Abs(f) < 0.0 then 0.0
      else v + (if v > 0.0 then f * -1.0 else f)
    else v
  }

  function ApplyFriction(v: Vec, f: Vec): Vec {
    Vec(Slowed(v.x, f.x), Slowed(v.y, f.y))
  }

  // One axis of addVelocity. A negative limit divides zero by zero at rest; that case is left unchanged here.
  function Limited(v: real, limit: real): real {
    if Abs(v) > limit && v != 0.0 then limit * (v / Abs(v)) else v
  }

  function AddVelocity(v: Vec, a: Vec, limit: real): Vec {
    Vec(Limited(v.x + a.x, limit), Limited(v.y + a.y, limit))
  }

  // m is the square root movementStep takes of the squared length.
  predicate IsMagnitude(v: Vec, m: real) {
    m >= 0.0 && m * m == v.x * v.x + v.y * v.y
  }

  function Clamped(v: Vec, limit: real, magnitude: real): Vec {
    if magnitude <= limit || magnitude == 0.0 then v
    else Vec((v.x / magnitude) * limit, (v.y / magnitude) * limit)
  }

  // The velocity whose magnitude movementStep takes: `push` is added, then `friction` applied.
  function Unclamped(v: Vec, push: Vec, friction: Vec, limit: real): Vec {
    ApplyFriction(AddVelocity(v, push, limit), friction)
  }

  function Stepped(v: Vec, push: Vec, friction: Vec, limit: real, magnitude: real): Vec {
    Clamped(Unclamped(v, push, friction, limit), limit, magnitude)
  }

  function Push(m: Movable, dt: real): Vec {
    Scale(m.acceleration, dt)
  }

  function Friction(m: Movable, coefficient: Vec, dt: real): Vec {
    Scale(Vec(m.speed.x * coefficient.x, m.speed.y * coefficient.y), dt)
  }

  function MovementStep(m: Movable, coefficient: Vec, dt: real, magnitude: real): Movable {
    m.(velocity := Stepped(m.velocity, Push(m, dt), Friction(m, coefficient, dt), m.maxVelocity, magnitude),
       acceleration := ZERO)
  }

  // C_Movable::move
  function Accelerated(m: Movable, d: Direction): Movable {
    match d
    case Left => m.(acceleration := Vec(m.acceleration.x - m.speed.x, m.acceleration.y))
    case Right => m.(acceleration := Vec(m.acceleration.x + m.speed.x, m.acceleration.y))
    case Up => m.(acceleration := Vec(m.acceleration.x, m.acceleration.y - m.speed.y))
    case Down => m.(acceleration := Vec(m.acceleration.x, m.acceleration.y + m.speed.y))
  }

  // Friction of either sign and any size never reverses an axis; non-negative friction never speeds one up,
  // and takes exactly the smaller of the two sizes off it.
  lemma FrictionOnlySlows(v: real, f: real)
    requires f >= 0.0
    ensures Abs(Slowed(v, f)) == if Abs(v) < f then 0.0 else Abs(v) - f
    ensures Slowed(v, f) * v >= 0.0
  {
  }

  // Friction speeds an axis up exactly if it is negative and the axis at least that fast, and then by |f|.
  lemma NegativeFrictionSpeedsUp(v: real, f: real)
    ensures Abs(Slowed(v, f)) > Abs(v) <==> f < 0.0 && Abs(v) >= Abs(f)
    ensures Abs(Slowed(v, f)) > Abs(v) ==> Abs(Slowed(v, f)) == Abs(v) + Abs(f)
  {
  }

  lemma Sign(v: real)
    requires v != 0.0
    ensures v / Abs(v) == if v < 0.0 then -1.0 else 1.0
  {
    var unit := v / Abs(v);
    assert unit * Abs(v) == v;
    if v < 0.0 {
      assert (unit + 1.0) * v == 0.0;
    } else {
      assert (unit - 1.0) * v == 0.0;
    }
  }

  // What addVelocity makes of the size of an axis: at most the limit; a negative limit is the size of every axis that
  // moves, which it turns around.
  lemma LimitedIsBounded(v: real, limit: real)
    ensures Abs(Limited(v, limit)) == if v == 0.0 then 0.0 else if Abs(v) <= limit then Abs(v) else Abs(limit)
    ensures Abs(Limited(v, limit)) <= Abs(limit)
    ensures v != 0.0 ==> (Limited(v, limit) * v < 0.0 <==> limit < 0.0)
  {
    if v != 0.0 && Abs(v) > limit {
      Sign(v);
    }
  }

  lemma ShrinkFactor(limit: real, magnitude: real)
    requires 0.0 <= limit < magnitude
    ensures 0.0 <= limit / magnitude <= 1.0
  {
  }

  lemma ScaledAxis(x: real, k: real, limit: real, magnitude: real)
    requires magnitude > 0.0 && k == limit / magnitude
    ensures (x / magnitude) * limit == x * k
  {
    assert (x / magnitude) * limit == x * (limit / magnitude);
  }

  lemma ScaledDown(x: real, limit: real, magnitude: real)
    requires 0.0 <= limit < magnitude
    ensures Abs((x / magnitude) * limit) <= Abs(x)
  {
    var k := limit / magnitude;
    ScaledAxis(x, k, limit, magnitude);
    ShrinkFactor(limit, magnitude);
    assert Abs(x * k) == Abs(x) * k;
    assert Abs(x) * k <= Abs(x) * 1.0;
  }

  // The clamp never lengthens an axis.
  lemma ClampShrinks(v: Vec, limit: real, magnitude: real)
    requires limit >= 0.0
    ensures Abs(Clamped(v, limit, magnitude).x) <= Abs(v.x)
    ensures Abs(Clamped(v, limit, magnitude).y) <= Abs(v.y)
  {
    if magnitude > limit {
      ScaledDown(v.x, limit, magnitude);
      ScaledDown(v.y, limit, magnitude);
    }
  }

  lemma SquareMonotone(a: real, b: real)
    requires 0.0 <= a <= b
    ensures a * a <= b * b
  {
  }

  lemma ScaledSquares(x: real, y: real, k: real)
    ensures (x * k) * (x * k) + (y * k) * (y * k) == (x * x + y * y) * (k * k)
  {
  }

  // The Euclidean norm of v is at most the size of the limit; `OnCircle`: exactly that.
  ghost predicate WithinDisc(v: Vec, limit: real) {
    v.x * v.x + v.y * v.y <= limit * limit
  }

  ghost predicate OnCircle(v: Vec, limit: real) {
    v.x * v.x + v.y * v.y == limit * limit
  }

  lemma ClampBounded(v: Vec, limit: real, magnitude: real)
    requires IsMagnitude(v, magnitude)
    ensures WithinDisc(Clamped(v, limit, magnitude), limit)
    ensures magnitude > limit && magnitude != 0.0 ==> OnCircle(Clamped(v, limit, magnitude), limit)
  {
    if magnitude <= limit {
      SquareMonotone(magnitude, limit);
    } else if magnitude != 0.0 {
      var k := limit / magnitude;
      ScaledAxis(v.x, k, limit, magnitude);
      ScaledAxis(v.y, k, limit, magnitude);
      ScaledSquares(v.x, v.y, k);
      assert (magnitude * magnitude) * (k * k) == (magnitude * k) * (magnitude * k);
      assert magnitude * k == limit;
    }
  }

  // One tick displaces an entity by at most its maximal velocity in Euclidean norm, whatever velocity,
  // acceleration and friction it starts with; by exactly that much when the clamp applies.
  lemma StepBounded(v: Vec, push: Vec, friction: Vec, limit: real, magnitude: real, u: Vec)
    requires u == Unclamped(v, push, friction, limit)
    requires IsMagnitude(u, magnitude)
    ensures WithinDisc(Stepped(v, push, friction, limit, magnitude), limit)
    ensures magnitude > limit && magnitude != 0.0 ==> OnCircle(Stepped(v, push, friction, limit, magnitude), limit)
  {
    var r := Clamped(u, limit, magnitude);
    ClampBounded(u, limit, magnitude);
    assert Stepped(v, push, friction, limit, magnitude) == r;
  }

  // One axis of a pushless step under a negative limit: turned around at full size, less the friction.
  lemma NegativeLimitAxis(v: real, limit: real, f: real)
    requires limit < 0.0 <= f
    ensures Slowed(Limited(v, limit), f) == 0.0 <==> v == 0.0 || f >= -limit
  {
    LimitedIsBounded(v, limit);
    FrictionOnlySlows(Limited(v, limit), f);
  }

  // Under a negative limit nothing slows down: a pushless step leaves the velocity at the full size of the limit,
  // unless friction takes all of that on each axis that moves.
  lemma NegativeLimitNeverSlows(v: Vec, friction: Vec, limit: real, magnitude: real, u: Vec)
    requires limit < 0.0 <= friction.x && 0.0 <= friction.y && u == Unclamped(v, ZERO, friction, limit)
    requires IsMagnitude(u, magnitude)
    ensures var r := Stepped(v, ZERO, friction, limit, magnitude);
            && (r == ZERO <==> (v.x == 0.0 || friction.x >= -limit) && (v.y == 0.0 || friction.y >= -limit))
            && (r != ZERO ==> OnCircle(r, limit))
  {
    hide Slowed, Limited, Clamped, IsMagnitude, OnCircle, WithinDisc;
    NegativeLimitAxis(v.x, limit, friction.x);
    NegativeLimitAxis(v.y, limit, friction.y);
    ClampBounded(u, limit, magnitude);
    ClampedVanishes(u, limit, magnitude);
  }

  function Product(x: real, y: real): real {
    x * y
  }

  function Square(x: real): real {
    Product(x, x)
  }

  lemma ProductPositive(x: real, y: real)
    requires (x > 0.0 && y > 0.0) || (x < 0.0 && y < 0.0)
    ensures Product(x, y) > 0.0
  {
  }

  lemma SquareSign(x: real)
    ensures if x == 0.0 then Square(x) == 0.0 else Square(x) > 0.0
  {
    if x != 0.0 {
      assert Square(x) == Product(x, x);
      ProductPositive(x, x);
    }
  }

  // Two axes vanish together exactly if the root of the sum of their squares does.
  lemma RootVanishes(x: real, y: real, root: real)
    requires Square(x) + Square(y) == Square(root)
    ensures root == 0.0 <==> x == 0.0 && y == 0.0
  {
    SquareSign(x);
    SquareSign(y);
    SquareSign(root);
    hide Square;
  }

  lemma MagnitudeVanishes(v: Vec, magnitude: real)
    requires IsMagnitude(v, magnitude) || OnCircle(v, magnitude)
    ensures magnitude == 0.0 <==> v == ZERO
  {
    RootVanishes(v.x, v.y, magnitude);
    hide IsMagnitude, OnCircle, Square;
  }

  lemma ClampedVanishes(v: Vec, limit: real, magnitude: real)
    requires limit < 0.0 && IsMagnitude(v, magnitude)
    ensures Clamped(v, limit, magnitude) == ZERO <==> v == ZERO
    ensures v != ZERO ==> magnitude > 0.0
  {
    MagnitudeVanishes(v, magnitude);
    ClampBounded(v, limit, magnitude);
    if v != ZERO {
      MagnitudeVanishes(Clamped(v, limit, magnitude), limit);
    }
    hide OnCircle, WithinDisc;
  }

  // A step without push whose friction is at least `least` on both axes takes at least that off each axis,
  // or stops it.
  lemma StepSlows(v: Vec, friction: Vec, limit: real, magnitude: real, least: real)
    requires limit >= 0.0 && least > 0.0 && friction.x >= least && friction.y >= least
    ensures var r := Stepped(v, ZERO, friction, limit, magnitude);
            && (Abs(r.x) <= Abs(v.x) - least || r.x == 0.0)
            && (Abs(r.y) <= Abs(v.y) - least || r.y == 0.0)
  {
    var v0 := AddVelocity(v, ZERO, limit);
    LimitedIsBounded(v.x, limit);
    LimitedIsBounded(v.y, limit);
    FrictionOnlySlows(v0.x, friction.x);
    FrictionOnlySlows(v0.y, friction.y);
    ClampShrinks(Unclamped(v, ZERO, friction, limit), limit, magnitude);
  }

  // Whatever the velocity and the push, one step leaves both axes within the limit when friction is not negative.
  lemma StepLimits(v: Vec, push: Vec, friction: Vec, limit: real, magnitude: real)
    requires limit >= 0.0 && friction.x >= 0.0 && friction.y >= 0.0
    ensures var r := Stepped(v, push, friction, limit, magnitude);
            Abs(r.x) <= limit && Abs(r.y) <= limit
  {
    var v0 := AddVelocity(v, push, limit);
    LimitedIsBounded(v.x + push.x, limit);
    LimitedIsBounded(v.y + push.y, limit);
    FrictionOnlySlows(v0.x, friction.x);
    FrictionOnlySlows(v0.y, friction.y);
    ClampShrinks(Unclamped(v, push, friction, limit), limit, magnitude);
  }

  // ---------- which way a step goes ----------

  // addVelocity adds: an axis within the limit afterwards is exactly the sum, and one beyond it is at the limit on the
  // side of the sum.
  lemma AddVelocityAdds(v: Vec, a: Vec, limit: real)
    ensures var r := AddVelocity(v, a, limit);
            IsSumWithin(v.x, a.x, limit, r.x) && IsSumWithin(v.y, a.y, limit, r.y)
  {
    if v.x + a.x != 0.0 {
      Sign(v.x + a.x);
    }
    if v.y + a.y != 0.0 {
      Sign(v.y + a.y);
    }
  }

  ghost predicate IsSumWithin(v: real, a: real, limit: real, r: real) {
    && (-limit <= v + a <= limit ==> r == v + a)
    && (v + a > limit >= 0.0 ==> r == limit)
    && (v + a < -limit <= 0.0 ==> r == -limit)
  }

  // applyFriction takes each axis' own friction off it, down to rest.
  lemma ApplyFrictionSlows(v: Vec, f: Vec)
    requires f.x >= 0.0 && f.y >= 0.0
    ensures var r := ApplyFriction(v, f);
            && r.x == (if v.x > f.x then v.x - f.x else if v.x < -f.x then v.x + f.x else 0.0)
            && r.y == (if v.y > f.y then v.y - f.y else if v.y < -f.y then v.y + f.y else 0.0)
  {
  }

  lemma ScaledSign(x: real, limit: real, magnitude: real)
    requires limit > 0.0 && magnitude > 0.0
    ensures (x / magnitude) * limit > 0.0 <==> x > 0.0
    ensures (x / magnitude) * limit < 0.0 <==> x < 0.0
  {
    var q := x / magnitude;
    assert q * magnitude == x;
    if x > 0.0 {
      assert q > 0.0;
    } else if x < 0.0 {
      assert q < 0.0;
    }
  }

  // The clamp keeps the course: both axes keep their sign and their ratio.
  lemma ClampKeepsCourse(v: Vec, limit: real, magnitude: real)
    requires limit > 0.0 && IsMagnitude(v, magnitude)
    ensures var r := Clamped(v, limit, magnitude);
            && (r.x > 0.0 <==> v.x > 0.0) && (r.x < 0.0 <==> v.x < 0.0)
            && (r.y > 0.0 <==> v.y > 0.0) && (r.y < 0.0 <==> v.y < 0.0)
            && r.x * v.y == r.y * v.x
            && (magnitude <= limit ==> r == v)
  {
    if magnitude > limit {
      ScaledSign(v.x, limit, magnitude);
      ScaledSign(v.y, limit, magnitude);
      SameRatio(v.x, v.y, limit, magnitude);
    }
  }

  lemma SameRatio(x: real, y: real, limit: real, magnitude: real)
    requires magnitude > 0.0
    ensures ((x / magnitude) * limit) * y == ((y / magnitude) * limit) * x
  {
    var k := limit / magnitude;
    ScaledAxis(x, k, limit, magnitude);
    ScaledAxis(y, k, limit, magnitude);
    assert (x * k) * y == (y * k) * x;
  }

  // What is left of a push on an axis at rest.
  function Remains(push: real, friction: real, limit: real): real {
    var pushed := if push > limit then limit else if push < -limit then -limit else push;
    if pushed > friction then pushed - friction else if pushed < -friction then pushed + friction else 0.0
  }

  lemma PushFromRest(push: Vec, friction: Vec, limit: real)
    requires limit >= 0.0 && friction.x >= 0.0 && friction.y >= 0.0
    ensures Unclamped(ZERO, push, friction, limit) ==
            Vec(Remains(push.x, friction.x, limit), Remains(push.y, friction.y, limit))
  {
    AddVelocityAdds(ZERO, push, limit);
    ApplyFrictionSlows(AddVelocity(ZERO, push, limit), friction);
    hide AddVelocity, ApplyFriction;
  }

  // A step from rest goes where it is pushed: each axis moves, to the side of its push, if and only if both push and
  // limit are more than friction takes; pushed along one axis only, by exactly what friction leaves.
  lemma StepFromRest(push: Vec, friction: Vec, limit: real, magnitude: real)
    requires limit >= 0.0 && friction.x >= 0.0 && friction.y >= 0.0
    requires IsMagnitude(Unclamped(ZERO, push, friction, limit), magnitude)
    ensures var r := Stepped(ZERO, push, friction, limit, magnitude);
            && (r.x > 0.0 <==> push.x > friction.x && limit > friction.x)
            && (r.x < 0.0 <==> -push.x > friction.x && limit > friction.x)
            && (r.y > 0.0 <==> push.y > friction.y && limit > friction.y)
            && (r.y < 0.0 <==> -push.y > friction.y && limit > friction.y)
            && (push.y == 0.0 ==> r == Vec(Remains(push.x, friction.x, limit), 0.0))
            && (push.x == 0.0 ==> r == Vec(0.0, Remains(push.y, friction.y, limit)))
  {
    var u := Unclamped(ZERO, push, friction, limit);
    PushFromRest(push, friction, limit);
    hide Unclamped, IsMagnitude, Clamped;
    if limit == 0.0 {
      ClampedRest(u, limit, magnitude);
    } else {
      ClampKeepsCourse(u, limit, magnitude);
      if u.x == 0.0 || u.y == 0.0 {
        OneAxisMagnitude(u, limit, magnitude);
      }
    }
  }

  lemma ClampedRest(v: Vec, limit: real, magnitude: real)
    requires v == ZERO && IsMagnitude(v, magnitude)
    ensures Clamped(v, limit, magnitude) == ZERO
  {
    MagnitudeVanishes(v, magnitude);
  }

  lemma OneAxisMagnitude(v: Vec, limit: real, magnitude: real)
    requires IsMagnitude(v, magnitude) && (v.x == 0.0 || v.y == 0.0) && -limit <= v.x <= limit && -limit <= v.y <= limit
    ensures magnitude <= limit
  {
    var size := if v.x == 0.0 then Abs(v.y) else Abs(v.x);
    assert size * size == v.x * v.x + v.y * v.y;
    if magnitude > size {
      SquareGrows(size, magnitude);
    }
  }

  lemma SquareGrows(a: real, b: real)
    requires 0.0 <= a < b
    ensures a * a < b * b
  {
    assert a * a <= a * b;
    ProductPositive(b, b - a);
    assert Product(b, b - a) == b * b - a * b;
  }
}
