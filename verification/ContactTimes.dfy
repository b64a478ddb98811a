/** The polynomials behind the predictions mean what they should: with exact thresholds their
    values are distances along the very paths `updateBall` moves the balls on, so roots that are
    right are times of contact. */
module ContactTimes {
  import opened Vectors
  import opened Balls
  import opened Kinematics
  import opened ExactMotion
  import opened TransitionTimes
  import opened Prediction

  function Value(p: Quartic, t: real): real {
    p.a0 + p.a1 * t + p.a2 * (t * t) + p.a3 * (t * t * t) + p.a4 * (t * t * t * t)
  }

  function Offset(q: real, l: real, d: real, t: real): real { q * (t * t) + l * t + d }

  lemma SquareOffset(q: real, l: real, d: real, t: real)
    ensures Offset(q, l, d, t) * Offset(q, l, d, t)
         == d * d + (2.0 * l * d) * t + (l * l + 2.0 * q * d) * (t * t) + (2.0 * q * l) * (t * t * t) + (q * q) * (t * t * t * t)
  {
    var a, b := q * (t * t), l * t;
    assert (a + b + d) * (a + b + d) == d * d + 2.0 * (b * d) + b * b + 2.0 * (a * d) + 2.0 * (a * b) + a * a;
    assert b * d == (l * d) * t && b * b == (l * l) * (t * t) && a * d == (q * d) * (t * t);
    assert a * b == (q * l) * (t * t * t) && a * a == (q * q) * (t * t * t * t);
  }

  /** The quartic is the squared offset less four radii squared. */
  lemma QuarticIs(qx: real, lx: real, dx: real, qy: real, ly: real, dy: real, t: real)
    ensures var x, y := Offset(qx, lx, dx, t), Offset(qy, ly, dy, t);
      Value(ContactQuartic(qx, lx, dx, qy, ly, dy), t) == x * x + y * y - 4.0 * BALL_RADIUS * BALL_RADIUS
  {
    hide Offset;
    SquareOffset(qx, lx, dx, t);
    SquareOffset(qy, ly, dy, t);
    var t2, t3, t4 := t * t, t * t * t, t * t * t * t;
    Spread(2.0 * lx * dx, 2.0 * ly * dy, t);
    Spread(lx * lx + 2.0 * qx * dx, ly * ly + 2.0 * qy * dy, t2);
    Spread(2.0 * qx * lx, 2.0 * qy * ly, t3);
    Spread(qx * qx, qy * qy, t4);
  }

  lemma Spread(a: real, b: real, t: real)
    ensures (a + b) * t == a * t + b * t
  {
  }

  // ---------------------------------------------------------------- along the motion

  /** Where `updateBall` has a ball after time `t`, as long as it stays in its state of motion. */
  function Where(env: Env, b: Ball, t: real): Point { Drift(env, b, t).0 }

  function DistanceSquared(p: Point, q: Point): real { (p.x - q.x) * (p.x - q.x) + (p.y - q.y) * (p.y - q.y) }

  /** With exact thresholds friction always has its own direction. */
  lemma AimIsPull(env: Env, b: Ball)
    requires Exact(env) && b.Travelling()
    ensures Aim(env, b) == Pull(b) && Pull(b) != ZERO
  {
    hide Mag;
    MagPositive(env.root, Pull(b));
  }

  /** One coordinate of uniformly braked motion. */
  function Along(r: real, v: real, a: real, t: real): real { r + v * t - a * (t * t) }

  /** The position of a travelling ball, whichever its state. */
  lemma WhereIs(env: Env, b: Ball, t: real)
    requires ExactRoot(env.root) && b.Travelling()
    ensures Pull(b) != ZERO
    ensures Where(env, b, t) == b.r.Plus(b.v.Times(t).Plus(Direction(env, Pull(b)).Times(Lag(Friction(env, b), t))).ToPoint())
  {
    hide Mag, Direction, Slide, Roll, UpdateSpinning, Lag, Vector.Plus, Vector.Times, Point.Plus;
    if b.state.Sliding? {
      SlideExact(env, b, t);
    } else {
      RollExact(env, b, t);
    }
  }

  /** Both coordinates of a travelling ball are quadratic in time. */
  lemma Travels(env: Env, b: Ball, t: real)
    requires ExactRoot(env.root) && b.Travelling()
    ensures Pull(b) != ZERO
    ensures var u, k := Direction(env, Pull(b)), Brake(env, b);
      && Where(env, b, t).x == Along(b.r.x, b.v.x, Pace(k, u.x), t)
      && Where(env, b, t).y == Along(b.r.y, b.v.y, Pace(k, u.y), t)
  {
    WhereIs(env, b, t);
    var u, mu, k := Direction(env, Pull(b)), Friction(env, b), Brake(env, b);
    assert k == 0.5 * mu * G;
    hide Direction, Aim, Along, Lag, Vector.Plus, Vector.Times, Point.Plus, Where, Brake, Pace, Friction, LegTo;
    LegCoordinates(b.r, b.v, u, t, Lag(mu, t));
    AlongIs(b.r.x, b.v.x, mu, t, u.x, k);
    AlongIs(b.r.y, b.v.y, mu, t, u.y, k);
  }

  lemma AimTravels(env: Env, b: Ball, t: real)
    requires Exact(env) && b.Travelling()
    ensures var u, k := Direction(env, Aim(env, b)), Brake(env, b);
      && Where(env, b, t).x == Along(b.r.x, b.v.x, Pace(k, u.x), t)
      && Where(env, b, t).y == Along(b.r.y, b.v.y, Pace(k, u.y), t)
  {
    hide Direction, Aim, Along, Where, Brake, Pace;
    AimIsPull(env, b);
    Travels(env, b, t);
  }

  /** The same, with the distance lost to friction apart. */
  function LegTo(r: real, v: real, t: real, u: real, lag: real): real { r + (v * t + u * lag) }

  lemma LegCoordinates(r: Point, v: Vector, u: Vector, t: real, lag: real)
    ensures var p := r.Plus(v.Times(t).Plus(u.Times(lag)).ToPoint());
      p.x == LegTo(r.x, v.x, t, u.x, lag) && p.y == LegTo(r.y, v.y, t, u.y, lag)
  {
  }

  lemma AlongIs(r: real, v: real, mu: real, t: real, u: real, k: real)
    requires k == 0.5 * mu * G
    ensures LegTo(r, v, t, u, Lag(mu, t)) == Along(r, v, Pace(k, u), t)
  {
    assert Lag(mu, t) == -(k * (t * t));
    assert u * (k * (t * t)) == (k * u) * (t * t);
  }

  /** The equation of two travelling balls is their distance at that time. */
  lemma MeetingMeans(env: Env, b1: Ball, b2: Ball, t: real)
    requires Exact(env) && b1.Travelling() && b2.Travelling()
    ensures Value(MeetingQuartic(env, b1, b2), t)
         == DistanceSquared(Where(env, b1, t), Where(env, b2, t)) - 4.0 * BALL_RADIUS * BALL_RADIUS
  {
    hide Value, Direction, Aim, Where, ContactQuartic, Brake, Pace, Along, Offset;
    var u1, u2 := Direction(env, Aim(env, b1)), Direction(env, Aim(env, b2));
    var k1, k2 := Brake(env, b1), Brake(env, b2);
    AimTravels(env, b1, t);
    AimTravels(env, b2, t);
    var qx, qy := Pace(k1, u1.x) - Pace(k2, u2.x), Pace(k1, u1.y) - Pace(k2, u2.y);
    var lx, ly, dx, dy := b2.v.x - b1.v.x, b2.v.y - b1.v.y, b2.r.x - b1.r.x, b2.r.y - b1.r.y;
    var p1, p2 := Where(env, b1, t), Where(env, b2, t);
    OffsetIs(b1.r.x, b1.v.x, Pace(k1, u1.x), b2.r.x, b2.v.x, Pace(k2, u2.x), t);
    OffsetIs(b1.r.y, b1.v.y, Pace(k1, u1.y), b2.r.y, b2.v.y, Pace(k2, u2.y), t);
    QuarticIs(qx, lx, dx, qy, ly, dy, t);
    DistanceIs(p1, p2, Offset(qx, lx, dx, t), Offset(qy, ly, dy, t));
  }

  lemma OffsetIs(r1: real, v1: real, a1: real, r2: real, v2: real, a2: real, t: real)
    ensures Offset(a1 - a2, v2 - v1, r2 - r1, t) == Along(r2, v2, a2, t) - Along(r1, v1, a1, t)
  {
    assert (a1 - a2) * (t * t) == a1 * (t * t) - a2 * (t * t);
    assert (v2 - v1) * t == v2 * t - v1 * t;
  }

  lemma DistanceIs(p: Point, q: Point, x: real, y: real)
    requires (x == q.x - p.x && y == q.y - p.y) || (x == p.x - q.x && y == p.y - q.y)
    ensures DistanceSquared(p, q) == x * x + y * y
  {
    EvenSquare(x, p.x - q.x);
    EvenSquare(y, p.y - q.y);
  }

  lemma EvenSquare(a: real, b: real)
    requires a == b || a == -b
    ensures a * a == b * b
  {
  }

  /** And that of a travelling ball and a ball that stays where it is. */
  lemma ReachingMeans(env: Env, b1: Ball, b2: Ball, t: real)
    requires Exact(env) && b1.Travelling() && !b2.Travelling()
    ensures Value(ReachingQuartic(env, b1, b2), t)
         == DistanceSquared(Where(env, b1, t), Where(env, b2, t)) - 4.0 * BALL_RADIUS * BALL_RADIUS
  {
    Stays(env, b2, t);
    hide Value, Direction, Aim, Where, ContactQuartic, Brake, Pace, Along, Offset, Friction, Pull;
    var u, k := Direction(env, Aim(env, b1)), Brake(env, b1);
    AimTravels(env, b1, t);
    var p1, p2 := Where(env, b1, t), Where(env, b2, t);
    var ax, ay := Pace(k, u.x), Pace(k, u.y);
    var dx, dy := b1.r.x - b2.r.x, b1.r.y - b2.r.y;
    ReachIs(b1.r.x, b1.v.x, ax, b2.r.x, t);
    ReachIs(b1.r.y, b1.v.y, ay, b2.r.y, t);
    QuarticIs(-ax, b1.v.x, dx, -ay, b1.v.y, dy, t);
    DistanceIs(p1, p2, Offset(-ax, b1.v.x, dx, t), Offset(-ay, b1.v.y, dy, t));
    assert ReachingQuartic(env, b1, b2) == ContactQuartic(-ax, b1.v.x, dx, -ay, b1.v.y, dy);
  }

  lemma Stays(env: Env, b: Ball, t: real)
    requires !b.Travelling()
    ensures Where(env, b, t) == b.r
  {
    hide Slide, Roll;
  }

  lemma ReachIs(r1: real, v1: real, a: real, r2: real, t: real)
    ensures Offset(-a, v1, r1 - r2, t) == Along(r1, v1, a, t) - r2
  {
  }

  // ---------------------------------------------------------------- solvers that are right

  /** Every real root the quartic solver reports is one. */
  ghost predicate RootsRight(env: Env) {
    forall p: Quartic, i :: 0 <= i < 4 && env.quartic(p.a0, p.a1, p.a2, p.a3, p.a4).Some? ==> RootRight(env, p, i)
  }

  ghost predicate RootRight(env: Env, p: Quartic, i: nat)
    requires i < 4 && env.quartic(p.a0, p.a1, p.a2, p.a3, p.a4).Some?
  {
    var root := env.quartic(p.a0, p.a1, p.a2, p.a3, p.a4).value[i];
    root.1 == 0.0 ==> Value(p, root.0) == 0.0
  }

  /** A complex number. */
  datatype Complex = Complex(re: real, im: real)
  {
    function Times(o: Complex): Complex { Complex(re * o.re - im * o.im, re * o.im + im * o.re) }

    function Plus(o: Complex): Complex { Complex(re + o.re, im + o.im) }

    function Scaled(k: real): Complex { Complex(k * re, k * im) }
  }

  /** The value of a polynomial at a complex number. */
  function ComplexValue(p: Quartic, z: Complex): Complex {
    var z2 := z.Times(z);
    Complex(p.a0, 0.0).Plus(z.Scaled(p.a1)).Plus(z2.Scaled(p.a2)).Plus(z.Times(z2).Scaled(p.a3)).Plus(z2.Times(z2).Scaled(p.a4))
  }

  /** Every root the quartic solver reports, real or not, is exactly one. */
  ghost predicate RootsExact(env: Env) {
    forall p: Quartic, i :: 0 <= i < 4 && env.quartic(p.a0, p.a1, p.a2, p.a3, p.a4).Some? ==> RootExact(env, p, i)
  }

  ghost predicate RootExact(env: Env, p: Quartic, i: nat)
    requires i < 4 && env.quartic(p.a0, p.a1, p.a2, p.a3, p.a4).Some?
  {
    var root := env.quartic(p.a0, p.a1, p.a2, p.a3, p.a4).value[i];
    ComplexValue(p, Complex(root.0, root.1)) == Complex(0.0, 0.0)
  }

  /** It reports every positive root of a polynomial of degree four. */
  ghost predicate RootsComplete(env: Env) {
    forall p: Quartic, t: real :: p.a4 != 0.0 && t > 0.0 && Value(p, t) == 0.0 ==> RootReported(env, p, t)
  }

  /** It refuses one whose leading coefficient is zero, as `gsl_poly_complex_solve` does. */
  ghost predicate FlatRefused(env: Env) {
    forall p: Quartic :: p.a4 == 0.0 ==> env.quartic(p.a0, p.a1, p.a2, p.a3, p.a4).None?
  }

  ghost predicate RootReported(env: Env, p: Quartic, t: real) {
    var roots := env.quartic(p.a0, p.a1, p.a2, p.a3, p.a4);
    roots.Some? && exists i :: 0 <= i < 4 && roots.value[i] == (t, 0.0)
  }

  lemma {:induction false} LeastIs(env: Env, roots: FourRoots, floor: real, n: nat)
    requires 0.0 <= floor && n <= 4
    ensures var least := LeastAmong(env, roots, floor, n);
      && (least == -1.0 || floor < least)
      && (least != -1.0 ==> exists i :: 0 <= i < n && Accepted(env, roots, floor, i) && roots[i].0 == least)
      && forall i :: 0 <= i < n && Accepted(env, roots, floor, i) ==> 0.0 < least <= roots[i].0
    decreases n
  {
    if n > 0 {
      LeastIs(env, roots, floor, n - 1);
    }
  }

  /** The equation solved for a pair. */
  function Equation(env: Env, b1: Ball, b2: Ball): Quartic
    requires b1.Travelling()
  {
    if b2.Travelling() then MeetingQuartic(env, b1, b2) else ReachingQuartic(env, b1, b2)
  }

  lemma EquationMeans(env: Env, b1: Ball, b2: Ball, t: real)
    requires Exact(env) && b1.Travelling()
    ensures Value(Equation(env, b1, b2), t) == DistanceSquared(Where(env, b1, t), Where(env, b2, t)) - 4.0 * BALL_RADIUS * BALL_RADIUS
  {
    hide MeetingQuartic, ReachingQuartic, Value, Where;
    if b2.Travelling() {
      MeetingMeans(env, b1, b2, t);
    } else {
      ReachingMeans(env, b1, b2, t);
    }
  }

  lemma RootOfPair(env: Env, b1: Ball, b2: Ball)
    requires Exact(env) && b1.Travelling()
    ensures CollisionRoot(env, b1, b2) == ContactTime(env, b1, b2, Equation(env, b1, b2))
  {
    hide ContactTime, MeetingQuartic, ReachingQuartic, Mag;
    MagPositive(env.root, Pull(b1));
  }

  /** On the paths they move along, two balls touch after time `t`. */
  predicate Touching(env: Env, b1: Ball, b2: Ball, t: real) {
    DistanceSquared(Where(env, b1, t), Where(env, b2, t)) == 4.0 * BALL_RADIUS * BALL_RADIUS
  }

  lemma TouchingIs(env: Env, b1: Ball, b2: Ball, t: real)
    requires Exact(env) && b1.Travelling()
    ensures Touching(env, b1, b2, t) <==> Value(Equation(env, b1, b2), t) == 0.0
  {
    hide Value, Where, Equation, DistanceSquared;
    EquationMeans(env, b1, b2, t);
  }

  /** With a solver that is right, the root taken is a contact beyond the floor. */
  lemma RootTouches(env: Env, b1: Ball, b2: Ball)
    requires Exact(env) && RootsRight(env) && b1.Travelling() && CollisionRoot(env, b1, b2) > 0.0
    ensures var t := CollisionRoot(env, b1, b2); t > Floor(b1, b2) && Touching(env, b1, b2, t)
  {
    hide Value, Touching, Equation, CollisionRoot, LeastAmong, Floor, Parting;
    var p, t := Equation(env, b1, b2), CollisionRoot(env, b1, b2);
    RootOfPair(env, b1, b2);
    FloorSign(b1, b2);
    var roots := env.quartic(p.a0, p.a1, p.a2, p.a3, p.a4).value;
    LeastIs(env, roots, Floor(b1, b2), 4);
    var i :| 0 <= i < 4 && Accepted(env, roots, Floor(b1, b2), i) && roots[i].0 == t;
    assert RootRight(env, p, i);
    TouchingIs(env, b1, b2, t);
  }

  /** The distance of two balls is growing: its square has a positive derivative. */
  predicate Growing(b1: Ball, b2: Ball) {
    (b2.r.x - b1.r.x) * (b2.v.x - b1.v.x) + (b2.r.y - b1.r.y) * (b2.v.y - b1.v.y) > 0.0
  }

  /** Contacts that are not looked for: past ones, and of two balls that draw apart those within a
      hundred-millionth of a second. */
  predicate Overlooked(b1: Ball, b2: Ball, t: real) { t <= if Growing(b1, b2) then 0.00000001 else 0.0 }

  lemma OverlookedIs(b1: Ball, b2: Ball, t: real)
    ensures Overlooked(b1, b2, t) <==> t <= Floor(b1, b2)
  {
    var (x, y, p, q) := (b2.r.x - b1.r.x, b2.r.y - b1.r.y, b2.v.x - b1.v.x, b2.v.y - b1.v.y);
    assert b1.r.x - b2.r.x == -x && b1.r.y - b2.r.y == -y && b1.v.x - b2.v.x == -p && b1.v.y - b2.v.y == -q;
    assert b1.r.ToVector().Minus(b2.r.ToVector()).Dot(b1.v.Minus(b2.v)) == -x * -p + -y * -q;
    assert -x * -p == x * p && -y * -q == y * q;
  }

  /** That derivative is the linear coefficient of the equation of contact. */
  lemma GrowingIs(env: Env, b1: Ball, b2: Ball)
    requires Exact(env) && b1.Travelling() && (b2.Travelling() || b2.v == ZERO)
    ensures Growing(b1, b2) <==> Equation(env, b1, b2).a1 > 0.0
  {
    hide Direction, Aim, Brake, Pace, ContactQuartic;
    if b2.Travelling() {
      var (u1, u2, k1, k2) := (Direction(env, Aim(env, b1)), Direction(env, Aim(env, b2)), Brake(env, b1), Brake(env, b2));
      LinearIs(Pace(k1, u1.x) - Pace(k2, u2.x), b2.v.x - b1.v.x, b2.r.x - b1.r.x,
               Pace(k1, u1.y) - Pace(k2, u2.y), b2.v.y - b1.v.y, b2.r.y - b1.r.y);
    } else {
      var (u, k) := (Direction(env, Aim(env, b1)), Brake(env, b1));
      LinearIs(-Pace(k, u.x), b1.v.x, b1.r.x - b2.r.x, -Pace(k, u.y), b1.v.y, b1.r.y - b2.r.y);
      BothTurned(b1.v.x, b1.r.x - b2.r.x, b2.v.x - b1.v.x, b2.r.x - b1.r.x);
      BothTurned(b1.v.y, b1.r.y - b2.r.y, b2.v.y - b1.v.y, b2.r.y - b1.r.y);
    }
  }

  lemma BothTurned(l: real, d: real, m: real, e: real)
    requires m == -l && e == -d
    ensures e * m == d * l
  {
  }

  lemma LinearIs(qx: real, lx: real, dx: real, qy: real, ly: real, dy: real)
    ensures ContactQuartic(qx, lx, dx, qy, ly, dy).a1 == 2.0 * (dx * lx + dy * ly)
  {
  }

  lemma FloorSign(b1: Ball, b2: Ball)
    ensures 0.0 <= Floor(b1, b2)
  {
  }

  /** Deceleration along both axes; a ball that stays where it is has none. */
  function Slowing(env: Env, b: Ball): (real, real) {
    if b.Travelling() then
      var u, k := Direction(env, Aim(env, b)), Brake(env, b);
      (Pace(k, u.x), Pace(k, u.y))
    else (0.0, 0.0)
  }

  predicate BrakedAlike(env: Env, b1: Ball, b2: Ball) { Slowing(env, b1) == Slowing(env, b2) }

  lemma SumOfSquares(x: real, y: real)
    ensures x * x + y * y == 0.0 <==> x == 0.0 && y == 0.0
  {
    var p := Square(x);
    var q := Square(y);
  }

  lemma QuarticLeads(qx: real, lx: real, dx: real, qy: real, ly: real, dy: real)
    ensures ContactQuartic(qx, lx, dx, qy, ly, dy).a4 == 0.0 <==> qx == 0.0 && qy == 0.0
  {
    SumOfSquares(qx, qy);
  }

  /** The equation has degree four exactly if the two decelerations differ. */
  lemma LeadingIs(env: Env, b1: Ball, b2: Ball)
    requires b1.Travelling()
    ensures Equation(env, b1, b2).a4 == 0.0 <==> BrakedAlike(env, b1, b2)
  {
    hide Direction, Aim, Brake, Pace, ContactQuartic;
    var p, q := Slowing(env, b1), Slowing(env, b2);
    if b2.Travelling() {
      QuarticLeads(p.0 - q.0, b2.v.x - b1.v.x, b2.r.x - b1.r.x, p.1 - q.1, b2.v.y - b1.v.y, b2.r.y - b1.r.y);
    } else {
      QuarticLeads(-p.0, b1.v.x, b1.r.x - b2.r.x, -p.1, b1.v.y, b1.r.y - b2.r.y);
    }
  }

  /** A travelling ball is never braked like one that stays. */
  lemma StayingDiffers(env: Env, b1: Ball, b2: Ball)
    requires Exact(env) && b1.Travelling() && !b2.Travelling()
    ensures !BrakedAlike(env, b1, b2)
  {
    hide Direction, Aim;
    var u, k := Direction(env, Aim(env, b1)), Brake(env, b1);
    AimIsPull(env, b1);
    DirectionUnit(env, Pull(b1));
    if Pace(k, u.x) == 0.0 && Pace(k, u.y) == 0.0 {
      ZeroProduct(k, u.x);
      ZeroProduct(k, u.y);
      assert false;
    }
  }

  /** With a solver that misses no root, no contact beyond the floor comes before the root taken. */
  lemma RootFirst(env: Env, b1: Ball, b2: Ball, t: real)
    requires Exact(env) && RootsComplete(env) && b1.Travelling() && !BrakedAlike(env, b1, b2)
    requires Floor(b1, b2) < t && Touching(env, b1, b2, t)
    ensures 0.0 < CollisionRoot(env, b1, b2) <= t
  {
    hide Value, Touching, Equation, CollisionRoot, LeastAmong, Floor, Parting, BrakedAlike;
    var p := Equation(env, b1, b2);
    RootOfPair(env, b1, b2);
    FloorSign(b1, b2);
    LeadingIs(env, b1, b2);
    TouchingIs(env, b1, b2, t);
    assert RootReported(env, p, t);
    var roots := env.quartic(p.a0, p.a1, p.a2, p.a3, p.a4).value;
    LeastIs(env, roots, Floor(b1, b2), 4);
    var i :| 0 <= i < 4 && roots[i] == (t, 0.0);
    assert Accepted(env, roots, Floor(b1, b2), i);
  }

  /** Two balls braked alike are refused by the solver, and that reads as no collision. */
  lemma RootRefused(env: Env, b1: Ball, b2: Ball)
    requires Exact(env) && FlatRefused(env) && b1.Travelling() && BrakedAlike(env, b1, b2)
    ensures CollisionRoot(env, b1, b2) == 0.0
  {
    hide Equation, CollisionRoot, BrakedAlike;
    RootOfPair(env, b1, b2);
    LeadingIs(env, b1, b2);
  }

  /** A predicted collision is a contact: at its time, on the paths the balls move along, their
      centres are exactly two radii apart. */
  lemma PredictedContact(env: Env, b1: Ball, b2: Ball, now: real)
    requires Exact(env) && RootsRight(env) && b1.Travelling() && NextCollisionEvent(env, b1, b2, now).Some?
    ensures var t := NextCollisionEvent(env, b1, b2, now).value.time - now; Touching(env, b1, b2, t) && !Overlooked(b1, b2, t)
  {
    hide Touching, CollisionRoot, RootsRight, Overlooked, Floor;
    RootTouches(env, b1, b2);
    var t := CollisionRoot(env, b1, b2);
    OverlookedIs(b1, b2, t);
    assert NextCollisionEvent(env, b1, b2, now).value.time - now == t;
  }

  /** Of two balls that will touch, other than at a time overlooked, a collision is predicted no later than that,
      if and only if they are not braked alike; otherwise none is. */
  lemma NoContactMissed(env: Env, b1: Ball, b2: Ball, now: real, t: real)
    requires Exact(env) && RootsComplete(env) && FlatRefused(env)
    requires b1.Travelling() && b2.InPlay() && (b2.Travelling() ==> b1.id <= b2.id)
    requires !Overlooked(b1, b2, t) && Touching(env, b1, b2, t)
    ensures var e := NextCollisionEvent(env, b1, b2, now);
      if BrakedAlike(env, b1, b2) then e.None? else e.Some? && e.value.time <= now + t
  {
    hide Touching, CollisionRoot, Floor, RootsComplete, FlatRefused, BrakedAlike, Overlooked;
    OverlookedIs(b1, b2, t);
    if BrakedAlike(env, b1, b2) {
      RootRefused(env, b1, b2);
    } else {
      RootFirst(env, b1, b2, t);
    }
  }

  // ---------------------------------------------------------------- a chase

  /** A ball rolling up the middle of a table with speed `v`. */
  function Roller(id: BallId, y: real, v: real): BallData {
    BallData(id, Rolling, Point(DEFAULT_TABLE.width / 2.0, y), Vector(0.0, v, 0.0), Vector(-(v / BALL_RADIUS), 0.0, 0.0))
  }

  lemma RollerRolls(env: Env, id: BallId, y: real, v: real)
    requires Exact(env) && v > 0.0
    ensures var b := Roller(id, y, v);
      && Settled(b) && Classified(env, b) && b.Slip() == ZERO
      && Direction(env, b.v) == Vector(0.0, 1.0, 0.0) && TransitionDelay(env, b) == v / (env.table.muRolling * G)
  {
    var b := Roller(id, y, v);
    Ratio(v, BALL_RADIUS);
    MagIs(env, b.v, v);
    hide Mag;
    QuotientIs(v, v, 1.0);
    UpdateStateExact(env, b);
  }

  /** How far it has come after time `t`, braked by `k`. */
  function Rolled(v: real, k: real, t: real): real { v * t - 0.5 * k * (t * t) }

  lemma RollerMoves(env: Env, id: BallId, y: real, v: real, t: real)
    requires Exact(env) && v > 0.0
    ensures var b := Roller(id, y, v); Settled(b) && Where(env, b, t) == Point(DEFAULT_TABLE.width / 2.0, y + Rolled(v, env.table.muRolling * G, t))
    ensures Slowing(env, Roller(id, y, v)) == (0.0, Brake(env, Roller(id, y, v)))
  {
    hide Mag, Direction, Where, TransitionDelay, UpdateState;
    RollerRolls(env, id, y, v);
    AimIsPull(env, Roller(id, y, v));
    Travels(env, Roller(id, y, v), t);
    assert 0.5 * env.table.muRolling * G == 0.5 * (env.table.muRolling * G);
  }

  /** A ball chasing another, both rolling up the middle of the table: they touch after one second, long
      before either stops or gets to a cushion, and no collision is predicted. */
  lemma ChaseUnseen(env: Env, now: real)
    requires Exact(env) && FlatRefused(env) && env.table == DEFAULT_TABLE
    ensures var k := DEFAULT_TABLE.muRolling * G;
      var b1, b2 := Roller(ONE, 0.5, 4.0 * k), Roller(EIGHT, 0.5 + k + 2.0 * BALL_RADIUS, 3.0 * k);
      && Settled(b1) && Settled(b2) && Classified(env, b1) && Classified(env, b2)
      && TransitionDelay(env, b1) == 4.0 && TransitionDelay(env, b2) == 3.0
      && (forall t :: 0.0 <= t <= 1.0 ==> env.table.Holds(Where(env, b1, t)) && env.table.Holds(Where(env, b2, t)))
      && !Overlooked(b1, b2, 1.0) && Touching(env, b1, b2, 1.0)
      && NextCollisionEvent(env, b1, b2, now).None?
  {
    hide Mag, Direction, Where, UpdateState, TransitionDelay, CollisionRoot, Slowing;
    var k := DEFAULT_TABLE.muRolling * G;
    var y := 0.5 + k + 2.0 * BALL_RADIUS;
    var b1, b2 := Roller(ONE, 0.5, 4.0 * k), Roller(EIGHT, y, 3.0 * k);
    RollerRolls(env, ONE, 0.5, 4.0 * k);
    RollerRolls(env, EIGHT, y, 3.0 * k);
    forall t | 0.0 <= t <= 1.0
      ensures env.table.Holds(Where(env, b1, t)) && env.table.Holds(Where(env, b2, t))
    {
      RollerMoves(env, ONE, 0.5, 4.0 * k, t);
      RollerMoves(env, EIGHT, y, 3.0 * k, t);
      RolledBounds(4.0 * k, k, t);
      RolledBounds(3.0 * k, k, t);
    }
    RollerMoves(env, ONE, 0.5, 4.0 * k, 1.0);
    RollerMoves(env, EIGHT, y, 3.0 * k, 1.0);
    RootRefused(env, b1, b2);
    ChaseCloses(k);
  }

  lemma RolledBounds(v: real, k: real, t: real)
    requires 0.0 <= k <= v && 0.0 <= t <= 1.0
    ensures 0.0 <= Rolled(v, k, t) <= v
  {
    var p := Product(k, t);
    var q := Product(t, v - 0.5 * p);
    var r := Product(v, 1.0 - t);
    var s := Product(p, t);
    assert p * t == k * (t * t);
  }

  lemma ChaseCloses(k: real)
    requires k > 0.0
    ensures var b1, b2 := Roller(ONE, 0.5, 4.0 * k), Roller(EIGHT, 0.5 + k + 2.0 * BALL_RADIUS, 3.0 * k); !Parting(b1, b2)
    ensures DistanceSquared(Point(DEFAULT_TABLE.width / 2.0, 0.5 + Rolled(4.0 * k, k, 1.0)),
                            Point(DEFAULT_TABLE.width / 2.0, 0.5 + k + 2.0 * BALL_RADIUS + Rolled(3.0 * k, k, 1.0))) == 4.0 * BALL_RADIUS * BALL_RADIUS
  {
    var p := Product(k + 2.0 * BALL_RADIUS, k);
  }

  // ---------------------------------------------------------------- rails and pockets

  /** How far past a line a point lies, up to sign. */
  function Past(env: Env, line: Line, p: Point): real {
    var rad, corner := BALL_RADIUS, CornerWidth(env);
    match line
    case SouthLine => p.y - rad
    case NorthLine => p.y - env.table.length + rad
    case WestLine => p.x - rad
    case EastLine => p.x - env.table.width + rad
    case SouthWestLine => p.x + p.y - corner - rad
    case SouthEastLine => p.x - p.y + corner + rad - env.table.width
    case NorthWestLine => p.y - p.x + corner + rad - env.table.length
    case NorthEastLine => p.x + p.y + corner + rad - env.table.width - env.table.length
  }

  function Parabola(c: (real, real, real), t: real): real { c.0 * (t * t) + c.1 * t + c.2 }

  /** The quadratic of a rail or pocket is the distance of the ball from its line at that time. */
  lemma CrossingMeans(env: Env, b: Ball, line: Line, t: real)
    requires ExactRoot(env.root) && b.Travelling()
    ensures Parabola(Crossing(env, b, Direction(env, Pull(b)), line), t) == Past(env, line, Where(env, b, t))
  {
    Travels(env, b, t);
    hide Direction, Where, Brake, CornerWidth, Along, Parabola, Pace;
    var u, k, p := Direction(env, Pull(b)), Brake(env, b), Where(env, b, t);
    var ax, ay := Pace(k, u.x), Pace(k, u.y);
    PaceSums(k, u.x, u.y);
    AlongSums(b.r.x, b.v.x, ax, b.r.y, b.v.y, ay, t);
    match line {
      case SouthLine => QuadraticIs(b.r.y, b.v.y, ay, Past(env, line, p) - p.y, t);
      case NorthLine => QuadraticIs(b.r.y, b.v.y, ay, Past(env, line, p) - p.y, t);
      case WestLine => QuadraticIs(b.r.x, b.v.x, ax, Past(env, line, p) - p.x, t);
      case EastLine => QuadraticIs(b.r.x, b.v.x, ax, Past(env, line, p) - p.x, t);
      case SouthEastLine => QuadraticIs(b.r.x - b.r.y, b.v.x - b.v.y, ax - ay, Past(env, line, p) - (p.x - p.y), t);
      case NorthWestLine => QuadraticIs(b.r.y - b.r.x, b.v.y - b.v.x, ay - ax, Past(env, line, p) - (p.y - p.x), t);
      case _ => QuadraticIs(b.r.x + b.r.y, b.v.x + b.v.y, ax + ay, Past(env, line, p) - (p.x + p.y), t);
    }
  }

  lemma QuadraticIs(r: real, v: real, a: real, d: real, t: real)
    ensures Parabola((-a, v, r + d), t) == Along(r, v, a, t) + d
  {
  }

  lemma PaceSums(k: real, x: real, y: real)
    ensures Pace(k, y + x) == Pace(k, x) + Pace(k, y) && Pace(k, x + y) == Pace(k, x) + Pace(k, y)
    ensures Pace(k, y - x) == Pace(k, y) - Pace(k, x) && Pace(k, x - y) == Pace(k, x) - Pace(k, y)
  {
  }

  /** Sums and differences of the two coordinates, as quadratics in time. */
  lemma AlongSums(x: real, vx: real, ax: real, y: real, vy: real, ay: real, t: real)
    ensures Along(x, vx, ax, t) + Along(y, vy, ay, t) == Along(x + y, vx + vy, ax + ay, t)
    ensures Along(x, vx, ax, t) - Along(y, vy, ay, t) == Along(x - y, vx - vy, ax - ay, t)
    ensures Along(y, vy, ay, t) - Along(x, vx, ax, t) == Along(y - x, vy - vx, ay - ax, t)
  {
  }
}
