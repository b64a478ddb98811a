/** The closed-form motion of one ball (`Ball::updateState`, `Shot::updateBall`,
    `Shot::updateSpinning`) and the prediction of its next change of state. */
module Kinematics {
  import opened Wrappers
  import opened Vectors
  import opened Balls
  import opened Events

  const G: real := 9.81

  datatype Table = Table(
    length: real, width: real, cornerPocketWidth: real, sidePocketWidth: real,
    muSliding: real, muRolling: real, muSpinning: real,
    railHeight: real, cueLength: real)
  {
    function HeadString(): real { length * 3.0 / 4.0 }

    function FootSpot(): Point { Point(width / 2.0, length / 4.0) }

    /** A ball there lies between the cushions. */
    predicate Holds(p: Point) { BALL_RADIUS <= p.x <= width - BALL_RADIUS && BALL_RADIUS <= p.y <= length - BALL_RADIUS }
  }

  /** The table every game is played on. */
  const DEFAULT_TABLE: Table := Table(2.236, 1.116, 0.11, 0.12, 0.2, 0.015, 0.044, 0.040005, 1.45)

  /** What `gsl_poly_solve_quadratic` reports. */
  datatype Quadratic = Quadratic(count: int, root1: real, root2: real)

  /** The four complex roots of a quartic, real and imaginary parts. */
  type FourRoots = s: seq<(real, real)> | |s| == 4
    witness [(0.0, 0.0), (0.0, 0.0), (0.0, 0.0), (0.0, 0.0)]

  /** A table, the two thresholds of `Utils`, and the numerical library as oracles: square
      root, cosine and sine of an angle in degrees, direction between two points, and the
      two polynomial solvers. `quotient` is what a division by zero yields. */
  datatype EnvData = EnvData(
    table: Table,
    epsilon: real,
    velocityEpsilon: real,
    root: Root,
    cos: real -> real,
    sin: real -> real,
    angle: (Point, Point) -> real,
    quadratic: (real, real, real) -> Quadratic,
    quartic: (real, real, real, real, real) -> Option<FourRoots>,
    quotient: real)

  ghost predicate IsTrig(cos: real -> real, sin: real -> real) {
    && (forall x: real :: cos(x) * cos(x) + sin(x) * sin(x) == 1.0)
    && (forall x: real :: cos(-x) == cos(x))
    && (forall x: real :: sin(-x) == -sin(x))
  }

  ghost predicate Physical(env: EnvData) {
    && env.table.muSliding > 0.0 && env.table.muRolling > 0.0 && env.table.muSpinning > 0.0
    && env.table.cueLength > 0.0
    && env.epsilon >= 0.0 && env.velocityEpsilon >= 0.0
    && IsTrig(env.cos, env.sin)
  }

  type Env = e: EnvData | Physical(e)
    ghost witness EnvData(
      DEFAULT_TABLE, 0.00000000001, 0.0000000001,
      (x: real) => if x > 0.0 then 1.0 else 0.0,
      (x: real) => 1.0, (x: real) => 0.0, (p: Point, q: Point) => 0.0,
      (a: real, b: real, c: real) => Quadratic(0, 0.0, 0.0),
      (a: real, b: real, c: real, d: real, e: real) => None,
      0.0)

  /** `Utils::vzero`; a threshold of 0 stands for testing exactly. */
  predicate VZero(env: Env, a: real) { a == 0.0 || Abs(a) < env.velocityEpsilon }

  predicate FEqual(env: Env, a: real, b: real) { a == b || Abs(a - b) < env.epsilon }

  predicate FGreater(env: Env, a: real, b: real) { a > b && !FEqual(env, a, b) }

  predicate FLess(env: Env, a: real, b: real) { a < b && !FEqual(env, a, b) }

  predicate FLessEqual(env: Env, a: real, b: real) { a < b || FEqual(env, a, b) }

  /** `Ball::updateState`. */
  function UpdateState(env: Env, b: BallData): (r: Ball)
    requires b.v.z == 0.0 && (b.InPlay() || Settled(b))
    ensures r.id == b.id && r.r == b.r && (b.InPlay() <==> r.InPlay())
    ensures !b.InPlay() ==> r == b
  {
    MagZero(env.root);
    if !b.InPlay() then b
    else if !VZero(env, Mag(env.root, b.v)) then
      if !VZero(env, Mag(env.root, b.Slip())) then b.(state := Sliding) else b.(state := Rolling)
    else if !VZero(env, b.w.z) then b.(state := Spinning, w := Vector(0.0, 0.0, b.w.z))
    else b.(state := Stationary, v := ZERO, w := ZERO)
  }

  /** `Shot::updateSpinning`. */
  function UpdateSpinning(env: Env, wz: real, t: real, muSp: real, sliding: bool): real {
    if FEqual(env, wz, 0.0) then 0.0
    else
      var next := wz - 5.0 * muSp * G * t / (2.0 * BALL_RADIUS)
                       * (if wz > 0.0 then 1.0 else -1.0) * (if sliding then 0.25 else 1.0);
      if next * wz <= 0.0 then 0.0 else next
  }

  /** `norm` of a vector that has one. */
  function Direction(env: Env, v: Vector): Vector
    requires v != ZERO
  {
    MagPositive(env.root, v);
    Norm(env.root, v)
  }

  /** The ball-centric frame of a moving ball: cosine and sine of its heading. */
  function Heading(env: Env, v: Vector): (h: (real, real))
    requires v != ZERO
    ensures Mag(env.root, v) > 0.0
    ensures h.0 * Mag(env.root, v) == v.x && h.1 * Mag(env.root, v) == v.y
  {
    MagPositive(env.root, v);
    var n := Direction(env, v);
    (n.x, n.y)
  }

  lemma RotateNonzero(x: real, y: real, c: real, s: real)
    requires (x != 0.0 || y != 0.0) && (c != 0.0 || s != 0.0)
    ensures x * c + y * s != 0.0 || y * c - x * s != 0.0
  {
    var c2 := Square(c);
    var s2 := Square(s);
    assert c * (x * c + y * s) - s * (y * c - x * s) == x * c2 + x * s2 == x * (c2 + s2);
    assert s * (x * c + y * s) + c * (y * c - x * s) == y * c2 + y * s2 == y * (c2 + s2);
  }

  lemma FlatRotateNonzero(v: Vector, c: real, s: real)
    requires v != ZERO && v.z == 0.0 && (c != 0.0 || s != 0.0)
    ensures v.Rotate(c, -s) != ZERO && v.Rotate(c, -s).z == 0.0
  {
    assert v == Vector(v.x, v.y, 0.0);
    RotateNonzero(v.x, v.y, c, s);
  }

  lemma HeadingNonzero(env: Env, v: Vector)
    requires v != ZERO && v.z == 0.0
    ensures Heading(env, v).0 != 0.0 || Heading(env, v).1 != 0.0
  {
    hide Mag, Norm, Heading;
    assert v == Vector(v.x, v.y, 0.0);
    var h := Heading(env, v);
    assert h.0 == 0.0 ==> v.x == 0.0;
    assert h.1 == 0.0 ==> v.y == 0.0;
  }

  /** Turning a moving ball into its frame keeps velocity and slip away from zero. */
  lemma FrameNonzero(env: Env, b: Ball)
    requires b.Travelling()
    ensures var (c, s) := Heading(env, b.v);
      && (c != 0.0 || s != 0.0)
      && b.v.Rotate(c, -s) != ZERO && b.v.Rotate(c, -s).z == 0.0
      && b.v.Rotate(c, -s).Plus(UP.Cross(b.w.Rotate(c, -s)).Times(BALL_RADIUS)) == b.Slip().Rotate(c, -s)
      && (b.state.Sliding? ==> b.Slip().Rotate(c, -s) != ZERO) && b.Slip().z == 0.0
  {
    hide Mag, Norm, Heading;
    HeadingNonzero(env, b.v);
    var (c, s) := Heading(env, b.v);
    FrameSlip(b, c, -s);
    FlatRotateNonzero(b.v, c, s);
    if b.state.Sliding? {
      FlatRotateNonzero(b.Slip(), c, s);
    }
  }

  /** Slip is computed in any rotated frame alike. */
  lemma FrameSlip(b: BallData, c: real, s: real)
    requires b.v.z == 0.0
    ensures b.Slip().z == 0.0
    ensures b.v.Rotate(c, s).Plus(UP.Cross(b.w.Rotate(c, s)).Times(BALL_RADIUS)) == b.Slip().Rotate(c, s)
  {
  }

  /** Change of speed over `t` under friction `mu`. */
  function Drag(mu: real, t: real): real { -mu * G * t }

  /** Distance lost over `t` under friction `mu`. */
  function Lag(mu: real, t: real): real { -(0.5 * mu * G * t * t) }

  /** Change of spin over `t` under sliding friction `mu`. */
  function Twist(mu: real, t: real): real { -(5.0 * mu * G) / (2.0 * BALL_RADIUS) * t }

  /** Displacement along the heading at speed `m`, with `lag` lost along `u`. */
  function FrameLegOf(m: real, t: real, lag: real, u: Vector): Point { Point(m * t + lag * u.x, lag * u.y) }

  function Share(a: real, b: real): real
    requires b != 0.0
  {
    a / b
  }

  /** The equations of a sliding ball, in the frame (c, s) and with unit slip `u` there. */
  function SlideStep(env: Env, b: Ball, t: real, c: real, s: real, u: Vector): (Point, Vector, Vector) {
    var v, w := b.v.Rotate(c, -s), b.w.Rotate(c, -s);
    var mu := env.table.muSliding;
    var r := FrameLegOf(Mag(env.root, v), t, Lag(mu, t), u);
    var turned := w.Plus(u.Cross(UP).Times(Twist(mu, t)));
    (b.r.Plus(r.Rotate(c, s)),
     v.Plus(u.Times(Drag(mu, t))).Rotate(c, s),
     turned.(z := UpdateSpinning(env, w.z, t, env.table.muSpinning, true)).Rotate(c, s))
  }

  /** The SLIDING case of `updateBall`, before snapping: position, velocity and spin. */
  function Slide(env: Env, b: Ball, t: real): (Point, Vector, Vector)
    requires b.state.Sliding?
  {
    FrameNonzero(env, b);
    var (c, s) := Heading(env, b.v);
    var slip := b.v.Rotate(c, -s).Plus(UP.Cross(b.w.Rotate(c, -s)).Times(BALL_RADIUS));
    MagPositive(env.root, slip);
    SlideStep(env, b, t, c, s, Norm(env.root, slip))
  }

  /** The equations of a rolling ball, in the frame (c, s) and with unit velocity `n` there. */
  function RollStep(env: Env, b: Ball, t: real, c: real, s: real, n: Vector): (Point, Vector, Vector)
    requires Mag(env.root, b.v.Rotate(c, -s)) != 0.0
  {
    var v, w := b.v.Rotate(c, -s), b.w.Rotate(c, -s);
    var mu := env.table.muRolling;
    var r := v.Times(t).Plus(n.Times(Lag(mu, t))).ToPoint();
    var slower := v.Plus(n.Times(Drag(mu, t)));
    var turned := w.Times(Share(Mag(env.root, slower), Mag(env.root, v)));
    (b.r.Plus(r.Rotate(c, s)),
     slower.Rotate(c, s),
     turned.(z := UpdateSpinning(env, w.z, t, env.table.muSpinning, false)).Rotate(c, s))
  }

  /** The ROLLING case of `updateBall`. */
  function Roll(env: Env, b: Ball, t: real): (Point, Vector, Vector)
    requires b.state.Rolling?
  {
    FrameNonzero(env, b);
    var (c, s) := Heading(env, b.v);
    MagPositive(env.root, b.v.Rotate(c, -s));
    RollStep(env, b, t, c, s, Norm(env.root, b.v.Rotate(c, -s)))
  }

  function Snap(env: Env, v: Vector): Vector {
    Vector(if FEqual(env, v.x, 0.0) then 0.0 else v.x,
           if FEqual(env, v.y, 0.0) then 0.0 else v.y,
           if FEqual(env, v.z, 0.0) then 0.0 else v.z)
  }

  /** `Shot::updateBall` before snapping and reclassification; resting balls stay put. */
  function Drift(env: Env, b: Ball, t: real): (Point, Vector, Vector) {
    if b.state.Sliding? then Slide(env, b, t)
    else if b.state.Rolling? then Roll(env, b, t)
    else if b.state.Spinning? then
      (b.r, b.v, Vector(0.0, 0.0, UpdateSpinning(env, b.w.z, t, env.table.muSpinning, false)))
    else (b.r, b.v, b.w)
  }

  lemma DriftFlat(env: Env, b: Ball, t: real)
    ensures Drift(env, b, t).1.z == 0.0
  {
    if b.Travelling() {
      FrameNonzero(env, b);
      var (c, s) := Heading(env, b.v);
      if b.state.Sliding? {
        var slip := b.Slip().Rotate(c, -s);
        MagPositive(env.root, slip);
        assert Norm(env.root, slip).z == 0.0;
      } else {
        var v := b.v.Rotate(c, -s);
        MagPositive(env.root, v);
        assert Norm(env.root, v).z == 0.0;
      }
    }
  }

  /** `Shot::updateBall`. */
  function UpdateBall(env: Env, b: Ball, oldTime: real, newTime: real): (r: Ball)
    ensures r.id == b.id && (if b.Moving() then r.InPlay() else r == b)
  {
    if !b.Moving() then b
    else
      DriftFlat(env, b, newTime - oldTime);
      var (r, v, w) := Drift(env, b, newTime - oldTime);
      UpdateState(env, b.(r := r, v := Snap(env, v), w := Snap(env, w)))
  }

  /** `Shot::nextTransitionEvent`: how long until the current state of motion ends. */
  function TransitionDelay(env: Env, b: Ball): (d: real)
    requires b.Moving()
    ensures d >= 0.0
  {
    assert IsRoot(env.root);
    if b.state.Sliding? then 2.0 * Mag(env.root, b.Slip()) / (7.0 * env.table.muSliding * G)
    else if b.state.Rolling? then Mag(env.root, b.v) / (env.table.muRolling * G)
    else Abs((2.0 * BALL_RADIUS * b.w.z) / (5.0 * env.table.muSpinning * G))
  }

  function NextTransitionEvent(env: Env, b: Ball, now: real): Option<Event> {
    if b.Moving() then Some(Event(now + TransitionDelay(env, b), b.id, StateChange)) else None
  }
}
