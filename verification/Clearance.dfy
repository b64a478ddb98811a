/** The clearance test of the cue stick (`TableState::isPhysicallyPossible`). */
module Clearance {
  import opened Vectors
  import opened Balls
  import opened Events
  import opened Kinematics
  import opened ExactMotion

  const PI: real := 3.14159265358979323846
  const MAX_VELOCITY: real := 10.0
  const MAX_THETA: real := 70.0

  /** What is added to `theta` (degrees) and `b` (millimetres). */
  const EPSILON_THETA: real := 0.001
  const EPSILON_B: real := 0.001

  /** The bits of the result; none set is OK_PRECONDITION. */
  datatype Fault = BadV | BadPhi | BadTheta | BadA | BadB | CueStickCollision

  // ---------------------------------------------------------------- the cue

  /** A strike as the test sees it: lengths in metres, and the two margins added. */
  function Widened(sp: ShotParams): ShotParams {
    sp.(a := sp.a / 1000.0, b := (sp.b + EPSILON_B) / 1000.0, theta := sp.theta + EPSILON_THETA)
  }

  function Radians(degrees: real): real { degrees * PI / 180.0 }

  /** Square of how far behind the middle of the ball the cue meets it; off the ball this is negative. */
  function DepthSquared(m: ShotParams): real { BALL_RADIUS * BALL_RADIUS - m.a * m.a - m.b * m.b }

  function Depth(env: Env, m: ShotParams): real { env.root(DepthSquared(m)) }

  /** Where the tip of the cue meets a cue ball at `r`. */
  function Tip(env: Env, r: Point, m: ShotParams): Vector {
    var turn := -(m.phi + 90.0);
    Vector(r.x, r.y, BALL_RADIUS).Plus(Vector(m.a, Depth(env, m), m.b).Rotate(env.cos(turn), env.sin(turn)))
  }

  /** Unit vector of the direction of the shot in the plane of the table. */
  function Forward(env: Env, phi: real): Vector {
    assert env.cos(phi) * env.cos(phi) + env.sin(phi) * env.sin(phi) == 1.0;
    Direction(env, Vector(env.cos(phi), env.sin(phi), 0.0))
  }

  /** Extent of the cue along the table, and its rise. */
  function Reach(env: Env, theta: real): real { env.table.cueLength * env.cos(theta) }

  function Rise(env: Env, theta: real): real { env.table.cueLength * env.sin(theta) }

  /** The butt end of the cue. */
  function Butt(env: Env, tip: Vector, m: ShotParams): Vector {
    var p := tip.Minus(Forward(env, m.phi).Times(Reach(env, m.theta)));
    Vector(p.x, p.y, p.z + Rise(env, m.theta))
  }

  // ---------------------------------------------------------------- what is in its way

  /** The determinant of `numLineSphereIntersections`: of a line with unit direction `l`, and a ball whose
      middle is `c` away from its origin. */
  function Determinant(l: Vector, c: Vector): real {
    l.Dot(c) * l.Dot(c) - c.Dot(c) + BALL_RADIUS * BALL_RADIUS
  }

  /** A root of the intersection that lies on the cue. */
  predicate OnCue(env: Env, root: real) { FGreater(env, root, 0.0) && FLess(env, root, env.table.cueLength) }

  /** The cue meets that ball; the code adds and subtracts the determinant itself, not its root. */
  predicate Meets(env: Env, l: Vector, c: Vector) {
    var (along, det) := (l.Dot(c), Determinant(l, c));
    if FLess(env, det, 0.0) then false
    else if FGreater(env, det, 0.0) then OnCue(env, along - det) || OnCue(env, along + det)
    else OnCue(env, along)
  }

  /** A ball at `p` in the way of the cue. */
  predicate BallBlocks(env: Env, tip: Vector, butt: Vector, p: Point) {
    butt.Minus(tip) != ZERO
    && Meets(env, Direction(env, butt.Minus(tip)), Vector(p.x, p.y, BALL_RADIUS).Minus(tip))
  }

  datatype Side = SouthSide | EastSide | WestSide | NorthSide

  /** In the order of the code. */
  const SIDES: seq<Side> := [SouthSide, EastSide, WestSide, NorthSide]

  /** Height of the cue where it crosses the edge, between `from` and `to` on that axis. */
  function HeightAt(tip: real, butt: real, from: real, to: real, edge: real): real
    requires from != to
  {
    tip + (edge - from) / (to - from) * (butt - tip)
  }

  /** The cue crosses an edge of the table too low for its rail. */
  predicate RailBlocks(env: Env, tip: Vector, butt: Vector, side: Side) {
    var (length, width) := (env.table.length, env.table.width);
    match side
    case SouthSide => FGreater(env, tip.y, 0.0) && FLess(env, butt.y, 0.0) && TooLow(env, tip.z, butt.z, tip.y, butt.y, 0.0)
    case EastSide => FLess(env, tip.x, width) && FGreater(env, butt.x, width) && TooLow(env, tip.z, butt.z, tip.x, butt.x, width)
    case WestSide => FGreater(env, tip.x, 0.0) && FLess(env, butt.x, 0.0) && TooLow(env, tip.z, butt.z, tip.x, butt.x, 0.0)
    case NorthSide => FLess(env, tip.y, length) && FGreater(env, butt.y, length) && TooLow(env, tip.z, butt.z, tip.y, butt.y, length)
  }

  predicate TooLow(env: Env, tip: real, butt: real, from: real, to: real, edge: real)
    requires from != to
  {
    FLessEqual(env, HeightAt(tip, butt, from, to, edge), env.table.railHeight)
  }

  predicate RailInTheWay(env: Env, tip: Vector, butt: Vector) { exists side :: side in SIDES && RailBlocks(env, tip, butt, side) }

  /** A ball in play, other than the cue ball, in the way of the cue. */
  predicate BallInTheWay(env: Env, balls: seq<Ball>, tip: Vector, butt: Vector) {
    exists i :: 0 <= i < |balls| && balls[i].InPlay() && balls[i].id != CUE && BallBlocks(env, tip, butt, balls[i].r)
  }

  /** A cue ball appended to the table, out of play, is in nobody's way. */
  lemma EnsuredWay(env: Env, balls: seq<Ball>, tip: Vector, butt: Vector)
    ensures BallInTheWay(env, Ensure(balls, CUE), tip, butt) <==> BallInTheWay(env, balls, tip, butt)
  {
    hide BallBlocks;
    var ensured := Ensure(balls, CUE);
    if BallInTheWay(env, balls, tip, butt) {
      var i :| 0 <= i < |balls| && balls[i].InPlay() && balls[i].id != CUE && BallBlocks(env, tip, butt, balls[i].r);
      assert ensured[i] == balls[i];
    }
  }

  /** The cue stick collides with a ball or with a rail. */
  predicate Obstructed(env: Env, balls: seq<Ball>, m: ShotParams) {
    var tip := Tip(env, Get(balls, CUE).r, m);
    var butt := Butt(env, tip, m);
    BallInTheWay(env, balls, tip, butt) || RailInTheWay(env, tip, butt)
  }

  /** The strike misses the ball although neither `a` nor `b` alone does. */
  predicate OffBall(env: Env, m: ShotParams) {
    FLess(env, Abs(m.a), BALL_RADIUS) && FLess(env, Abs(m.b), BALL_RADIUS) && FLess(env, DepthSquared(m), 0.0)
  }

  /** A fault of the parameters alone. */
  predicate OutOfRange(env: Env, m: ShotParams, f: Fault)
    requires f != CueStickCollision
  {
    match f
    case BadV => FGreater(env, m.v, MAX_VELOCITY) || FLess(env, m.v, 0.0)
    case BadPhi => FGreater(env, Abs(Radians(m.phi)), 2.0 * PI)
    case BadTheta => FGreater(env, Radians(m.theta), Radians(MAX_THETA)) || FLess(env, Radians(m.theta), 0.0)
    case BadA => OffBall(env, m) || FGreater(env, Abs(m.a), BALL_RADIUS)
    case BadB => OffBall(env, m) || FGreater(env, Abs(m.b), BALL_RADIUS)
  }

  /** Whether the test reports a fault. Off the ball the depth is not a number and no comparison with
      the position of the cue succeeds. */
  predicate Faulty(env: Env, balls: seq<Ball>, sp: ShotParams, f: Fault) {
    var m := Widened(sp);
    if f == CueStickCollision then DepthSquared(m) >= 0.0 && Obstructed(env, balls, m) else OutOfRange(env, m, f)
  }

  /** The test finds nothing wrong. */
  predicate PhysicallyPossible(env: Env, balls: seq<Ball>, sp: ShotParams) {
    forall f :: !Faulty(env, balls, sp, f)
  }

  /** The test as the simulator asks it. */
  function Allows(env: Env): (seq<Ball>, ShotParams) -> bool {
    (balls: seq<Ball>, sp: ShotParams) => PhysicallyPossible(env, balls, sp)
  }

  /** The cue has some length, so its direction exists. */
  lemma CueExtends(env: Env, tip: Vector, m: ShotParams)
    ensures Butt(env, tip, m).Minus(tip) != ZERO
  {
    hide Forward, Reach, Rise;
    ForwardNonzero(env, m.phi);
    ExtentNonzero(env, m.theta);
    var q := Forward(env, m.phi);
    var reach := Reach(env, m.theta);
    var along := Butt(env, tip, m).Minus(tip);
    assert along.x == -(q.x * reach) && along.y == -(q.y * reach) && along.z == Rise(env, m.theta);
    if reach != 0.0 {
      ProductNonzero(q.x, reach);
      ProductNonzero(q.y, reach);
    }
  }

  lemma ProductNonzero(x: real, y: real)
    requires y != 0.0
    ensures x * y == 0.0 <==> x == 0.0
  {
    if x * y == 0.0 {
      ZeroProduct(x, y);
    }
  }

  lemma ExtentNonzero(env: Env, theta: real)
    ensures Reach(env, theta) != 0.0 || Rise(env, theta) != 0.0
  {
    assert env.cos(theta) * env.cos(theta) + env.sin(theta) * env.sin(theta) == 1.0;
    ProductNonzero(env.cos(theta), env.table.cueLength);
    ProductNonzero(env.sin(theta), env.table.cueLength);
  }

  lemma ForwardNonzero(env: Env, phi: real)
    ensures (Forward(env, phi).x != 0.0 || Forward(env, phi).y != 0.0) && Forward(env, phi).z == 0.0
  {
    hide Mag;
    assert env.cos(phi) * env.cos(phi) + env.sin(phi) * env.sin(phi) == 1.0;
    var v := Vector(env.cos(phi), env.sin(phi), 0.0);
    HeadingNonzero(env, v);
    QuotientIs(0.0, Mag(env.root, v), 0.0);
  }

  // ---------------------------------------------------------------- what the test gets wrong

  /** Where the strike itself (`CueStrikeEvent`) meets the ball: the frame of the ball turned by
      `phi + 90` degrees, `a` with its sign turned. */
  function StruckAt(env: Env, r: Point, m: ShotParams): Vector {
    var turn := m.phi + 90.0;
    Vector(r.x, r.y, BALL_RADIUS).Plus(Vector(-m.a, Depth(env, m), m.b).Rotate(env.cos(turn), env.sin(turn)))
  }

  /** The test turns that frame the other way and has the tip at the mirror image; it is right exactly
      for strikes that meet the ball straight below or above its middle, seen from above. */
  lemma TipMirrored(env: Env, r: Point, m: ShotParams)
    ensures var tip, at := Tip(env, r, m), StruckAt(env, r, m);
      && tip.x - r.x == r.x - at.x && tip.y == at.y && tip.z == at.z
      && (tip == at <==> at.x == r.x)
  {
    hide Depth;
    var turn := m.phi + 90.0;
    assert env.cos(-turn) == env.cos(turn) && env.sin(-turn) == -env.sin(turn);
    Mirrored(m.a, Depth(env, m), env.cos(turn), env.sin(turn));
    var tip, at := Tip(env, r, m), StruckAt(env, r, m);
    assert tip == Vector(tip.x, tip.y, tip.z) && at == Vector(at.x, at.y, at.z);
  }

  lemma Mirrored(a: real, h: real, c: real, s: real)
    ensures a * c - h * -s == -(-a * c - h * s) && a * -s + h * c == -a * s + h * c
  {
  }

  /** Speed and angles in range. */
  predicate InRange(sp: ShotParams) {
    0.0 <= sp.v <= MAX_VELOCITY && -360.0 <= sp.phi <= 360.0 && 0.0 <= sp.theta + EPSILON_THETA <= MAX_THETA
  }

  lemma RangeIs(env: Env, balls: seq<Ball>, sp: ShotParams)
    ensures InRange(sp) ==> !Faulty(env, balls, sp, BadV) && !Faulty(env, balls, sp, BadPhi) && !Faulty(env, balls, sp, BadTheta)
    ensures env.epsilon == 0.0 && !InRange(sp) ==> Faulty(env, balls, sp, BadV) || Faulty(env, balls, sp, BadPhi) || Faulty(env, balls, sp, BadTheta)
  {
    hide Obstructed;
  }

  /** A strike that misses the ball passes the test if and only if `a` or `b` is the very radius and
      neither is more; then nothing in the way of the cue is noticed. */
  lemma MissAccepted(env: Env, balls: seq<Ball>, sp: ShotParams)
    requires env.epsilon == 0.0 && DepthSquared(Widened(sp)) < 0.0
    ensures var (a, b) := (Abs(Widened(sp).a), Abs(Widened(sp).b));
      PhysicallyPossible(env, balls, sp) <==> InRange(sp) && a <= BALL_RADIUS && b <= BALL_RADIUS && (a == BALL_RADIUS || b == BALL_RADIUS)
  {
    hide Obstructed;
    RangeIs(env, balls, sp);
    hide DepthSquared;
    var m := Widened(sp);
    assert Faulty(env, balls, sp, BadA) <==> OffBall(env, m) || Abs(m.a) > BALL_RADIUS;
    assert Faulty(env, balls, sp, BadB) <==> OffBall(env, m) || Abs(m.b) > BALL_RADIUS;
    assert !Faulty(env, balls, sp, CueStickCollision);
  }

  // ---------------------------------------------------------------- a strike straight up the table

  /** Cosine and sine of the angles such a strike turns by. */
  ghost predicate UpTable(env: Env) {
    env.cos(90.0) == 0.0 && env.sin(90.0) == 1.0 && env.cos(180.0) == -1.0 && env.sin(180.0) == 0.0
  }

  ghost predicate Upward(env: Env, m: ShotParams) { UpTable(env) && m.a == 0.0 && m.phi == 90.0 && DepthSquared(m) >= 0.0 }

  /** The cue lies in the plane through the middle of the ball. */
  lemma UpCue(env: Env, r: Point, m: ShotParams)
    requires ExactRoot(env.root) && Upward(env, m)
    ensures var tip := Tip(env, r, m); var butt := Butt(env, tip, m);
      && tip == Vector(r.x, r.y - Depth(env, m), BALL_RADIUS + m.b)
      && butt == Vector(r.x, tip.y - Reach(env, m.theta), tip.z + Rise(env, m.theta))
      && butt.Minus(tip) != ZERO
      && Direction(env, butt.Minus(tip)) == Vector(0.0, -env.cos(m.theta), env.sin(m.theta))
  {
    hide Depth, DepthSquared, Mag;
    var tip := Tip(env, r, m);
    assert env.cos(-180.0) == -1.0 && env.sin(-180.0) == -0.0;
    assert m.phi + 90.0 == 180.0;
    assert tip == Vector(r.x, r.y - Depth(env, m), BALL_RADIUS + m.b);
    MagIs(env, Vector(0.0, 1.0, 0.0), 1.0);
    assert Forward(env, 90.0) == Vector(0.0, 1.0, 0.0);
    CueExtends(env, tip, m);
    CueDirection(env, m.theta);
  }

  lemma CueDirection(env: Env, theta: real)
    requires ExactRoot(env.root)
    ensures var v := Vector(0.0, -Reach(env, theta), Rise(env, theta));
      v != ZERO && Direction(env, v) == Vector(0.0, -env.cos(theta), env.sin(theta))
  {
    hide Mag, Norm, Direction;
    var h, k := Vector(0.0, -env.cos(theta), env.sin(theta)), env.table.cueLength;
    assert env.cos(theta) * env.cos(theta) + env.sin(theta) * env.sin(theta) == 1.0;
    assert h.Dot(h) == 1.0;
    assert h.Times(k) == Vector(0.0, -Reach(env, theta), Rise(env, theta));
    SlopeDirection(env, h, k);
  }

  lemma TimesDot(h: Vector, k: real)
    ensures h.Times(k).Dot(h.Times(k)) == k * k * h.Dot(h)
  {
  }

  lemma SlopeDirection(env: Env, h: Vector, k: real)
    requires ExactRoot(env.root) && h.Dot(h) == 1.0 && k > 0.0
    ensures h.Times(k) != ZERO && Direction(env, h.Times(k)) == h
  {
    hide Mag, Vector.Dot;
    var v := h.Times(k);
    TimesDot(h, k);
    MagIs(env, v, k);
    MagZero(env.root);
    assert v != ZERO;
    QuotientIs(v.x, k, h.x);
    QuotientIs(v.y, k, h.y);
    QuotientIs(v.z, k, h.z);
    assert Direction(env, v) == Vector(h.x, h.y, h.z);
  }

  /** Such a cue crosses the south edge if any. */
  lemma UpRails(env: Env, r: Point, m: ShotParams)
    requires ExactRoot(env.root) && Upward(env, m) && env.cos(m.theta) >= 0.0
    ensures var tip := Tip(env, r, m); var butt := Butt(env, tip, m);
      !RailBlocks(env, tip, butt, EastSide) && !RailBlocks(env, tip, butt, WestSide) && !RailBlocks(env, tip, butt, NorthSide)
  {
    hide Depth, DepthSquared, Tip, Butt, Direction, Reach, Rise, TooLow;
    UpCue(env, r, m);
    ReachSign(env, m.theta);
  }

  lemma ReachSign(env: Env, theta: real)
    requires env.cos(theta) >= 0.0
    ensures Reach(env, theta) >= 0.0 && (env.cos(theta) > 0.0 ==> Reach(env, theta) > 0.0)
  {
    var reach := Product(env.table.cueLength, env.cos(theta));
  }

  /** On both legs of a right angle. */
  lemma RightAngle(c: real, s: real, h: real, b: real)
    requires c * c + s * s == 1.0
    ensures (c * h + s * b) * (c * h + s * b) <= h * h + b * b
  {
    var square := Square(s * h - c * b);
    var cross := (c * h) * (s * b);
    assert (c * h + s * b) * (c * h + s * b) == (c * c) * (h * h) + 2.0 * cross + (s * s) * (b * b);
    assert square == (s * s) * (h * h) - 2.0 * cross + (c * c) * (b * b);
    Complement(c * c, s * s, h * h);
    Complement(c * c, s * s, b * b);
  }

  lemma Shared(p: real, q: real, x: real)
    ensures p * x + q * x == (p + q) * x
  {
  }

  /** What a cue through the middle of the ball, `h` back and `b` up from it, sees of a ball `x` to the
      side and `y` up the table. */
  function Ahead(c: real, s: real, h: real, b: real, y: real): real { -c * (y + h) - s * b }

  /** The determinant for that ball. */
  function Reaches(a: real, h: real, x: real, y: real): real { a * a - (x * x + y * y) - 2.0 * h * y }

  lemma DeterminantIs(c: real, s: real, h: real, b: real, x: real, y: real)
    requires h * h + b * b == BALL_RADIUS * BALL_RADIUS
    ensures var l, v := Vector(0.0, -c, s), Vector(x, y + h, -b);
      l.Dot(v) == Ahead(c, s, h, b, y) && Determinant(l, v) == Reaches(Ahead(c, s, h, b, y), h, x, y)
  {
  }

  /** A steep cue passes over every ball up the table. */
  lemma SteepClear(env: Env, c: real, s: real, h: real, b: real, x: real, y: real)
    requires env.epsilon == 0.0 && c * c + s * s == 1.0 && h * h + b * b == BALL_RADIUS * BALL_RADIUS && c >= 0.0 && s > 0.0 && h >= 0.0
    requires c * h + s * b <= 0.0 && y >= 0.0 && x * x + y * y >= 4.0 * BALL_RADIUS * BALL_RADIUS
    ensures !Meets(env, Vector(0.0, -c, s), Vector(x, y + h, -b))
  {
    SteepReaches(c, s, h, b, x, y);
    DeterminantIs(c, s, h, b, x, y);
    hide Ahead, Reaches, Determinant, Vector.Dot;
  }

  lemma SteepReaches(c: real, s: real, h: real, b: real, x: real, y: real)
    requires c * c + s * s == 1.0 && h * h + b * b == BALL_RADIUS * BALL_RADIUS && c >= 0.0 && s > 0.0 && h >= 0.0
    requires c * h + s * b <= 0.0 && y >= 0.0 && x * x + y * y >= 4.0 * BALL_RADIUS * BALL_RADIUS
    ensures Reaches(Ahead(c, s, h, b, y), h, x, y) < 0.0
  {
    hide Ahead, Reaches;
    var e := TipShare(c, s, h, b);
    var u := SideShare(c, s, y);
    AheadIs(c, s, h, b, y);
    Above(Ahead(c, s, h, b, y), e, u, h, x, y);
  }

  lemma TipShare(c: real, s: real, h: real, b: real) returns (e: real)
    requires c * c + s * s == 1.0 && h * h + b * b == BALL_RADIUS * BALL_RADIUS && c * h + s * b <= 0.0
    ensures e == -(c * h + s * b) && 0.0 <= e && e * e <= BALL_RADIUS * BALL_RADIUS
  {
    RightAngle(c, s, h, b);
    e := -(c * h + s * b);
  }

  lemma SideShare(c: real, s: real, y: real) returns (u: real)
    requires c * c + s * s == 1.0 && c >= 0.0 && s > 0.0 && y >= 0.0
    ensures u == c * y && 0.0 <= u && (y > 0.0 ==> u * u < y * y) && (y == 0.0 ==> u == 0.0)
  {
    u := Product(c, y);
    if y > 0.0 {
      var p, q := Shortened(c, s, y);
      assert u * u == p && y * y == q;
    } else {
      assert c * 0.0 == 0.0;
    }
  }

  lemma Above(a: real, e: real, u: real, h: real, x: real, y: real)
    requires a == e - u && 0.0 <= e && e * e <= BALL_RADIUS * BALL_RADIUS && 0.0 <= u && 0.0 <= y && 0.0 <= h
    requires (y > 0.0 ==> u * u < y * y) && (y == 0.0 ==> u == 0.0) && x * x + y * y >= 4.0 * BALL_RADIUS * BALL_RADIUS
    ensures Reaches(a, h, x, y) < 0.0
  {
    hide Reaches;
    if a >= 0.0 {
      AboveNear(a, e, h, x, y);
    } else {
      AboveFar(a, u, h, x, y);
    }
  }

  lemma AheadIs(c: real, s: real, h: real, b: real, y: real)
    ensures Ahead(c, s, h, b, y) == -(c * h + s * b) - c * y
  {
  }

  lemma AboveNear(a: real, e: real, h: real, x: real, y: real)
    requires 0.0 <= a <= e && e * e <= BALL_RADIUS * BALL_RADIUS && x * x + y * y >= 4.0 * BALL_RADIUS * BALL_RADIUS && h >= 0.0 && y >= 0.0
    ensures Reaches(a, h, x, y) < 0.0
  {
    SquaresOrdered(a, e);
    var lift := Product(h, y);
  }

  lemma AboveFar(a: real, u: real, h: real, x: real, y: real)
    requires a < 0.0 && -a <= u && u * u < y * y && h >= 0.0 && y >= 0.0
    ensures Reaches(a, h, x, y) < 0.0
  {
    SquaresOrdered(-a, u);
    var side := Square(x);
    var lift := Product(h, y);
  }

  lemma Shortened(c: real, s: real, y: real) returns (p: real, q: real)
    requires c * c + s * s == 1.0 && s > 0.0 && y != 0.0
    ensures p == (c * y) * (c * y) && q == y * y && p < q
  {
    q := Square(y);
    var r := Square(s * y);
    Complement(c * c, s * s, y * y);
    p := Square(c * y);
    assert p == (c * c) * (y * y) && r == (s * s) * (y * y);
    ProductNonzero(s, y);
  }

  lemma Complement(p: real, q: real, x: real)
    requires p + q == 1.0
    ensures p * x + q * x == x
  {
    Shared(p, q, x);
  }

  lemma SquaresOrdered(a: real, b: real)
    requires 0.0 <= a <= b
    ensures a * a <= b * b
  {
    var p := Product(b - a, b + a);
  }

  /** A cue that is nearly level passes below none of the balls ahead of the cue ball. */
  lemma FlatClear(env: Env, c: real, s: real, h: real, b: real, x: real, y: real)
    requires c * c + s * s == 1.0 && h * h + b * b == BALL_RADIUS * BALL_RADIUS
    requires c >= 0.99 && s >= 0.0 && h >= 0.0 && b >= 0.0 && y >= 2.0 * BALL_RADIUS
    ensures !Meets(env, Vector(0.0, -c, s), Vector(x, y + h, -b))
  {
    DeterminantIs(c, s, h, b, x, y);
    FlatReaches(c, s, h, b, x, y);
    hide Ahead, Reaches, Determinant, Vector.Dot;
    assert BALL_RADIUS * BALL_RADIUS < BALL_RADIUS;
  }

  lemma FlatReaches(c: real, s: real, h: real, b: real, x: real, y: real)
    requires c * c + s * s == 1.0 && h * h + b * b == BALL_RADIUS * BALL_RADIUS
    requires c >= 0.99 && s >= 0.0 && h >= 0.0 && b >= 0.0 && y >= 2.0 * BALL_RADIUS
    ensures Ahead(c, s, h, b, y) <= -BALL_RADIUS && Reaches(Ahead(c, s, h, b, y), h, x, y) <= BALL_RADIUS * BALL_RADIUS
  {
    hide Ahead, Reaches;
    var k := FlatSum(c, s, h, b, y);
    AheadFlat(c, s, h, b, y, k);
    SquareTurned(k, h, b, x, y);
  }

  lemma FlatSum(c: real, s: real, h: real, b: real, y: real) returns (k: real)
    requires c * c + s * s == 1.0 && c >= 0.99 && s >= 0.0 && h >= 0.0 && b >= 0.0 && y >= 2.0 * BALL_RADIUS
    ensures k == c * (y + h) + s * b && k >= BALL_RADIUS && k * k <= (y + h) * (y + h) + b * b
  {
    var p := Product(c - 0.99, y + h);
    var q := Product(s, b);
    RightAngle(c, s, y + h, b);
    k := c * (y + h) + s * b;
    assert p == c * (y + h) - 0.99 * (y + h);
  }

  lemma AheadFlat(c: real, s: real, h: real, b: real, y: real, k: real)
    requires k == c * (y + h) + s * b
    ensures Ahead(c, s, h, b, y) == -k
  {
  }

  lemma SquareTurned(k: real, h: real, b: real, x: real, y: real)
    requires k * k <= (y + h) * (y + h) + b * b && h * h + b * b == BALL_RADIUS * BALL_RADIUS
    ensures Reaches(-k, h, x, y) <= BALL_RADIUS * BALL_RADIUS
  {
    var side := Square(x);
    assert (y + h) * (y + h) == y * y + 2.0 * h * y + h * h;
  }

  /** What the cue sees of each ball. */
  function Seen(env: Env, r: Point, m: ShotParams, p: Point): Vector { Vector(p.x - r.x, p.y - r.y + Depth(env, m), -m.b) }

  lemma BallClear(env: Env, r: Point, m: ShotParams, p: Point)
    requires ExactRoot(env.root) && Upward(env, m)
    requires !Meets(env, Vector(0.0, -env.cos(m.theta), env.sin(m.theta)), Seen(env, r, m, p))
    ensures !BallBlocks(env, Tip(env, r, m), Butt(env, Tip(env, r, m), m), p)
  {
    hide Depth, DepthSquared, Tip, Butt, Direction, Meets, Reach, Rise;
    UpCue(env, r, m);
    assert Vector(p.x, p.y, BALL_RADIUS).Minus(Tip(env, r, m)) == Seen(env, r, m, p);
  }

  /** Such a strike is possible if nothing is seen and the south rail is clear. */
  lemma UpAllowed(env: Env, balls: seq<Ball>, sp: ShotParams)
    requires ExactRoot(env.root) && Upward(env, Widened(sp)) && InRange(sp) && env.cos(Widened(sp).theta) >= 0.0
    requires var m := Widened(sp); var r := Get(balls, CUE).r;
      && Abs(m.b) <= BALL_RADIUS
      && (forall i :: 0 <= i < |balls| && balls[i].InPlay() && balls[i].id != CUE ==>
            !Meets(env, Vector(0.0, -env.cos(m.theta), env.sin(m.theta)), Seen(env, r, m, balls[i].r)))
      && !RailBlocks(env, Tip(env, r, m), Butt(env, Tip(env, r, m), m), SouthSide)
    ensures PhysicallyPossible(env, balls, sp)
  {
    hide DepthSquared, Tip, Butt, Direction, Meets, RailBlocks, BallBlocks, Get, Seen;
    var m := Widened(sp);
    var r := Get(balls, CUE).r;
    forall i | 0 <= i < |balls| && balls[i].InPlay() && balls[i].id != CUE
      ensures !BallBlocks(env, Tip(env, r, m), Butt(env, Tip(env, r, m), m), balls[i].r)
    {
      BallClear(env, r, m, balls[i].r);
    }
    UpRails(env, r, m);
    assert !Obstructed(env, balls, m) by {
      forall side | side in SIDES
        ensures !RailBlocks(env, Tip(env, r, m), Butt(env, Tip(env, r, m), m), side)
      {
        match side
        case _ =>
      }
    }
    hide Obstructed;
    RangeIs(env, balls, sp);
    forall f
      ensures !Faulty(env, balls, sp, f)
    {
      match f {
        case BadA => assert !OutOfRange(env, m, BadA);
        case BadB => assert !OutOfRange(env, m, BadB);
        case _ =>
      }
    }
  }

  /** Its butt stays over the table. */
  lemma SouthFar(env: Env, r: Point, m: ShotParams)
    requires ExactRoot(env.root) && Upward(env, m) && r.y - Depth(env, m) - Reach(env, m.theta) >= 0.0
    ensures !RailBlocks(env, Tip(env, r, m), Butt(env, Tip(env, r, m), m), SouthSide)
  {
    hide Depth, DepthSquared, Tip, Butt, Direction, Reach, Rise, TooLow;
    UpCue(env, r, m);
  }

  /** Or it crosses the edge above the rail, when it rises at least `q` for one along the table. */
  lemma SouthOver(env: Env, r: Point, m: ShotParams, q: real)
    requires ExactRoot(env.root) && Upward(env, m) && env.epsilon == 0.0 && env.cos(m.theta) > 0.0
    requires env.sin(m.theta) >= q * env.cos(m.theta) && r.y > Depth(env, m)
    requires BALL_RADIUS + m.b + q * (r.y - Depth(env, m)) > env.table.railHeight
    ensures !RailBlocks(env, Tip(env, r, m), Butt(env, Tip(env, r, m), m), SouthSide)
  {
    hide Depth, DepthSquared, Tip, Butt, Direction, Reach, Rise, HeightAt;
    UpCue(env, r, m);
    ReachSign(env, m.theta);
    var tip := Tip(env, r, m);
    RiseIs(env, m.theta, q);
    Slope(tip.z, tip.y, Reach(env, m.theta), Rise(env, m.theta), q);
  }

  lemma RiseIs(env: Env, theta: real, q: real)
    requires env.sin(theta) >= q * env.cos(theta)
    ensures Rise(env, theta) >= q * Reach(env, theta)
  {
    var p := Product(env.table.cueLength, env.sin(theta) - q * env.cos(theta));
    assert p == Rise(env, theta) - q * Reach(env, theta);
  }

  lemma Slope(z: real, y: real, reach: real, rise: real, q: real)
    requires y > 0.0 && reach > 0.0 && rise >= q * reach
    ensures HeightAt(z, z + rise, y, y - reach, 0.0) >= z + q * y
  {
    var share := (0.0 - y) / (y - reach - y);
    Ratio(0.0 - y, y - reach - y);
    Positive(y, reach);
    assert share == y / reach by {
      Ratio(y, reach);
      QuotientIs(0.0 - y, y - reach - y, y / reach);
    }
    Ratio(y, reach);
    var p := Product(share, rise - q * reach);
    assert p == share * rise - q * (share * reach);
  }
}
