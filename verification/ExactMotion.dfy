/** With exact thresholds and an exact square root, the closed-form motion is a flow, and
    each state of motion ends exactly when `nextTransitionEvent` says it does. */
module ExactMotion {
  import opened Vectors
  import opened Balls
  import opened Kinematics

  ghost predicate Exact(env: Env) {
    env.epsilon == 0.0 && env.velocityEpsilon == 0.0 && ExactRoot(env.root)
  }

  // ---------------------------------------------------------------- magnitudes and rotations

  lemma MagSquare(env: Env, v: Vector)
    requires ExactRoot(env.root)
    ensures Mag(env.root, v) >= 0.0 && Mag(env.root, v) * Mag(env.root, v) == v.Dot(v)
  {
    assert IsRoot(env.root);
    var a := Square(v.x);
    var b := Square(v.y);
    var c := Square(v.z);
    assert v.Dot(v) == a + b + c;
  }

  lemma SquaresDetermine(a: real, b: real)
    requires a >= 0.0 && b >= 0.0 && a * a == b * b
    ensures a == b
  {
    assert (a - b) * (a + b) == a * a - b * b;
    ZeroProduct(a - b, a + b);
  }

  lemma ZeroProduct(x: real, y: real)
    requires x * y == 0.0
    ensures x == 0.0 || y == 0.0
  {
  }

  lemma Ratio(x: real, y: real)
    requires y != 0.0
    ensures x / y * y == x
  {
  }

  lemma Positive(x: real, y: real)
    requires x > 0.0 && y > 0.0
    ensures x / y > 0.0
  {
    Ratio(x, y);
    if x / y <= 0.0 {
      var p := Product(-(x / y), y);
    }
  }

  lemma QuotientIs(x: real, m: real, q: real)
    requires m != 0.0 && q * m == x
    ensures x / m == q
  {
  }

  lemma MagIs(env: Env, v: Vector, m: real)
    requires ExactRoot(env.root) && m >= 0.0 && m * m == v.Dot(v)
    ensures Mag(env.root, v) == m
  {
    MagSquare(env, v);
    SquaresDetermine(Mag(env.root, v), m);
  }

  lemma DotRotate(v: Vector, c: real, s: real)
    requires c * c + s * s == 1.0
    ensures v.Rotate(c, s).Dot(v.Rotate(c, s)) == v.Dot(v)
  {
    var x, y := v.x, v.y;
    assert (x * c - y * s) * (x * c - y * s) + (x * s + y * c) * (x * s + y * c)
        == (x * x + y * y) * (c * c + s * s);
  }

  lemma RotateBack(v: Vector, c: real, s: real)
    requires c * c + s * s == 1.0
    ensures v.Rotate(c, -s).Rotate(c, s) == v
  {
    assert (v.x * c + v.y * s) * c - (v.y * c - v.x * s) * s == v.x * (c * c + s * s);
    assert (v.x * c + v.y * s) * s + (v.y * c - v.x * s) * c == v.y * (c * c + s * s);
  }

  lemma RotatePlus(a: Vector, b: Vector, k: real, c: real, s: real)
    ensures a.Plus(b.Times(k)).Rotate(c, s) == a.Rotate(c, s).Plus(b.Rotate(c, s).Times(k))
  {
  }

  /** A step along `b` taken in the rotated frame is that step. */
  lemma FrameStep(a: Vector, b: Vector, k: real, c: real, s: real)
    requires c * c + s * s == 1.0
    ensures a.Rotate(c, -s).Plus(b.Rotate(c, -s).Times(k)).Rotate(c, s) == a.Plus(b.Times(k))
  {
    RotatePlus(a.Rotate(c, -s), b.Rotate(c, -s), k, c, s);
    RotateBack(a, c, s);
    RotateBack(b, c, s);
  }

  lemma HeadingUnit(env: Env, v: Vector)
    requires ExactRoot(env.root) && v != ZERO && v.z == 0.0
    ensures var (c, s) := Heading(env, v); var m := Mag(env.root, v);
      m > 0.0 && c * m == v.x && s * m == v.y && c * c + s * s == 1.0
  {
    MagPositive(env.root, v);
    MagSquare(env, v);
    var m := Mag(env.root, v);
    var (c, s) := Heading(env, v);
    assert c * m == v.x && s * m == v.y;
    assert (c * c + s * s) * (m * m) == v.x * v.x + v.y * v.y;
    UnitFrom(c * c + s * s, m * m);
  }

  lemma UnitFrom(a: real, b: real)
    requires a * b == b && b != 0.0
    ensures a == 1.0
  {
    ZeroProduct(a - 1.0, b);
  }

  lemma MagRotate(env: Env, v: Vector, c: real, s: real)
    requires c * c + s * s == 1.0
    ensures Mag(env.root, v.Rotate(c, s)) == Mag(env.root, v)
  {
    DotRotate(v, c, s);
  }

  lemma NormRotate(env: Env, v: Vector, c: real, s: real)
    requires v != ZERO && c * c + s * s == 1.0
    ensures Mag(env.root, v) > 0.0 && Mag(env.root, v.Rotate(c, s)) == Mag(env.root, v)
    ensures Norm(env.root, v.Rotate(c, s)) == Norm(env.root, v).Rotate(c, s)
  {
    hide Mag;
    MagPositive(env.root, v);
    MagRotate(env, v, c, s);
    NormRotateAt(v.x, v.y, c, s, Mag(env.root, v));
  }

  lemma NormRotateAt(x: real, y: real, c: real, s: real, m: real)
    requires m > 0.0
    ensures (x * c - y * s) / m == x / m * c - y / m * s
    ensures (x * s + y * c) / m == x / m * s + y / m * c
  {
    var p, q := x / m, y / m;
    assert p * m == x && q * m == y;
    assert (p * c - q * s) * m == (p * m) * c - (q * m) * s;
    assert (p * s + q * c) * m == (p * m) * s + (q * m) * c;
    QuotientIs(x * c - y * s, m, p * c - q * s);
    QuotientIs(x * s + y * c, m, p * s + q * c);
  }

  lemma FrameCombine(a: Vector, b: Vector, j: real, k: real, c: real, s: real)
    requires c * c + s * s == 1.0
    ensures a.Rotate(c, -s).Times(j).Plus(b.Rotate(c, -s).Times(k)).Rotate(c, s) == a.Times(j).Plus(b.Times(k))
  {
    assert a.Rotate(c, -s).Times(j) == a.Times(j).Rotate(c, -s);
    FrameStep(a.Times(j), b, k, c, s);
  }

  // ---------------------------------------------------------------- the motion in the table's frame

  function SlideForm(env: Env, b: Ball, t: real): (Point, Vector, Vector)
    requires b.state.Sliding?
  {
    var h := Direction(env, b.Slip());
    var mu := env.table.muSliding;
    (b.r.Plus(b.v.Times(t).Plus(h.Times(Lag(mu, t))).ToPoint()),
     b.v.Plus(h.Times(Drag(mu, t))),
     b.w.Plus(h.Cross(UP).Times(Twist(mu, t)))
        .(z := UpdateSpinning(env, b.w.z, t, env.table.muSpinning, true)))
  }

  function RollForm(env: Env, b: Ball, t: real): (Point, Vector, Vector)
    requires b.state.Rolling?
  {
    var h := Direction(env, b.v);
    MagPositive(env.root, b.v);
    var mu := env.table.muRolling;
    var slower := b.v.Plus(h.Times(Drag(mu, t)));
    (b.r.Plus(b.v.Times(t).Plus(h.Times(Lag(mu, t))).ToPoint()),
     slower,
     b.w.Times(Share(Mag(env.root, slower), Mag(env.root, b.v)))
        .(z := UpdateSpinning(env, b.w.z, t, env.table.muSpinning, false)))
  }

  /** In its own frame a ball moves along the first axis. */
  lemma FrameVelocity(env: Env, v: Vector)
    requires ExactRoot(env.root) && v != ZERO && v.z == 0.0
    ensures var (c, s) := Heading(env, v); v.Rotate(c, -s) == Vector(Mag(env.root, v), 0.0, 0.0)
  {
    hide Mag;
    HeadingUnit(env, v);
    var (c, s) := Heading(env, v);
    var m := Mag(env.root, v);
    assert v.x * c + v.y * s == m * (c * c + s * s);
    assert v.y * c - v.x * s == (m * s) * c - (m * c) * s;
  }

  lemma SpinAxis(u: Vector, c: real, s: real)
    ensures u.Rotate(c, s).Cross(UP) == u.Cross(UP).Rotate(c, s)
  {
  }

  lemma SlideExact(env: Env, b: Ball, t: real)
    requires ExactRoot(env.root) && b.state.Sliding?
    ensures Slide(env, b, t) == SlideForm(env, b, t)
  {
    hide Mag, Norm, SlideStep, SlideForm;
    FrameNonzero(env, b);
    HeadingUnit(env, b.v);
    FrameVelocity(env, b.v);
    var (c, s) := Heading(env, b.v);
    NormRotate(env, b.Slip(), c, -s);
    MagRotate(env, b.v, c, -s);
    SlideStepExact(env, b, t, c, s);
  }

  /** A displacement taken in the frame, as a point and as a vector. */
  lemma FrameLeg(env: Env, v: Vector, h: Vector, t: real, lag: real, c: real, s: real)
    requires c * c + s * s == 1.0 && v.Rotate(c, -s) == Vector(Mag(env.root, v), 0.0, 0.0)
    ensures var u := h.Rotate(c, -s);
      FrameLegOf(Mag(env.root, v), t, lag, u).Rotate(c, s) == v.Times(t).Plus(h.Times(lag)).ToPoint()
  {
    hide Mag;
    FrameCombine(v, h, t, lag, c, s);
  }

  lemma SlideStepExact(env: Env, b: Ball, t: real, c: real, s: real)
    requires b.state.Sliding? && c * c + s * s == 1.0
    requires b.v.Rotate(c, -s) == Vector(Mag(env.root, b.v), 0.0, 0.0)
    requires Mag(env.root, b.v.Rotate(c, -s)) == Mag(env.root, b.v)
    ensures SlideStep(env, b, t, c, s, Direction(env, b.Slip()).Rotate(c, -s)) == SlideForm(env, b, t)
  {
    var z := b.w.Rotate(c, -s).z;
    assert z == b.w.z;
    hide Mag, Norm, Direction, UpdateSpinning, Drag, Lag, Twist, Vector.Times, Vector.Plus, Vector.Rotate, Vector.Cross, Point.Rotate, FrameLegOf;
    var h := Direction(env, b.Slip());
    var mu := env.table.muSliding;
    FrameLeg(env, b.v, h, t, Lag(mu, t), c, s);
    FrameStep(b.v, h, Drag(mu, t), c, s);
    SpinAxis(h, c, -s);
    FrameStep(b.w, h.Cross(UP), Twist(mu, t), c, s);
    var turned := b.w.Rotate(c, -s).Plus(h.Rotate(c, -s).Cross(UP).Times(Twist(mu, t)));
    RotateAxis(turned, UpdateSpinning(env, b.w.z, t, env.table.muSpinning, true), c, s);
    var step, form := SlideStep(env, b, t, c, s, h.Rotate(c, -s)), SlideForm(env, b, t);
    assert step.1 == form.1;
    assert step.2 == form.2;
    assert step.0 == form.0;
  }

  lemma RotateAxis(v: Vector, q: real, c: real, s: real)
    ensures v.(z := q).Rotate(c, s) == v.Rotate(c, s).(z := q)
  {
  }

  lemma RollExact(env: Env, b: Ball, t: real)
    requires ExactRoot(env.root) && b.state.Rolling?
    ensures Roll(env, b, t) == RollForm(env, b, t)
  {
    hide Mag, Norm, RollStep, RollForm;
    FrameNonzero(env, b);
    HeadingUnit(env, b.v);
    FrameVelocity(env, b.v);
    var (c, s) := Heading(env, b.v);
    NormRotate(env, b.v, c, -s);
    RollStepExact(env, b, t, c, s);
  }

  lemma RollStepExact(env: Env, b: Ball, t: real, c: real, s: real)
    requires b.state.Rolling? && c * c + s * s == 1.0
    requires Mag(env.root, b.v.Rotate(c, -s)) == Mag(env.root, b.v) != 0.0
    ensures RollStep(env, b, t, c, s, Direction(env, b.v).Rotate(c, -s)) == RollForm(env, b, t)
  {
    var z := b.w.Rotate(c, -s).z;
    assert z == b.w.z;
    hide Mag, Norm, Direction, UpdateSpinning, Drag, Lag, Share, Vector.Times, Vector.Plus, Vector.Rotate, Point.Rotate;
    var h := Direction(env, b.v);
    var mu := env.table.muRolling;
    var k := Drag(mu, t);
    FrameCombine(b.v, h, t, Lag(mu, t), c, s);
    FrameStep(b.v, h, k, c, s);
    var slower := b.v.Rotate(c, -s).Plus(h.Rotate(c, -s).Times(k));
    MagRotate(env, slower, c, s);
    var ratio := Share(Mag(env.root, slower), Mag(env.root, b.v));
    var turned := b.w.Rotate(c, -s).Times(ratio);
    TimesBack(b.w, ratio, c, s);
    RotateAxis(turned, UpdateSpinning(env, b.w.z, t, env.table.muSpinning, false), c, s);
    PointOfRotate(b.v.Rotate(c, -s).Times(t).Plus(h.Rotate(c, -s).Times(Lag(mu, t))), c, s);
    var step, form := RollStep(env, b, t, c, s, h.Rotate(c, -s)), RollForm(env, b, t);
    assert step.1 == form.1;
    assert step.2 == form.2;
    assert step.0 == form.0;
  }

  lemma PointOfRotate(v: Vector, c: real, s: real)
    ensures v.ToPoint().Rotate(c, s) == v.Rotate(c, s).ToPoint()
  {
  }

  lemma TimesBack(v: Vector, k: real, c: real, s: real)
    requires c * c + s * s == 1.0
    ensures v.Rotate(c, -s).Times(k).Rotate(c, s) == v.Times(k)
  {
    RotateBack(v.Times(k), c, s);
    assert v.Times(k).Rotate(c, -s) == v.Rotate(c, -s).Times(k);
  }

  // ---------------------------------------------------------------- slip, speed and spin run out on time

  /** What remains of an amount used up at a constant rate. */
  function Left(amount: real, used: real): real { if amount > used then amount - used else 0.0 }

  function SpinRate(muSp: real, sliding: bool): real {
    5.0 * muSp * G / (2.0 * BALL_RADIUS) * (if sliding then 0.25 else 1.0)
  }

  /** `updateSpinning` wears the spin down at a constant rate and stops at zero. */
  lemma SpinningForm(env: Env, wz: real, t: real, muSp: real, sliding: bool)
    requires Exact(env) && 0.0 <= t && 0.0 < muSp
    ensures var used := SpinRate(muSp, sliding) * t; var left := UpdateSpinning(env, wz, t, muSp, sliding);
      0.0 <= used && left == if wz > 0.0 then Left(wz, used) else -Left(-wz, used)
  {
    var used := Product(SpinRate(muSp, sliding), t);
    if wz > 0.0 {
      SameSign(wz - used, wz);
    } else if wz < 0.0 {
      SameSign(-wz - used, -wz);
      assert (wz + used) * wz == (-wz - used) * -wz;
    }
  }

  lemma SameSign(x: real, w: real)
    requires w > 0.0
    ensures x * w <= 0.0 <==> x <= 0.0
  {
    if x > 0.0 {
      var _ := Product(x, w);
    } else {
      var p := Product(-x, w);
    }
  }

  lemma SpinningSplits(env: Env, wz: real, t: real, u: real, muSp: real, sliding: bool)
    requires Exact(env) && 0.0 <= t && 0.0 <= u && 0.0 < muSp
    ensures UpdateSpinning(env, UpdateSpinning(env, wz, t, muSp, sliding), u, muSp, sliding)
         == UpdateSpinning(env, wz, t + u, muSp, sliding)
  {
    hide UpdateSpinning, SpinRate;
    var k := SpinRate(muSp, sliding);
    SpinningForm(env, wz, t, muSp, sliding);
    SpinningForm(env, UpdateSpinning(env, wz, t, muSp, sliding), u, muSp, sliding);
    SpinningForm(env, wz, t + u, muSp, sliding);
    assert k * (t + u) == k * t + k * u;
  }

  lemma DirectionUnit(env: Env, v: Vector)
    requires ExactRoot(env.root) && v != ZERO && v.z == 0.0
    ensures var h, m := Direction(env, v), Mag(env.root, v);
      m > 0.0 && v == h.Times(m) && h.z == 0.0 && h.Dot(h) == 1.0
  {
    HeadingUnit(env, v);
    var h, m := Direction(env, v), Mag(env.root, v);
    assert h.z * m == 0.0;
  }

  /** A vector along a unit direction, and its own direction. */
  lemma AlongUnit(env: Env, h: Vector, k: real)
    requires ExactRoot(env.root) && h.Dot(h) == 1.0 && h.z == 0.0
    ensures k >= 0.0 ==> Mag(env.root, h.Times(k)) == k
    ensures k > 0.0 ==> h.Times(k) != ZERO && Direction(env, h.Times(k)) == h
    ensures h.Times(k) == ZERO <==> k == 0.0
  {
    var v := h.Times(k);
    assert v.Dot(v) == k * k * h.Dot(h);
    if k >= 0.0 {
      MagIs(env, v, k);
    }
    UnitNonzero(h);
    if k > 0.0 {
      ScaledNonzero(h, k);
      QuotientIs(v.x, k, h.x);
      QuotientIs(v.y, k, h.y);
      QuotientIs(v.z, k, h.z);
    } else if k < 0.0 {
      ScaledNonzero(h, k);
    }
  }

  lemma UnitNonzero(h: Vector)
    requires h.Dot(h) == 1.0 && h.z == 0.0
    ensures h.x != 0.0 || h.y != 0.0
  {
  }

  lemma ScaledNonzero(h: Vector, k: real)
    requires (h.x != 0.0 || h.y != 0.0) && k != 0.0
    ensures h.Times(k) != ZERO
  {
    if h.x * k == 0.0 { ZeroProduct(h.x, k); }
    if h.y * k == 0.0 { ZeroProduct(h.y, k); }
  }

  /** Slip of a ball with the given velocity and spin. */
  function SlipOf(v: Vector, w: Vector): Vector { v.Plus(UP.Cross(w).Times(BALL_RADIUS)) }

  /** Rate at which sliding friction uses up slip. */
  function SlipRate(env: Env): real { 3.5 * env.table.muSliding * G }

  /** Friction turns slip down at a constant rate along its own direction. */
  lemma SlideSlip(env: Env, b: Ball, t: real)
    requires ExactRoot(env.root) && b.state.Sliding?
    ensures var (_, v, w) := SlideForm(env, b, t); var h := Direction(env, b.Slip());
      SlipOf(v, w) == h.Times(Mag(env.root, b.Slip()) - SlipRate(env) * t)
  {
    hide Mag, Norm, Direction, UpdateSpinning;
    FrameSlip(b, 1.0, 0.0);
    DirectionUnit(env, b.Slip());
    var h, m := Direction(env, b.Slip()), Mag(env.root, b.Slip());
    var mu := env.table.muSliding;
    SlideSlipAt(b, h, m, mu, t);
  }

  lemma SlideSlipAt(b: Ball, h: Vector, m: real, mu: real, t: real)
    requires b.Slip() == h.Times(m) && h.z == 0.0
    ensures SlipOf(b.v.Plus(h.Times(Drag(mu, t))), b.w.Plus(h.Cross(UP).Times(Twist(mu, t)))) == h.Times(m - 3.5 * mu * G * t)
  {
    var d := mu * G * t;
    assert Drag(mu, t) == -d && Twist(mu, t) * BALL_RADIUS == -(2.5 * d) && 3.5 * mu * G * t == 3.5 * d;
    SlipAfter(b.v, b.w, h, m, -d, Twist(mu, t), d);
  }

  lemma SlipAfter(v: Vector, w: Vector, h: Vector, m: real, drag: real, twist: real, d: real)
    requires SlipOf(v, w) == h.Times(m) && h.z == 0.0
    requires drag == -d && twist * BALL_RADIUS == -(2.5 * d)
    ensures SlipOf(v.Plus(h.Times(drag)), w.Plus(h.Cross(UP).Times(twist))) == h.Times(m - 3.5 * d)
  {
    SlipParts(v, w);
    SlipParts(v.Plus(h.Times(drag)), w.Plus(h.Cross(UP).Times(twist)));
    SlipPart(v.x, -w.y, h.x, m, drag, twist, d);
    SlipPart(v.y, w.x, h.y, m, drag, twist, d);
  }

  lemma SlipParts(v: Vector, w: Vector)
    ensures SlipOf(v, w) == Vector(v.x + -w.y * BALL_RADIUS, v.y + w.x * BALL_RADIUS, v.z)
  {
  }

  lemma SlipPart(v: real, w: real, h: real, m: real, drag: real, twist: real, d: real)
    requires v + w * BALL_RADIUS == h * m && drag == -d && twist * BALL_RADIUS == -(2.5 * d)
    ensures (v + h * drag) + (w + h * twist) * BALL_RADIUS == h * (m - 3.5 * d)
  {
    assert (w + h * twist) * BALL_RADIUS == w * BALL_RADIUS + h * (twist * BALL_RADIUS);
    assert h * (m - 3.5 * d) == h * m - 3.5 * (h * d);
  }

  lemma TimesSum(h: Vector, a: real, b: real)
    ensures h.Times(a).Plus(h.Times(b)) == h.Times(a + b)
  {
  }

  /** Rolling friction scales velocity and horizontal spin alike, so a true roll stays true. */
  lemma RollScales(env: Env, b: Ball, t: real)
    requires ExactRoot(env.root) && b.state.Rolling? && b.Slip() == ZERO
    requires 0.0 <= t && env.table.muRolling * G * t <= Mag(env.root, b.v)
    ensures var (_, v, w) := RollForm(env, b, t); var h := Direction(env, b.v);
      && v == h.Times(Mag(env.root, b.v) - env.table.muRolling * G * t)
      && SlipOf(v, w) == ZERO
  {
    hide Mag, Norm, Direction, UpdateSpinning;
    DirectionUnit(env, b.v);
    var h, m := Direction(env, b.v), Mag(env.root, b.v);
    var d := env.table.muRolling * G * t;
    TimesSum(h, m, -d);
    assert Drag(env.table.muRolling, t) == -d;
    AlongUnit(env, h, m - d);
    var ratio := (m - d) / m;
    Ratio(m - d, m);
    ScaledRoll(b, h, m, ratio, m - d);
  }

  lemma ScaledRoll(b: Ball, h: Vector, m: real, ratio: real, k: real)
    requires b.v == h.Times(m) && b.Slip() == ZERO && ratio * m == k
    ensures forall z: real :: SlipOf(h.Times(k), b.w.Times(ratio).(z := z)) == ZERO
  {
    assert b.Slip() == Vector(b.v.x - b.w.y * BALL_RADIUS, b.v.y + b.w.x * BALL_RADIUS, b.v.z);
    assert h.x * k == (h.x * m) * ratio && h.y * k == (h.y * m) * ratio && h.z * k == (h.z * m) * ratio;
    assert b.w.y * ratio * BALL_RADIUS == (b.w.y * BALL_RADIUS) * ratio;
    assert b.w.x * ratio * BALL_RADIUS == (b.w.x * BALL_RADIUS) * ratio;
  }
}
