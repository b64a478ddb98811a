/** Transition prediction is exact: under `updateBall`, split over any intermediate steps,
    each state of motion lasts exactly as long as `nextTransitionEvent` says. */
module TransitionTimes {
  import opened Vectors
  import opened Balls
  import opened Kinematics
  import opened ExactMotion

  /** `updateState` has nothing to change: true of every ball the simulator has touched. */
  ghost predicate Classified(env: Env, b: Ball) { UpdateState(env, b) == b }

  lemma MagZeroIff(env: Env, v: Vector)
    ensures VZero(env, Mag(env.root, v)) <==> v == ZERO || Abs(Mag(env.root, v)) < env.velocityEpsilon
    ensures env.velocityEpsilon == 0.0 ==> (VZero(env, Mag(env.root, v)) <==> v == ZERO)
  {
    MagZero(env.root);
    if v != ZERO {
      MagPositive(env.root, v);
    }
  }

  /** `updateState` with exact thresholds. */
  lemma UpdateStateExact(env: Env, b: BallData)
    requires Exact(env) && b.v.z == 0.0 && b.InPlay()
    ensures UpdateState(env, b) ==
      if b.v != ZERO then b.(state := if b.Slip() != ZERO then Sliding else Rolling)
      else if b.w.z != 0.0 then b.(state := Spinning, w := Vector(0.0, 0.0, b.w.z))
      else b.(state := Stationary, v := ZERO, w := ZERO)
    ensures Classified(env, UpdateState(env, b))
  {
    hide Mag;
    MagZeroIff(env, b.v);
    MagZeroIff(env, b.Slip());
    MagZeroIff(env, ZERO);
  }

  /** What classification with exact thresholds says of each state. */
  lemma ClassifiedExact(env: Env, b: Ball)
    requires Exact(env) && Classified(env, b)
    ensures b.state.Rolling? ==> b.Slip() == ZERO
    ensures b.state.Spinning? ==> b.v == ZERO && b.w == Vector(0.0, 0.0, b.w.z) && b.w.z != 0.0
    ensures b.state.Stationary? ==> b.v == ZERO && b.w == ZERO
  {
    if b.InPlay() {
      UpdateStateExact(env, b);
    }
  }

  lemma UpdateBallExact(env: Env, b: Ball, t0: real, t1: real)
    requires Exact(env) && b.Moving()
    ensures var (r, v, w) := Drift(env, b, t1 - t0);
      v.z == 0.0 && UpdateBall(env, b, t0, t1) == UpdateState(env, b.(r := r, v := v, w := w))
    ensures Classified(env, UpdateBall(env, b, t0, t1))
  {
    hide Mag, Slide, Roll, UpdateSpinning, UpdateState;
    DriftFlat(env, b, t1 - t0);
    var (r, v, w) := Drift(env, b, t1 - t0);
    assert Snap(env, v) == v && Snap(env, w) == w;
    UpdateStateExact(env, b.(r := r, v := v, w := w));
  }

  /** What is used up at the predicted rate is gone exactly at the predicted time. */
  lemma DelayUsesUp(env: Env, b: Ball)
    requires b.Moving()
    ensures var d := TransitionDelay(env, b);
      && (b.state.Sliding? ==> SlipRate(env) * d == Mag(env.root, b.Slip()))
      && (b.state.Rolling? ==> env.table.muRolling * G * d == Mag(env.root, b.v))
      && (b.state.Spinning? ==> SpinRate(env.table.muSpinning, false) * d == Abs(b.w.z))
  {
    hide Mag;
    var d := TransitionDelay(env, b);
    if b.state.Sliding? {
      Ratio(2.0 * Mag(env.root, b.Slip()), 7.0 * env.table.muSliding * G);
      assert SlipRate(env) * d * 2.0 == d * (7.0 * env.table.muSliding * G);
    } else if b.state.Rolling? {
      Ratio(Mag(env.root, b.v), env.table.muRolling * G);
    } else {
      var n := 5.0 * env.table.muSpinning * G;
      var q := (2.0 * BALL_RADIUS * b.w.z) / n;
      Ratio(2.0 * BALL_RADIUS * b.w.z, n);
      assert q * n == 2.0 * BALL_RADIUS * b.w.z;
      SignOfRatio(q, n, 2.0 * BALL_RADIUS * b.w.z);
      assert Abs(q) * n == 2.0 * BALL_RADIUS * Abs(b.w.z);
    }
  }

  lemma SignOfRatio(q: real, n: real, x: real)
    requires n > 0.0 && q * n == x
    ensures Abs(q) * n == Abs(x)
  {
    if q >= 0.0 {
      var _ := Product(q, n);
    } else {
      var _ := Product(-q, n);
    }
  }

  /** Using up part of an amount at a positive rate leaves what the rest of the time uses. */
  lemma RateOrder(rate: real, t: real, d: real)
    requires rate > 0.0
    ensures t <= d ==> rate * t <= rate * d
    ensures t < d ==> rate * t < rate * d
  {
    if t <= d {
      var p := Product(rate, d - t);
      assert p == rate * d - rate * t;
    }
  }

  // ---------------------------------------------------------------- the three states of motion

  /** A sliding ball up to the end of its slide. If its velocity passes through zero just as it
      is updated, `updateState` takes it for a ball at rest. */
  lemma SlidingUntil(env: Env, b: Ball, t0: real, t1: real)
    requires Exact(env) && b.state.Sliding? && t0 <= t1 <= t0 + TransitionDelay(env, b)
    ensures var (r, v, w) := SlideForm(env, b, t1 - t0); var c := UpdateBall(env, b, t0, t1);
      && v.z == 0.0
      && (v == ZERO ==> c.Rank() <= 1)
      && (v != ZERO && t1 == t0 + TransitionDelay(env, b) ==> c == b.(state := Rolling, r := r, v := v, w := w))
      && (v != ZERO && t1 < t0 + TransitionDelay(env, b) ==>
            && c == b.(state := Sliding, r := r, v := v, w := w)
            && Mag(env.root, c.Slip()) == Mag(env.root, b.Slip()) - SlipRate(env) * (t1 - t0)
            && Direction(env, c.Slip()) == Direction(env, b.Slip()))
  {
    hide Mag, SlideForm, Slide, Roll, UpdateSpinning, UpdateState, Direction, TransitionDelay;
    var t, d := t1 - t0, TransitionDelay(env, b);
    SlideExact(env, b, t);
    SlideSlip(env, b, t);
    UpdateBallExact(env, b, t0, t1);
    var (r, v, w) := SlideForm(env, b, t);
    UpdateStateExact(env, b.(r := r, v := v, w := w));
    DelayUsesUp(env, b);
    RateOrder(SlipRate(env), t, d);
    FrameSlip(b, 1.0, 0.0);
    DirectionUnit(env, b.Slip());
    AlongUnit(env, Direction(env, b.Slip()), Mag(env.root, b.Slip()) - SlipRate(env) * t);
    assert b.(r := r, v := v, w := w).Slip() == SlipOf(v, w);
  }

  /** Speed and direction of a truly rolling ball up to its stop. */
  lemma RollRemains(env: Env, b: Ball, t: real)
    requires Exact(env) && b.state.Rolling? && b.Slip() == ZERO && 0.0 <= t <= TransitionDelay(env, b)
    ensures var (_, v, w) := RollForm(env, b, t);
      && v.z == 0.0 && SlipOf(v, w) == ZERO
      && (t == TransitionDelay(env, b) ==> v == ZERO)
      && (t < TransitionDelay(env, b) ==>
            && v != ZERO && Direction(env, v) == Direction(env, b.v)
            && Mag(env.root, v) == Mag(env.root, b.v) - env.table.muRolling * G * t)
  {
    hide Mag, RollForm, Direction, TransitionDelay, SlipOf;
    DelayUsesUp(env, b);
    RateOrder(env.table.muRolling * G, t, TransitionDelay(env, b));
    RollScales(env, b, t);
    DirectionUnit(env, b.v);
    AlongUnit(env, Direction(env, b.v), Mag(env.root, b.v) - env.table.muRolling * G * t);
  }

  /** A truly rolling ball up to its stop. */
  lemma RollingUntil(env: Env, b: Ball, t0: real, t1: real)
    requires Exact(env) && b.state.Rolling? && b.Slip() == ZERO && t0 <= t1 <= t0 + TransitionDelay(env, b)
    ensures var (r, v, w) := RollForm(env, b, t1 - t0); var c := UpdateBall(env, b, t0, t1);
      && v.z == 0.0
      && (t1 == t0 + TransitionDelay(env, b) ==> c.Rank() <= 1)
      && (t1 < t0 + TransitionDelay(env, b) ==>
            && c == b.(state := Rolling, r := r, v := v, w := w)
            && Mag(env.root, c.v) == Mag(env.root, b.v) - env.table.muRolling * G * (t1 - t0)
            && Direction(env, c.v) == Direction(env, b.v))
  {
    hide Mag, RollForm, Slide, Roll, UpdateSpinning, UpdateState, Direction, TransitionDelay;
    var t, d := t1 - t0, TransitionDelay(env, b);
    RollExact(env, b, t);
    RollRemains(env, b, t);
    UpdateBallExact(env, b, t0, t1);
    var (r, v, w) := RollForm(env, b, t);
    UpdateStateExact(env, b.(r := r, v := v, w := w));
    assert b.(r := r, v := v, w := w).Slip() == SlipOf(v, w);
  }

  /** A ball spinning in place up to its stop. */
  lemma SpinningUntil(env: Env, b: Ball, t0: real, t1: real)
    requires Exact(env) && b.state.Spinning? && Classified(env, b) && t0 <= t1 <= t0 + TransitionDelay(env, b)
    ensures var c := UpdateBall(env, b, t0, t1);
      && (t1 == t0 + TransitionDelay(env, b) ==> c.Rank() == 0)
      && (t1 < t0 + TransitionDelay(env, b) ==>
            && c == b.(w := Vector(0.0, 0.0, UpdateSpinning(env, b.w.z, t1 - t0, env.table.muSpinning, false)))
            && Abs(c.w.z) == Abs(b.w.z) - SpinRate(env.table.muSpinning, false) * (t1 - t0))
  {
    hide Mag, UpdateSpinning, UpdateState, TransitionDelay;
    var t, d := t1 - t0, TransitionDelay(env, b);
    ClassifiedExact(env, b);
    DelayUsesUp(env, b);
    RateOrder(SpinRate(env.table.muSpinning, false), t, d);
    UpdateBallExact(env, b, t0, t1);
    SpinningForm(env, b.w.z, t, env.table.muSpinning, false);
    var w := Vector(0.0, 0.0, UpdateSpinning(env, b.w.z, t, env.table.muSpinning, false));
    UpdateStateExact(env, b.(w := w));
    assert b.(w := w).(state := Spinning) == b.(w := w);
  }

  /** A smaller amount at the same rate takes that much less time. */
  lemma DelayShortens(rate: real, before: real, after: real, d: real, e: real, t: real)
    requires rate > 0.0 && rate * d == before && rate * e == after && after == before - rate * t
    ensures e == d - t
  {
    assert rate * (e - (d - t)) == 0.0;
    ZeroProduct(rate, e - (d - t));
  }

  // ---------------------------------------------------------------- the predictions

  /** A ball at an intermediate update is in a lower state, or in the same state with the very
      same transition ahead of it; when that transition fires, its state is already lower. */
  lemma TransitionStable(env: Env, b: Ball, t0: real, t1: real)
    requires Exact(env) && Classified(env, b) && b.Moving() && t0 <= t1 <= t0 + TransitionDelay(env, b)
    ensures var c := UpdateBall(env, b, t0, t1);
      && Classified(env, c)
      && c.Rank() <= b.Rank()
      && (t1 == t0 + TransitionDelay(env, b) ==> c.Rank() < b.Rank())
      && (c.Rank() < b.Rank() ==> c.Rank() <= 1 || t1 == t0 + TransitionDelay(env, b))
      && (c.Rank() == b.Rank() ==> c.state == b.state && NextTransitionEvent(env, c, t1) == NextTransitionEvent(env, b, t0))
  {
    hide Mag, SlideForm, RollForm, Slide, Roll, UpdateSpinning, UpdateState, Direction, TransitionDelay, UpdateBall;
    var c := UpdateBall(env, b, t0, t1);
    UpdateBallExact(env, b, t0, t1);
    ClassifiedExact(env, b);
    if b.state.Sliding? {
      SlidingUntil(env, b, t0, t1);
    } else if b.state.Rolling? {
      RollingUntil(env, b, t0, t1);
    } else {
      SpinningUntil(env, b, t0, t1);
    }
    if c.Rank() == b.Rank() {
      DelayUsesUp(env, b);
      DelayUsesUp(env, c);
      var rate := if b.state.Sliding? then SlipRate(env) else if b.state.Rolling? then env.table.muRolling * G
                  else SpinRate(env.table.muSpinning, false);
      var d, e := TransitionDelay(env, b), TransitionDelay(env, c);
      DelayShortens(rate, rate * d, rate * e, d, e, t1 - t0);
    }
  }

  // ---------------------------------------------------------------- motion is a flow

  lemma StepsAdd(a: Vector, h: Vector, j: real, k: real)
    ensures a.Plus(h.Times(j)).Plus(h.Times(k)) == a.Plus(h.Times(j + k))
  {
    TimesSum(h, j, k);
  }

  lemma TurnsAdd(a: Vector, h: Vector, j: real, k: real, y: real, z: real)
    ensures a.Plus(h.Times(j)).(z := y).Plus(h.Times(k)).(z := z) == a.Plus(h.Times(j + k)).(z := z)
  {
    TimesSum(h, j, k);
  }

  lemma FrictionAdds(mu: real, t: real, u: real)
    ensures Drag(mu, t) + Drag(mu, u) == Drag(mu, t + u)
    ensures Twist(mu, t) + Twist(mu, u) == Twist(mu, t + u)
    ensures Lag(mu, t) + Drag(mu, t) * u + Lag(mu, u) == Lag(mu, t + u)
  {
    RateAdds(-mu * G, t, u);
    RateAdds(-(5.0 * mu * G) / (2.0 * BALL_RADIUS), t, u);
    LagAdds(mu, t, u);
  }

  lemma RateAdds(a: real, t: real, u: real)
    ensures a * t + a * u == a * (t + u)
  {
  }

  lemma LagAdds(mu: real, t: real, u: real)
    ensures Lag(mu, t) + Drag(mu, t) * u + Lag(mu, u) == Lag(mu, t + u)
  {
    var a := mu * G;
    assert Lag(mu, t) == -(0.5 * (a * (t * t))) && Lag(mu, u) == -(0.5 * (a * (u * u)));
    assert Drag(mu, t) * u == -(a * (t * u));
    assert (t + u) * (t + u) == t * t + 2.0 * (t * u) + u * u;
    assert Lag(mu, t + u) == -(0.5 * (a * ((t + u) * (t + u))));
  }

  /** Distance covered in `t` from velocity `v`, losing `lag` along `h`. */
  function Leg(v: Vector, t: real, h: Vector, lag: real): Point { v.Times(t).Plus(h.Times(lag)).ToPoint() }

  lemma LegsAdd(v: Vector, h: Vector, t: real, u: real, lagT: real, dragT: real, lagU: real)
    ensures Leg(v, t, h, lagT).Plus(Leg(v.Plus(h.Times(dragT)), u, h, lagU)) == Leg(v, t + u, h, lagT + dragT * u + lagU)
  {
    CoordinatesAdd(v.x, h.x, t, u, lagT, dragT, lagU);
    CoordinatesAdd(v.y, h.y, t, u, lagT, dragT, lagU);
  }

  lemma CoordinatesAdd(v: real, h: real, t: real, u: real, lagT: real, dragT: real, lagU: real)
    ensures (v * t + h * lagT) + ((v + h * dragT) * u + h * lagU) == v * (t + u) + h * (lagT + dragT * u + lagU)
  {
    assert (v + h * dragT) * u == v * u + h * (dragT * u);
  }

  lemma PointsAssociate(p: Point, q: Point, r: Point)
    ensures p.Plus(q).Plus(r) == p.Plus(q.Plus(r))
  {
  }

  /** Uniformly decelerated motion along a fixed direction, in two legs or in one. */
  lemma PathSplits(r: Point, v: Vector, h: Vector, mu: real, t: real, u: real)
    ensures var w := v.Plus(h.Times(Drag(mu, t)));
      && w.Plus(h.Times(Drag(mu, u))) == v.Plus(h.Times(Drag(mu, t + u)))
      && r.Plus(Leg(v, t, h, Lag(mu, t))).Plus(Leg(w, u, h, Lag(mu, u))) == r.Plus(Leg(v, t + u, h, Lag(mu, t + u)))
  {
    hide Drag, Lag, Leg;
    FrictionAdds(mu, t, u);
    StepsAdd(v, h, Drag(mu, t), Drag(mu, u));
    LegsAdd(v, h, t, u, Lag(mu, t), Drag(mu, t), Lag(mu, u));
    PointsAssociate(r, Leg(v, t, h, Lag(mu, t)), Leg(v.Plus(h.Times(Drag(mu, t))), u, h, Lag(mu, u)));
  }

  /** Two legs of a slide are one slide. */
  lemma SlideSplits(env: Env, b: Ball, c: Ball, t: real, u: real)
    requires Exact(env) && b.state.Sliding? && c.state.Sliding? && 0.0 <= t && 0.0 <= u
    requires SlideForm(env, b, t) == (c.r, c.v, c.w) && Direction(env, c.Slip()) == Direction(env, b.Slip())
    ensures SlideForm(env, c, u) == SlideForm(env, b, t + u)
  {
    hide Mag, Direction, UpdateSpinning, SpinRate, Drag, Lag, Twist;
    var h := Direction(env, b.Slip());
    var mu := env.table.muSliding;
    var y := UpdateSpinning(env, b.w.z, t, env.table.muSpinning, true);
    var z := UpdateSpinning(env, b.w.z, t + u, env.table.muSpinning, true);
    SpinningSplits(env, b.w.z, t, u, env.table.muSpinning, true);
    FrictionAdds(mu, t, u);
    PathSplits(b.r, b.v, h, mu, t, u);
    TurnsAdd(b.w, h.Cross(UP), Twist(mu, t), Twist(mu, u), y, z);
    assert c.w.z == y;
  }

  /** Two legs of a roll are one roll. */
  lemma RollSplits(env: Env, b: Ball, c: Ball, t: real, u: real)
    requires Exact(env) && b.state.Rolling? && c.state.Rolling? && 0.0 <= t && 0.0 <= u
    requires RollForm(env, b, t) == (c.r, c.v, c.w) && Direction(env, c.v) == Direction(env, b.v)
    ensures RollForm(env, c, u) == RollForm(env, b, t + u)
  {
    hide Mag, Direction, UpdateSpinning, SpinRate, Drag, Lag;
    var h := Direction(env, b.v);
    var mu := env.table.muRolling;
    SpinningSplits(env, b.w.z, t, u, env.table.muSpinning, false);
    FrictionAdds(mu, t, u);
    PathSplits(b.r, b.v, h, mu, t, u);
    MagPositive(env.root, b.v);
    MagPositive(env.root, c.v);
    var z := UpdateSpinning(env, b.w.z, t + u, env.table.muSpinning, false);
    RatiosMultiply(b.w, Mag(env.root, b.v), Mag(env.root, c.v), Mag(env.root, b.v.Plus(h.Times(Drag(mu, t + u)))), c.w.z, z);
    assert c.w.z == UpdateSpinning(env, b.w.z, t, env.table.muSpinning, false);
  }

  lemma RatiosMultiply(w: Vector, m: real, n: real, k: real, y: real, z: real)
    requires m > 0.0 && n > 0.0
    ensures w.Times(Share(n, m)).(z := y).Times(Share(k, n)).(z := z) == w.Times(Share(k, m)).(z := z)
  {
    var p, q := n / m, k / n;
    Ratio(n, m);
    Ratio(k, n);
    assert (p * q) * m == (p * m) * q;
    QuotientIs(k, m, p * q);
    assert (w.x * p) * q == w.x * (p * q) && (w.y * p) * q == w.y * (p * q);
  }

  lemma SlideFlows(env: Env, b: Ball, t0: real, t1: real, t2: real)
    requires Exact(env) && b.state.Sliding? && t0 <= t1 < t2 <= t0 + TransitionDelay(env, b)
    requires UpdateBall(env, b, t0, t1).state == b.state
    ensures UpdateBall(env, UpdateBall(env, b, t0, t1), t1, t2) == UpdateBall(env, b, t0, t2)
  {
    hide Mag, SlideForm, Slide, Roll, UpdateSpinning, UpdateState, Direction, TransitionDelay, UpdateBall;
    var c := UpdateBall(env, b, t0, t1);
    SlidingUntil(env, b, t0, t1);
    SlideExact(env, b, t2 - t0);
    SlideExact(env, c, t2 - t1);
    SlideSplits(env, b, c, t1 - t0, t2 - t1);
    UpdateBallExact(env, b, t0, t2);
    UpdateBallExact(env, c, t1, t2);
    assert (t1 - t0) + (t2 - t1) == t2 - t0;
  }

  lemma RollFlows(env: Env, b: Ball, t0: real, t1: real, t2: real)
    requires Exact(env) && b.state.Rolling? && b.Slip() == ZERO && t0 <= t1 < t2 <= t0 + TransitionDelay(env, b)
    ensures UpdateBall(env, UpdateBall(env, b, t0, t1), t1, t2) == UpdateBall(env, b, t0, t2)
    ensures UpdateBall(env, b, t0, t1).state == b.state
  {
    hide Mag, RollForm, Slide, Roll, UpdateSpinning, UpdateState, Direction, TransitionDelay, UpdateBall;
    var c := UpdateBall(env, b, t0, t1);
    RollingUntil(env, b, t0, t1);
    RollExact(env, b, t2 - t0);
    RollExact(env, c, t2 - t1);
    RollSplits(env, b, c, t1 - t0, t2 - t1);
    UpdateBallExact(env, b, t0, t2);
    UpdateBallExact(env, c, t1, t2);
    assert (t1 - t0) + (t2 - t1) == t2 - t0;
  }

  lemma SpinFlows(env: Env, b: Ball, t0: real, t1: real, t2: real)
    requires Exact(env) && b.state.Spinning? && Classified(env, b) && t0 <= t1 < t2 <= t0 + TransitionDelay(env, b)
    ensures UpdateBall(env, UpdateBall(env, b, t0, t1), t1, t2) == UpdateBall(env, b, t0, t2)
    ensures UpdateBall(env, b, t0, t1).state == b.state
  {
    hide Mag, Slide, Roll, UpdateSpinning, UpdateState, TransitionDelay, UpdateBall;
    var c := UpdateBall(env, b, t0, t1);
    SpinningUntil(env, b, t0, t1);
    SpinningSplits(env, b.w.z, t1 - t0, t2 - t1, env.table.muSpinning, false);
    UpdateBallExact(env, b, t0, t2);
    UpdateBallExact(env, c, t1, t2);
    assert (t1 - t0) + (t2 - t1) == t2 - t0;
  }

  /** A ball not travelling never travels again on its own. */
  lemma RestStays(env: Env, b: Ball, t0: real, t1: real)
    requires Exact(env) && Classified(env, b) && b.Rank() <= 1
    ensures UpdateBall(env, b, t0, t1).Rank() <= 1 && Classified(env, UpdateBall(env, b, t0, t1))
  {
    hide Mag, UpdateSpinning, Slide, Roll, UpdateState;
    if b.Moving() {
      ClassifiedExact(env, b);
      UpdateBallExact(env, b, t0, t1);
      var (r, v, w) := Drift(env, b, t1 - t0);
      UpdateStateExact(env, b.(r := r, v := v, w := w));
    }
  }

  /** A slide passes through zero velocity at most once. */
  lemma ZeroOnce(env: Env, b: Ball, t: real, u: real)
    requires Exact(env) && b.state.Sliding? && t < u && SlideForm(env, b, t).1 == ZERO
    ensures SlideForm(env, b, u).1 != ZERO
  {
    hide Mag, Direction, UpdateSpinning;
    var h := Direction(env, b.Slip());
    FrameSlip(b, 1.0, 0.0);
    DirectionUnit(env, b.Slip());
    UnitNonzero(h);
    var mu := env.table.muSliding;
    var k := Drag(mu, u) - Drag(mu, t);
    var d := Product(mu * G, u - t);
    assert k == -d;
    StepsAdd(b.v, h, Drag(mu, t), k);
    ScaledNonzero(h, k);
    assert ZERO.Plus(h.Times(k)) == h.Times(k);
  }

  /** A slide stopped in passing: the update finds velocity zero and keeps it there, while the
      uninterrupted slide goes on. */
  lemma StoppedInPassing(env: Env, b: Ball, t0: real, t1: real, t2: real)
    requires Exact(env) && Classified(env, b) && b.state.Sliding? && t0 <= t1 < t2 <= t0 + TransitionDelay(env, b)
    requires SlideForm(env, b, t1 - t0).1 == ZERO
    ensures UpdateBall(env, b, t0, t1).Rank() <= 1
    ensures UpdateBall(env, UpdateBall(env, b, t0, t1), t1, t2).Rank() <= 1 < UpdateBall(env, b, t0, t2).Rank()
  {
    hide Mag, SlideForm, Slide, Roll, UpdateSpinning, UpdateState, Direction, TransitionDelay, UpdateBall;
    SlidingUntil(env, b, t0, t1);
    SlidingUntil(env, b, t0, t2);
    ZeroOnce(env, b, t1 - t0, t2 - t0);
    UpdateBallExact(env, b, t0, t1);
    RestStays(env, UpdateBall(env, b, t0, t1), t1, t2);
  }

  /** Splitting an update in two changes nothing, except for a sliding ball caught exactly as
      its velocity passes through zero. */
  lemma MotionIsFlow(env: Env, b: Ball, t0: real, t1: real, t2: real)
    requires Exact(env) && Classified(env, b) && b.Moving() && t0 <= t1 < t2 <= t0 + TransitionDelay(env, b)
    ensures UpdateBall(env, UpdateBall(env, b, t0, t1), t1, t2) == UpdateBall(env, b, t0, t2)
       <==> !(b.state.Sliding? && SlideForm(env, b, t1 - t0).1 == ZERO)
  {
    hide Mag, SlideForm, Slide, Roll, UpdateSpinning, UpdateState, Direction, TransitionDelay, UpdateBall;
    ClassifiedExact(env, b);
    if b.state.Sliding? {
      SlidingUntil(env, b, t0, t1);
      if SlideForm(env, b, t1 - t0).1 == ZERO {
        StoppedInPassing(env, b, t0, t1, t2);
      } else {
        SlideFlows(env, b, t0, t1, t2);
      }
    } else if b.state.Rolling? {
      RollFlows(env, b, t0, t1, t2);
    } else {
      SpinFlows(env, b, t0, t1, t2);
    }
  }

  /** A draw shot: the cue ball's velocity is zero one second into a slide of two. */
  function DrawBall(env: Env): BallData {
    var k := env.table.muSliding * G;
    BallData(CUE, Sliding, Point(0.0, 0.0), Vector(k, 0.0, 0.0), Vector(0.0, -(6.0 * k) / BALL_RADIUS, 0.0))
  }

  lemma DrawSlip(env: Env)
    ensures var b, k := DrawBall(env), env.table.muSliding * G;
      k > 0.0 && b.Slip() == Vector(7.0 * k, 0.0, 0.0) && Settled(b)
  {
    Ratio(-(6.0 * (env.table.muSliding * G)), BALL_RADIUS);
  }

  lemma DrawTimes(env: Env, b: Ball, k: real)
    requires Exact(env) && b.state.Sliding? && k == env.table.muSliding * G && k > 0.0 && b.Slip() == Vector(7.0 * k, 0.0, 0.0)
    ensures TransitionDelay(env, b) == 2.0 && Direction(env, b.Slip()) == Vector(1.0, 0.0, 0.0)
  {
    MagIs(env, b.Slip(), 7.0 * k);
    hide Mag;
    QuotientIs(2.0 * (7.0 * k), 7.0 * env.table.muSliding * G, 2.0);
    QuotientIs(7.0 * k, 7.0 * k, 1.0);
  }

  /** The exception of `MotionIsFlow` does occur: updating that ball after one second stops it,
      while updating it once after two seconds leaves it travelling. */
  lemma DrawStopped(env: Env)
    requires Exact(env)
    ensures var b := DrawBall(env);
      && Settled(b) && Classified(env, b) && TransitionDelay(env, b) == 2.0
      && UpdateBall(env, UpdateBall(env, b, 0.0, 1.0), 1.0, 2.0).Rank() <= 1 < UpdateBall(env, b, 0.0, 2.0).Rank()
  {
    hide Mag, UpdateSpinning, Slide, Roll, UpdateBall, Drift, Direction, TransitionDelay, UpdateState;
    var k := env.table.muSliding * G;
    DrawSlip(env);
    var b: Ball := DrawBall(env);
    UpdateStateExact(env, b);
    DrawTimes(env, b, k);
    assert SlideForm(env, b, 1.0).1 == ZERO;
    StoppedInPassing(env, b, 0.0, 1.0, 2.0);
  }
}
