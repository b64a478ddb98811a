/** Which predictions survive `updateTime`. With exact thresholds and solvers that are right, what
    was predicted for balls left alone is predicted again at any later update, as long as no
    predicted crossing or contact has been passed; with that the incremental queue of FastFiz is
    the recomputed one. */
module StablePredictions {
  import opened Vectors
  import opened Balls
  import opened Events
  import opened Kinematics
  import opened ExactMotion
  import opened TransitionTimes
  import opened Scheduling
  import opened SchedulerLaws
  import opened SchedulerInvariants
  import opened QueueHistory
  import opened Prediction
  import opened ContactTimes
  import opened Physics
  import opened StateChanges

  // ---------------------------------------------------------------- one ball going on

  /** Ball `c` at time `t1` is ball `b` of time `t0` moved on in its state of motion. */
  ghost predicate Onward(env: Env, b: Ball, t0: real, c: Ball, t1: real) {
    && Classified(env, b) && t0 <= t1 && (b.Moving() ==> t1 <= t0 + TransitionDelay(env, b))
    && c == UpdateBall(env, b, t0, t1) && c.state == b.state
  }

  /** Its path is the rest of the same path. */
  lemma PathGoesOn(env: Env, b: Ball, t0: real, c: Ball, t1: real, u: real)
    requires Exact(env) && Onward(env, b, t0, c, t1) && 0.0 <= u
    ensures Where(env, c, u) == Where(env, b, (t1 - t0) + u)
  {
    hide Mag, SlideForm, RollForm, Slide, Roll, UpdateSpinning, UpdateState, Direction, TransitionDelay, UpdateBall;
    ClassifiedExact(env, b);
    if b.state.Sliding? {
      SlidingUntil(env, b, t0, t1);
      SlideExact(env, c, u);
      SlideExact(env, b, (t1 - t0) + u);
      SlideSplits(env, b, c, t1 - t0, u);
    } else if b.state.Rolling? {
      RollingUntil(env, b, t0, t1);
      RollExact(env, c, u);
      RollExact(env, b, (t1 - t0) + u);
      RollSplits(env, b, c, t1 - t0, u);
    } else if b.state.Spinning? {
      UpdateBallExact(env, b, t0, t1);
      UpdateKeepsPlace(env, b, t0, t1);
    }
  }

  lemma UpdateKeepsPlace(env: Env, b: Ball, t0: real, t1: real)
    requires !b.Travelling()
    ensures UpdateBall(env, b, t0, t1).r == b.r
  {
    hide Slide, Roll, UpdateSpinning, UpdateState;
  }

  /** The direction of friction stays what it was. */
  lemma PullGoesOn(env: Env, b: Ball, t0: real, c: Ball, t1: real)
    requires Exact(env) && Onward(env, b, t0, c, t1) && b.Travelling()
    ensures Direction(env, Pull(c)) == Direction(env, Pull(b)) && Brake(env, c) == Brake(env, b) && c.Travelling() && c.id == b.id
  {
    hide Mag, SlideForm, RollForm, UpdateState, Direction, TransitionDelay, UpdateBall;
    ClassifiedExact(env, b);
    if b.state.Sliding? {
      SlidingUntil(env, b, t0, t1);
    } else {
      RollingUntil(env, b, t0, t1);
    }
  }

  /** Its transition is predicted for the same time. */
  lemma TransitionGoesOn(env: Env, b: Ball, t0: real, c: Ball, t1: real)
    requires Exact(env) && Onward(env, b, t0, c, t1)
    ensures NextTransitionEvent(env, c, t1) == NextTransitionEvent(env, b, t0)
  {
    hide UpdateBall, TransitionDelay, Classified;
    if b.Moving() {
      TransitionStable(env, b, t0, t1);
    }
  }

  // ---------------------------------------------------------------- contacts

  /** What the solvers owe for predictions to be right. */
  ghost predicate SolversRight(env: Env) {
    RootsRight(env) && RootsComplete(env) && FlatRefused(env) && QuadraticsRight(env)
  }

  lemma TouchingGoesOn(env: Env, b1: Ball, b2: Ball, t0: real, c1: Ball, c2: Ball, t1: real, u: real)
    requires Exact(env) && Onward(env, b1, t0, c1, t1) && Onward(env, b2, t0, c2, t1) && 0.0 <= u
    ensures Touching(env, c1, c2, u) <==> Touching(env, b1, b2, (t1 - t0) + u)
  {
    hide Onward, Where, DistanceSquared;
    PathGoesOn(env, b1, t0, c1, t1, u);
    PathGoesOn(env, b2, t0, c2, t1, u);
  }

  lemma SlowingGoesOn(env: Env, b: Ball, t0: real, c: Ball, t1: real)
    requires Exact(env) && Onward(env, b, t0, c, t1)
    ensures Slowing(env, c) == Slowing(env, b)
  {
    hide Onward, Direction, Aim, Brake;
    SameKind(env, b, t0, c, t1);
    if b.Travelling() {
      PullGoesOn(env, b, t0, c, t1);
      AimIsPull(env, b);
      AimIsPull(env, c);
    }
  }

  lemma SameKind(env: Env, b: Ball, t0: real, c: Ball, t1: real)
    requires Onward(env, b, t0, c, t1)
    ensures c.id == b.id && c.state == b.state && t0 <= t1
  {
    hide Classified, TransitionDelay;
  }

  /** The two balls are predicted from this side. */
  predicate Watched(b1: Ball, b2: Ball) { b2.InPlay() && (b2.Travelling() ==> b1.id <= b2.id) }

  /** A contact overlooked at first, because the balls were parting and it was too near, comes to
      light `d` later, when their successors are `c1` and `c2`. */
  ghost predicate Surfaces(env: Env, b1: Ball, b2: Ball, c1: Ball, c2: Ball, d: real) {
    !BrakedAlike(env, b1, b2) && exists u: real :: Overlooked(b1, b2, u) && !Overlooked(c1, c2, u - d) && Touching(env, b1, b2, u)
  }

  /** Predicting a pair again at `t1` gives what was predicted at `t0` if and only if the contact, if
      there is one, is still ahead by more than is overlooked then, and none comes to light that was
      overlooked before. */
  lemma HitGoesOn(env: Env, b1: Ball, b2: Ball, t0: real, c1: Ball, c2: Ball, t1: real)
    requires Exact(env) && SolversRight(env) && b1.Travelling() && Watched(b1, b2)
    requires Onward(env, b1, t0, c1, t1) && Onward(env, b2, t0, c2, t1)
    ensures c1.Travelling()
    ensures var e := NextCollisionEvent(env, b1, b2, t0);
      NextCollisionEvent(env, c1, c2, t1) == e
      <==> (e.Some? ==> !Overlooked(c1, c2, e.value.time - t1)) && !Surfaces(env, b1, b2, c1, c2, t1 - t0)
  {
    hide Onward, CollisionRoot, Floor, SolversRight, Surfaces, Overlooked;
    PullGoesOn(env, b1, t0, c1, t1);
    SameKind(env, b2, t0, c2, t1);
    RootsGoOn(env, b1, b2, t0, c1, c2, t1);
    var m := CollisionRoot(env, b1, b2);
    assert m + t0 - t1 == m - (t1 - t0);
    OverlookedIs(c1, c2, m - (t1 - t0));
    FloorSign(c1, c2);
  }

  lemma PullTravels(env: Env, b: Ball, t0: real, c: Ball, t1: real)
    requires Onward(env, b, t0, c, t1) && b.Travelling()
    ensures c.Travelling()
  {
    hide Classified, TransitionDelay;
  }

  /** The same of the roots taken: `m` at `t0`, `n` at `t1`. */
  lemma RootsGoOn(env: Env, b1: Ball, b2: Ball, t0: real, c1: Ball, c2: Ball, t1: real)
    requires Exact(env) && SolversRight(env) && b1.Travelling() && c1.Travelling()
    requires Onward(env, b1, t0, c1, t1) && Onward(env, b2, t0, c2, t1) && t0 <= t1
    ensures var m, n, d := CollisionRoot(env, b1, b2), CollisionRoot(env, c1, c2), t1 - t0;
      if Surfaces(env, b1, b2, c1, c2, d) then n > 0.0 && (m > 0.0 ==> n != m - d)
      else if m <= 0.0 then n <= 0.0
      else if !Overlooked(c1, c2, m - d) then n == m - d
      else n > 0.0 ==> n != m - d
  {
    hide Onward, Touching, CollisionRoot, Floor, RootsRight, RootsComplete, FlatRefused, QuadraticsRight, BrakedAlike, Overlooked;
    var m, n, d := CollisionRoot(env, b1, b2), CollisionRoot(env, c1, c2), t1 - t0;
    FloorSign(c1, c2);
    AlikeGoesOn(env, b1, b2, t0, c1, c2, t1);
    if BrakedAlike(env, b1, b2) {
      RootRefused(env, b1, b2);
      RootRefused(env, c1, c2);
    } else {
      if n > 0.0 {
        RootTouches(env, c1, c2);
        TouchingGoesOn(env, b1, b2, t0, c1, c2, t1, n);
        OverlookedIs(b1, b2, d + n);
        OverlookedIs(c1, c2, n);
        if Floor(b1, b2) < d + n {
          RootFirst(env, b1, b2, d + n);
        }
      }
      if m > 0.0 {
        RootTouches(env, b1, b2);
        OverlookedIs(c1, c2, m - d);
        if m - d > Floor(c1, c2) {
          TouchesLater(env, b1, b2, t0, c1, c2, t1, m);
        }
      }
      if Surfaces(env, b1, b2, c1, c2, d) {
        var u :| Overlooked(b1, b2, u) && !Overlooked(c1, c2, u - d) && Touching(env, b1, b2, u);
        OverlookedIs(b1, b2, u);
        OverlookedIs(c1, c2, u - d);
        TouchesLater(env, b1, b2, t0, c1, c2, t1, u);
      }
    }
  }

  lemma AlikeGoesOn(env: Env, b1: Ball, b2: Ball, t0: real, c1: Ball, c2: Ball, t1: real)
    requires Exact(env) && Onward(env, b1, t0, c1, t1) && Onward(env, b2, t0, c2, t1)
    ensures BrakedAlike(env, c1, c2) <==> BrakedAlike(env, b1, b2)
  {
    hide Onward, Slowing;
    SlowingGoesOn(env, b1, t0, c1, t1);
    SlowingGoesOn(env, b2, t0, c2, t1);
  }

  /** A contact still ahead at `t1` bounds the root taken then. */
  lemma TouchesLater(env: Env, b1: Ball, b2: Ball, t0: real, c1: Ball, c2: Ball, t1: real, u: real)
    requires Exact(env) && RootsComplete(env) && b1.Travelling() && c1.Travelling() && !BrakedAlike(env, c1, c2)
    requires Onward(env, b1, t0, c1, t1) && Onward(env, b2, t0, c2, t1) && t0 <= t1
    requires Touching(env, b1, b2, u) && u - (t1 - t0) > Floor(c1, c2)
    ensures 0.0 < CollisionRoot(env, c1, c2) <= u - (t1 - t0)
  {
    hide Onward, Touching, CollisionRoot, Floor, RootsComplete, BrakedAlike;
    var d := t1 - t0;
    FloorSign(c1, c2);
    TouchingGoesOn(env, b1, b2, t0, c1, c2, t1, u - d);
    assert d + (u - d) == u;
    RootFirst(env, c1, c2, u - d);
  }

  // ---------------------------------------------------------------- crossings of lines

  /** The quadratic solver lists the real roots, and none for the zero polynomial. */
  ghost predicate QuadraticsRight(env: Env) { forall p: (real, real, real) :: QuadraticRight(env, p) }

  ghost predicate QuadraticRight(env: Env, p: (real, real, real)) {
    var q := env.quadratic(p.0, p.1, p.2);
    && 0 <= q.count <= 2
    && if Nought(p) then q.count == 0 else forall t: real :: Listed(q, t) <==> Parabola(p, t) == 0.0
  }

  predicate Nought(p: (real, real, real)) { p == (0.0, 0.0, 0.0) }

  /** The first zero from now on. */
  ghost predicate FirstZero(p: (real, real, real), t: real) {
    && 0.0 <= t && Parabola(p, t) == 0.0 && !Nought(p)
    && forall u: real :: 0.0 <= u && Parabola(p, u) == 0.0 ==> t <= u
  }

  ghost predicate NoZero(p: (real, real, real)) {
    Nought(p) || forall u: real :: 0.0 <= u ==> Parabola(p, u) != 0.0
  }

  /** `calcEventTime` reports the first zero not in the past, or -1 when there is none. */
  lemma EventTimeIs(env: Env, p: (real, real, real), now: real)
    requires QuadraticsRight(env) && 0.0 <= now
    ensures var at := CalcEventTime(env.quadratic(p.0, p.1, p.2), now);
      if at == -1.0 then NoZero(p) else now <= at && FirstZero(p, at - now)
  {
    hide Parabola;
    assert QuadraticRight(env, p);
    var q := env.quadratic(p.0, p.1, p.2);
    var at := CalcEventTime(q, now);
    if at != -1.0 {
      assert Listed(q, at - now);
    }
    forall u: real | 0.0 <= u && Parabola(p, u) == 0.0
      ensures Nought(p) || (at - now <= u && at != -1.0)
    {
      assert Nought(p) || Listed(q, u);
    }
  }

  /** A polynomial that is zero at three points is zero. */
  lemma ThreeZeros(p: (real, real, real), d: real)
    requires Parabola(p, d) == 0.0 && Parabola(p, d + 1.0) == 0.0 && Parabola(p, d + 2.0) == 0.0
    ensures Nought(p)
  {
    var (a, b, c) := p;
    var f, g, h := d * d, (d + 1.0) * (d + 1.0), (d + 2.0) * (d + 2.0);
    assert g == f + 2.0 * d + 1.0 && h == f + 4.0 * d + 4.0;
    assert a * g == a * f + 2.0 * (a * d) + a && a * h == a * f + 4.0 * (a * d) + 4.0 * a;
    assert b * (d + 1.0) == b * d + b && b * (d + 2.0) == b * d + 2.0 * b;
    assert a == 0.0;
  }

  lemma NoughtZero(p: (real, real, real), t: real)
    requires Nought(p)
    ensures Parabola(p, t) == 0.0
  {
  }

  /** When a ball is next on a line, as predicted at `now`: -1 stands for never. */
  function NextOn(env: Env, b: Ball, now: real, line: Line): real
    requires b.Travelling()
  {
    AimNonzero(b);
    CrossingTime(env, b, now, Direction(env, Pull(b)), line)
  }

  lemma AimNonzero(b: Ball)
    requires b.Travelling()
    ensures Pull(b) != ZERO
  {
  }

  /** On its path the ball is on the line after time `u`. */
  predicate OnLine(env: Env, b: Ball, line: Line, u: real) { Past(env, line, Where(env, b, u)) == 0.0 }

  /** The ball travels along the line from time `d` on. */
  ghost predicate Rides(env: Env, b: Ball, line: Line, d: real) { forall u: real :: d <= u ==> OnLine(env, b, line, u) }

  lemma OnLineIs(env: Env, b: Ball, line: Line, u: real)
    requires ExactRoot(env.root) && b.Travelling()
    ensures OnLine(env, b, line, u) <==> Parabola(Crossing(env, b, Direction(env, Pull(b)), line), u) == 0.0
  {
    hide Crossing, Direction, Parabola, Past, Where;
    CrossingMeans(env, b, line, u);
  }

  /** It travels along it from some time on exactly if its quadratic is zero. */
  lemma RidesIs(env: Env, b: Ball, line: Line, d: real)
    requires ExactRoot(env.root) && b.Travelling()
    ensures Rides(env, b, line, d) <==> Nought(Crossing(env, b, Direction(env, Pull(b)), line))
  {
    hide Crossing, Direction, Parabola, OnLine, Nought;
    var p := Crossing(env, b, Direction(env, Pull(b)), line);
    if Rides(env, b, line, d) {
      OnLineIs(env, b, line, d);
      OnLineIs(env, b, line, d + 1.0);
      OnLineIs(env, b, line, d + 2.0);
      ThreeZeros(p, d);
    }
    if Nought(p) {
      forall u: real | d <= u
        ensures OnLine(env, b, line, u)
      {
        OnLineIs(env, b, line, u);
        NoughtZero(p, u);
      }
    }
  }

  /** What `calcEventTime` finds of a line, on the path of the ball: the first time on it, or never;
      a ball that travels along it counts as never meeting it. */
  lemma NextOnIs(env: Env, b: Ball, now: real, line: Line)
    requires ExactRoot(env.root) && QuadraticsRight(env) && 0.0 <= now && b.Travelling()
    ensures var at := NextOn(env, b, now, line);
      if at == -1.0 then Rides(env, b, line, 0.0) || forall u: real :: 0.0 <= u ==> !OnLine(env, b, line, u)
      else
        && now <= at && !Rides(env, b, line, 0.0) && OnLine(env, b, line, at - now)
        && forall u: real :: 0.0 <= u && OnLine(env, b, line, u) ==> at - now <= u
  {
    hide Crossing, Direction, QuadraticsRight, CalcEventTime, Parabola, OnLine, Rides, Nought;
    var p := Crossing(env, b, Direction(env, Pull(b)), line);
    EventTimeIs(env, p, now);
    RidesIs(env, b, line, 0.0);
    forall u: real
      ensures OnLine(env, b, line, u) <==> Parabola(p, u) == 0.0
    {
      OnLineIs(env, b, line, u);
    }
  }

  lemma OnLineGoesOn(env: Env, b: Ball, t0: real, c: Ball, t1: real, line: Line, u: real)
    requires Exact(env) && Onward(env, b, t0, c, t1) && 0.0 <= u
    ensures OnLine(env, c, line, u) <==> OnLine(env, b, line, (t1 - t0) + u)
  {
    hide Onward, Past, Where;
    PathGoesOn(env, b, t0, c, t1, u);
  }

  lemma RidesGoesOn(env: Env, b: Ball, t0: real, c: Ball, t1: real, line: Line)
    requires Exact(env) && Onward(env, b, t0, c, t1) && b.Travelling() && c.Travelling()
    ensures Rides(env, c, line, 0.0) <==> Rides(env, b, line, 0.0)
  {
    hide Onward, OnLine, Crossing, Direction, Nought;
    var d := t1 - t0;
    RidesIs(env, b, line, 0.0);
    RidesIs(env, b, line, d);
    forall u: real | 0.0 <= u
      ensures OnLine(env, c, line, u) <==> OnLine(env, b, line, d + u)
    {
      OnLineGoesOn(env, b, t0, c, t1, line, u);
    }
    if Rides(env, c, line, 0.0) {
      forall u: real | d <= u
        ensures OnLine(env, b, line, u)
      {
        assert OnLine(env, c, line, u - d);
        assert d + (u - d) == u;
      }
    }
  }

  // ---------------------------------------------------------------- boundary events

  predicate IsCushion(line: Line) { line in {SouthLine, NorthLine, WestLine, EastLine} }

  /** An event is predicted for the line: a cushion must lie in the future, a corner not in the past. */
  predicate Queued(env: Env, b: Ball, now: real, line: Line)
    requires b.Travelling()
  {
    var at := NextOn(env, b, now, line); if IsCushion(line) then at > now else at >= 0.0
  }

  /** The two predictions for a line are the same. */
  predicate SameLine(env: Env, b: Ball, t0: real, c: Ball, t1: real, line: Line)
    requires b.Travelling() && c.Travelling()
  {
    && (Queued(env, b, t0, line) <==> Queued(env, c, t1, line))
    && (Queued(env, b, t0, line) ==> NextOn(env, b, t0, line) == NextOn(env, c, t1, line))
  }

  /** A ball is not on the line up to time `d`; or it travels along it; or it is on the cushion it
      starts from, and again at `d` or never after it; or it gets to the corner only just at `d`. */
  ghost predicate LineCalm(env: Env, b: Ball, line: Line, d: real) {
    || (forall u: real :: 0.0 <= u <= d ==> !OnLine(env, b, line, u))
    || Rides(env, b, line, 0.0)
    || if IsCushion(line) then OnLine(env, b, line, 0.0) && (OnLine(env, b, line, d) || forall u: real :: d < u ==> !OnLine(env, b, line, u))
       else OnLine(env, b, line, d) && forall u: real :: 0.0 <= u < d ==> !OnLine(env, b, line, u)
  }

  /** A line is predicted again as before exactly if the path is calm there. */
  lemma LineGoesOn(env: Env, b: Ball, t0: real, c: Ball, t1: real, line: Line)
    requires Exact(env) && QuadraticsRight(env) && 0.0 <= t0 <= t1
    requires Onward(env, b, t0, c, t1) && b.Travelling() && c.Travelling()
    ensures SameLine(env, b, t0, c, t1, line) <==> LineCalm(env, b, line, t1 - t0)
  {
    hide Onward, NextOn, QuadraticsRight, OnLine, Rides;
    var d := t1 - t0;
    NextOnIs(env, b, t0, line);
    NextOnIs(env, c, t1, line);
    RidesGoesOn(env, b, t0, c, t1, line);
    forall u: real | d <= u
      ensures OnLine(env, b, line, u) <==> OnLine(env, c, line, u - d)
    {
      OnLineGoesOn(env, b, t0, c, t1, line, u - d);
      assert d + (u - d) == u;
    }
    var at0, at1 := NextOn(env, b, t0, line), NextOn(env, c, t1, line);
    assert at1 != -1.0 ==> OnLine(env, b, line, d + (at1 - t1)) by {
      if at1 != -1.0 {
        OnLineGoesOn(env, b, t0, c, t1, line, at1 - t1);
      }
    }
    assert OnLine(env, c, line, 0.0) <==> OnLine(env, b, line, d) by {
      OnLineGoesOn(env, b, t0, c, t1, line, 0.0);
    }
  }

  lemma HeightGoesOn(env: Env, b: Ball, t0: real, c: Ball, t1: real, at: real)
    requires Exact(env) && Onward(env, b, t0, c, t1) && b.Travelling() && c.Travelling() && t0 <= t1 < at
    ensures var u := Direction(env, Pull(b)); Height(env, c, u, at - t1) == Height(env, b, u, at - t0)
  {
    hide Onward, Direction, Height, Where;
    PullGoesOn(env, b, t0, c, t1);
    HeightIs(env, b, at - t0);
    HeightIs(env, c, at - t1);
    PathGoesOn(env, b, t0, c, t1, at - t1);
    assert (t1 - t0) + (at - t1) == at - t0;
  }

  lemma HeightIs(env: Env, b: Ball, t: real)
    requires Exact(env) && b.Travelling()
    ensures Height(env, b, Direction(env, Pull(b)), t) == Where(env, b, t).y
  {
    hide Direction, Aim, Where, Brake;
    AimIsPull(env, b);
    Travels(env, b, t);
    var u, k := Direction(env, Pull(b)), Brake(env, b);
    assert k * u.y * t * t == (k * u.y) * (t * t);
  }

  /** The events of a line, by their kind. */
  predicate OfLine(line: Line, kind: Kind) {
    match line
    case SouthLine => kind == RailCollision(South)
    case NorthLine => kind == RailCollision(North)
    case WestLine => kind in {RailCollision(SouthWest), RailCollision(NorthWest), Pocketed(W)}
    case EastLine => kind in {RailCollision(SouthEast), RailCollision(NorthEast), Pocketed(E)}
    case SouthWestLine => kind == Pocketed(SW)
    case SouthEastLine => kind == Pocketed(SE)
    case NorthWestLine => kind == Pocketed(NW)
    case NorthEastLine => kind == Pocketed(NE)
  }

  lemma OneLine(k: Line, l: Line, kind: Kind)
    requires OfLine(k, kind) && OfLine(l, kind)
    ensures k == l
  {
  }

  /** What `addBoundaryEvents` appends for one line. */
  function Piece(env: Env, b: Ball, now: real, line: Line): seq<Event>
    requires b.Travelling()
  {
    AimNonzero(b);
    var at, u := NextOn(env, b, now, line), Direction(env, Pull(b));
    var low, high := env.table.length / 2.0 - env.table.sidePocketWidth / 2.0, env.table.length / 2.0 + env.table.sidePocketWidth / 2.0;
    match line
    case SouthLine => RailAt(env, b, at, now, South)
    case NorthLine => RailAt(env, b, at, now, North)
    case WestLine => CushionAt(env, b, at, now, Height(env, b, u, at - now), low, high, SouthWest, NorthWest, W)
    case EastLine => CushionAt(env, b, at, now, Height(env, b, u, at - now), low, high, SouthEast, NorthEast, E)
    case SouthWestLine => CornerAt(b, at, SW)
    case SouthEastLine => CornerAt(b, at, SE)
    case NorthWestLine => CornerAt(b, at, NW)
    case NorthEastLine => CornerAt(b, at, NE)
  }

  lemma PiecesMake(env: Env, b: Ball, now: real)
    requires b.Travelling()
    ensures BoundaryEvents(env, b, now) ==
      Piece(env, b, now, SouthLine) + Piece(env, b, now, NorthLine) + Piece(env, b, now, WestLine) + Piece(env, b, now, EastLine)
      + Piece(env, b, now, SouthWestLine) + Piece(env, b, now, SouthEastLine) + Piece(env, b, now, NorthWestLine) + Piece(env, b, now, NorthEastLine)
  {
    hide CrossingTime, Direction, Height, RailAt, CushionAt, CornerAt;
  }

  lemma PieceIs(env: Env, b: Ball, now: real, line: Line)
    requires Exact(env) && b.Travelling()
    ensures forall e :: e in Piece(env, b, now, line) ==> OfLine(line, e.kind) && e.time == NextOn(env, b, now, line)
    ensures Piece(env, b, now, line) != [] <==> Queued(env, b, now, line)
  {
    hide NextOn, Direction, Height;
  }

  /** What is predicted of one line, read off the list. */
  lemma LineEvents(env: Env, b: Ball, now: real, line: Line)
    requires Exact(env) && b.Travelling()
    ensures forall e :: e in BoundaryEvents(env, b, now) && OfLine(line, e.kind) ==>
      Queued(env, b, now, line) && e.time == NextOn(env, b, now, line)
    ensures Queued(env, b, now, line) ==> exists e :: e in BoundaryEvents(env, b, now) && OfLine(line, e.kind)
  {
    hide BoundaryEvents, Piece, Queued, NextOn, OfLine;
    PiecesMake(env, b, now);
    forall l: Line
      ensures forall e :: e in Piece(env, b, now, l) ==> OfLine(l, e.kind) && e.time == NextOn(env, b, now, l)
      ensures Piece(env, b, now, l) != [] <==> Queued(env, b, now, l)
    {
      PieceIs(env, b, now, l);
    }
    forall e | e in BoundaryEvents(env, b, now) && OfLine(line, e.kind)
      ensures e in Piece(env, b, now, line)
    {
      var l :| e in Piece(env, b, now, l);
      OneLine(l, line, e.kind);
    }
    if Queued(env, b, now, line) {
      var e := Piece(env, b, now, line)[0];
      assert e in Piece(env, b, now, line);
      assert e in BoundaryEvents(env, b, now);
    }
  }

  /** What a ball meets at `p` on a line: between the long cushions of a side lies the side pocket. */
  ghost predicate Faces(env: Env, line: Line, kind: Kind, p: Point) {
    var (middle, half) := (env.table.length / 2.0, env.table.sidePocketWidth / 2.0);
    match line
    case WestLine =>
      && (kind == Pocketed(W) <==> middle - half <= p.y <= middle + half)
      && (kind == RailCollision(SouthWest) <==> p.y < middle - half)
      && (kind == RailCollision(NorthWest) <==> middle - half <= p.y && middle + half < p.y)
    case EastLine =>
      && (kind == Pocketed(E) <==> middle - half <= p.y <= middle + half)
      && (kind == RailCollision(SouthEast) <==> p.y < middle - half)
      && (kind == RailCollision(NorthEast) <==> middle - half <= p.y && middle + half < p.y)
    case SouthLine => kind == RailCollision(South)
    case NorthLine => kind == RailCollision(North)
    case SouthWestLine => kind == Pocketed(SW)
    case SouthEastLine => kind == Pocketed(SE)
    case NorthWestLine => kind == Pocketed(NW)
    case NorthEastLine => kind == Pocketed(NE)
  }

  /** Every boundary event is what the ball meets, where its path then is, on the line it meets then; and
      every line it meets ahead makes one. */
  lemma BoundaryFaces(env: Env, b: Ball, now: real, line: Line)
    requires Exact(env) && b.Travelling()
    ensures var at := NextOn(env, b, now, line);
      && (forall e :: e in BoundaryEvents(env, b, now) && OfLine(line, e.kind) ==>
            Queued(env, b, now, line) && e.ball1 == b.id && e.time == at && Faces(env, line, e.kind, Where(env, b, at - now)))
      && (Queued(env, b, now, line) ==> exists e :: e in BoundaryEvents(env, b, now) && OfLine(line, e.kind))
  {
    hide BoundaryEvents, Piece, Queued, NextOn, OfLine, Faces, Where;
    LineEvents(env, b, now, line);
    PiecesMake(env, b, now);
    forall e | e in BoundaryEvents(env, b, now) && OfLine(line, e.kind)
      ensures e.ball1 == b.id && Faces(env, line, e.kind, Where(env, b, NextOn(env, b, now, line) - now))
    {
      var l :| e in Piece(env, b, now, l);
      PieceIs(env, b, now, l);
      OneLine(l, line, e.kind);
      PieceFaces(env, b, now, line, e);
    }
  }

  lemma PieceFaces(env: Env, b: Ball, now: real, line: Line, e: Event)
    requires Exact(env) && b.Travelling() && e in Piece(env, b, now, line)
    ensures e.ball1 == b.id && Faces(env, line, e.kind, Where(env, b, NextOn(env, b, now, line) - now))
  {
    hide NextOn, Direction, Height, Where;
    HeightIs(env, b, NextOn(env, b, now, line) - now);
  }

  /** Where a line is predicted as before, so are its events, at the same height. */
  lemma PieceAgrees(env: Env, b: Ball, t0: real, c: Ball, t1: real, line: Line)
    requires Exact(env) && Onward(env, b, t0, c, t1) && b.Travelling() && c.Travelling()
    requires SameLine(env, b, t0, c, t1, line)
    ensures Piece(env, c, t1, line) == Piece(env, b, t0, line)
  {
    hide Onward, NextOn, Direction, Height;
    PullGoesOn(env, b, t0, c, t1);
    var at1 := NextOn(env, c, t1, line);
    if at1 > t1 {
      SameKind(env, b, t0, c, t1);
      HeightGoesOn(env, b, t0, c, t1, at1);
    }
  }

  lemma AllLinesAgree(env: Env, b: Ball, t0: real, c: Ball, t1: real)
    requires Exact(env) && Onward(env, b, t0, c, t1) && b.Travelling() && c.Travelling()
    requires forall line: Line :: SameLine(env, b, t0, c, t1, line)
    ensures BoundaryEvents(env, c, t1) == BoundaryEvents(env, b, t0)
  {
    hide Onward, BoundaryEvents, Piece, SameLine;
    PiecesMake(env, b, t0);
    PiecesMake(env, c, t1);
    forall line: Line
      ensures Piece(env, c, t1, line) == Piece(env, b, t0, line)
    {
      PieceAgrees(env, b, t0, c, t1, line);
    }
  }

  lemma EqualListsAgree(env: Env, b: Ball, t0: real, c: Ball, t1: real, line: Line)
    requires Exact(env) && b.Travelling() && c.Travelling()
    requires BoundaryEvents(env, c, t1) == BoundaryEvents(env, b, t0)
    ensures SameLine(env, b, t0, c, t1, line)
  {
    hide BoundaryEvents, NextOn, Queued, OfLine;
    LineEvents(env, b, t0, line);
    LineEvents(env, c, t1, line);
  }

  /** The path is calm at every line. */
  ghost predicate PathCalm(env: Env, b: Ball, d: real) { forall line: Line :: LineCalm(env, b, line, d) }

  /** Rails and pockets are predicted as before if and only if the path is calm at every line. */
  lemma BoundaryGoesOn(env: Env, b: Ball, t0: real, c: Ball, t1: real)
    requires Exact(env) && QuadraticsRight(env) && 0.0 <= t0 <= t1
    requires Onward(env, b, t0, c, t1) && b.Travelling()
    ensures BoundaryEvents(env, c, t1) == BoundaryEvents(env, b, t0) <==> PathCalm(env, b, t1 - t0)
  {
    hide Onward, QuadraticsRight, BoundaryEvents, SameLine, LineCalm;
    PullTravels(env, b, t0, c, t1);
    var d := t1 - t0;
    forall line: Line
      ensures SameLine(env, b, t0, c, t1, line) <==> LineCalm(env, b, line, d)
    {
      LineGoesOn(env, b, t0, c, t1, line);
    }
    if BoundaryEvents(env, c, t1) == BoundaryEvents(env, b, t0) {
      forall line: Line
        ensures LineCalm(env, b, line, d)
      {
        EqualListsAgree(env, b, t0, c, t1, line);
      }
    } else if PathCalm(env, b, d) {
      AllLinesAgree(env, b, t0, c, t1);
    }
  }

  /** A ball that gets to a cushion at the very time of another ball's event: the rail was predicted,
      and predicted again at that time it is not. */
  lemma TieLost(env: Env, b: Ball, t0: real, c: Ball, t1: real, line: Line)
    requires Exact(env) && QuadraticsRight(env) && 0.0 <= t0 < t1
    requires Onward(env, b, t0, c, t1) && b.Travelling() && IsCushion(line) && NextOn(env, b, t0, line) == t1
    ensures exists e :: e in BoundaryEvents(env, b, t0) && OfLine(line, e.kind) && e.time == t1
    ensures forall e :: e in BoundaryEvents(env, c, t1) ==> !OfLine(line, e.kind)
  {
    hide Onward, QuadraticsRight, BoundaryEvents, NextOn, OnLine, OfLine;
    PullTravels(env, b, t0, c, t1);
    NextOnIs(env, b, t0, line);
    NextOnIs(env, c, t1, line);
    OnLineGoesOn(env, b, t0, c, t1, line, 0.0);
    assert (t1 - t0) + 0.0 == t1 - t0;
    LineEvents(env, b, t0, line);
    LineEvents(env, c, t1, line);
  }

  /** So with two balls that touch at the very time of another event. */
  lemma TouchLost(env: Env, b1: Ball, b2: Ball, t0: real, c1: Ball, c2: Ball, t1: real)
    requires Exact(env) && SolversRight(env) && b1.Travelling() && Watched(b1, b2)
    requires Onward(env, b1, t0, c1, t1) && Onward(env, b2, t0, c2, t1)
    requires var e := NextCollisionEvent(env, b1, b2, t0); e.Some? && e.value.time == t1
    ensures c1.Travelling()
    ensures NextCollisionEvent(env, c1, c2, t1) != NextCollisionEvent(env, b1, b2, t0)
  {
    hide Onward, CollisionRoot, SolversRight, Surfaces;
    HitGoesOn(env, b1, b2, t0, c1, c2, t1);
    FloorSign(c1, c2);
  }

  // ---------------------------------------------------------------- whole simulations

  /** A ball across an iteration: it goes on as it was. */
  ghost predicate BallOnward(env: Env, s: Sim, next: Sim, x: BallId) { Onward(env, At(s, x), s.now, At(next, x), next.now) }

  ghost predicate BallCalm(env: Env, s: Sim, next: Sim, x: BallId) {
    At(s, x).Travelling() ==> PathCalm(env, At(s, x), next.now - s.now)
  }

  /** The contact of two balls stays as it was predicted. */
  ghost predicate PairCalm(env: Env, s: Sim, next: Sim, x: BallId, y: BallId) {
    var b1, b2, c1, c2 := At(s, x), At(s, y), At(next, x), At(next, y);
    x != y && b1.Travelling() && Watched(b1, b2) ==>
      var e := NextCollisionEvent(env, b1, b2, s.now);
      (e.Some? ==> !Overlooked(c1, c2, e.value.time - next.now)) && !Surfaces(env, b1, b2, c1, c2, next.now - s.now)
  }

  ghost predicate CalmAt(env: Env, s: Sim, next: Sim, x: BallId, y: BallId)
    requires s.queue != []
  {
    !TouchesPair(Cause(s), x, y) && Both(s.balls, x, y) && Both(next.balls, x, y) ==>
      && BallOnward(env, s, next, x) && BallOnward(env, s, next, y)
      && BallCalm(env, s, next, x) && PairCalm(env, s, next, x, y)
  }

  /** So it is with all balls that no event touched, throughout a simulation. */
  ghost predicate Calm(env: Env, ss: seq<Sim>)
    requires Consumed(ss)
  {
    forall j, k, x, y :: 0 <= j < |ss| - 1 && k == j + 1 ==> CalmAt(env, ss[j], ss[k], x, y)
  }

  /** All that is predicted of one ball is predicted again exactly if its path is calm. */
  lemma BallGoesOn(env: Env, possible: (seq<Ball>, ShotParams) -> bool, s: Sim, next: Sim, x: BallId)
    requires Exact(env) && SolversRight(env) && 0.0 <= s.now && BallOnward(env, s, next, x) && x < UNKNOWN_ID
    ensures BallFull(FastFiz(env, possible), next, x) == BallFull(FastFiz(env, possible), s, x) <==> BallCalm(env, s, next, x)
  {
    hide RootsRight, RootsComplete, QuadraticsRight, Onward, PathCalm, NextTransitionEvent, BoundaryEvents;
    var b, c := At(s, x), At(next, x);
    SameKind(env, b, s.now, c, next.now);
    TransitionGoesOn(env, b, s.now, c, next.now);
    var w := FastFiz(env, possible);
    var ts := TransitionOf(w, s.balls, s.now, x);
    assert TransitionOf(w, next.balls, next.now, x) == ts;
    if b.Travelling() {
      BoundaryGoesOn(env, b, s.now, c, next.now);
      SamePrefix(ts, BoundaryEvents(env, c, next.now), BoundaryEvents(env, b, s.now));
    } else {
      NoBoundary(env, b, s.now);
      NoBoundary(env, c, next.now);
    }
  }

  lemma SamePrefix(a: seq<Event>, b: seq<Event>, c: seq<Event>)
    ensures a + b == a + c <==> b == c
  {
    assert (a + b)[|a|..] == b && (a + c)[|a|..] == c;
  }

  /** So with a pair. */
  lemma PairGoesOn(env: Env, possible: (seq<Ball>, ShotParams) -> bool, s: Sim, next: Sim, x: BallId, y: BallId)
    requires Exact(env) && SolversRight(env) && BallOnward(env, s, next, x) && BallOnward(env, s, next, y)
    requires Both(s.balls, x, y) && Both(next.balls, x, y) && x < UNKNOWN_ID && y < UNKNOWN_ID
    ensures PairFull(FastFiz(env, possible), next, x, y) == PairFull(FastFiz(env, possible), s, x, y) <==> PairCalm(env, s, next, x, y)
  {
    hide SolversRight, Onward, CollisionRoot, Floor, Surfaces;
    var b1, b2, c1, c2 := At(s, x), At(s, y), At(next, x), At(next, y);
    SameKind(env, b1, s.now, c1, next.now);
    SameKind(env, b2, s.now, c2, next.now);
    if b1.Travelling() && x != y && Watched(b1, b2) {
      HitGoesOn(env, b1, b2, s.now, c1, c2, next.now);
    }
  }

  /** In a calm simulation the incremental queue is the recomputed one, minus dropped hits. */
  lemma CalmMatches(env: Env, possible: (seq<Ball>, ShotParams) -> bool, balls: seq<Ball>, sp: ShotParams, ss: seq<Sim>, n: nat, e: Event)
    requires Exact(env) && SolversRight(env)
    requires Ready(balls) && IsTrace(FastFiz(env, possible), balls, sp, ss) && 0 < n < |ss| && Calm(env, ss)
    requires Named(balls, e)
    ensures var full := Predicted(FastFiz(env, possible), ss[n].balls, ss[n].now, UNKNOWN_ID, UNKNOWN_ID);
      multiset(ss[n].queue)[e] == if Dropped(ss, n, e) then 0 else multiset(full)[e]
  {
    hide Exact, SolversRight, Lawful, Ready, BallOnward, BallCalm, PairCalm, BallFull, PairFull, Step, Inv, Predicted;
    var w := FastFiz(env, possible);
    FastFizLawful(env, possible);
    forall j, k, x, y | 0 <= j < |ss| - 1 && k == j + 1
      ensures StableAt(w, ss[j], ss[k], x, y)
    {
      assert CalmAt(env, ss[j], ss[k], x, y);
      if !TouchesPair(Cause(ss[j]), x, y) && Both(ss[j].balls, x, y) && Both(ss[k].balls, x, y) {
        TraceKeeps(w, balls, sp, ss, j);
        SameIdsFind(balls, ss[j].balls, x);
        SameIdsFind(balls, ss[j].balls, y);
        TraceFinds(w, balls, sp, ss, j, x, y);
        BallGoesOn(env, possible, ss[j], ss[k], x);
        PairGoesOn(env, possible, ss[j], ss[k], x, y);
      }
    }
    MatchesFullRecomputation(w, balls, sp, ss, n, e);
  }
}
