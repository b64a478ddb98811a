/** A return to a cushion that is not predicted: the cue ball lies frozen to the south cushion and is
    struck straight away from it, with the cue raised above the rail and enough draw to bring it back. */
module FrozenBall {
  import opened Vectors
  import opened Balls
  import opened Events
  import opened Kinematics
  import opened Clearance
  import opened ExactMotion
  import opened TransitionTimes
  import opened Scheduling
  import opened SchedulerLaws
  import opened SchedulerInvariants
  import opened IncrementalQueue
  import opened QueueHistory
  import opened Overlapping
  import opened Collisions
  import opened Prediction
  import opened ContactTimes
  import opened Physics
  import opened StateChanges
  import opened StablePredictions

  // ---------------------------------------------------------------- a ball that comes back

  /** A ball on the line of the south cushion that slides straight away from it at speed `v`, with
      slip `slip` enough to come back within the slide. */
  ghost predicate Backing(env: Env, b: Ball, v: real, slip: real) {
    && b.state.Sliding? && Classified(env, b) && b.r.y == BALL_RADIUS
    && b.v == Vector(0.0, v, 0.0) && b.Slip() == Vector(0.0, slip, 0.0) && 0.0 < 7.0 * v < slip
  }

  /** How long it takes to come back. */
  function Return(env: Env, v: real): real { (2.0 * v) / (env.table.muSliding * G) }

  lemma ReturnTime(env: Env, v: real)
    requires v > 0.0
    ensures Return(env, v) > 0.0 && env.table.muSliding * G > 0.0 && Return(env, v) * (env.table.muSliding * G) == 2.0 * v
  {
    var h := Product(env.table.muSliding, G);
    Ratio(2.0 * v, h);
    Positive(2.0 * v, h);
  }

  /** It slides for longer than that. */
  lemma SlidesLonger(env: Env, b: Ball, v: real, slip: real)
    requires Exact(env) && Backing(env, b, v, slip)
    ensures Direction(env, b.Slip()) == Vector(0.0, 1.0, 0.0) && Return(env, v) < TransitionDelay(env, b)
  {
    MagIs(env, b.Slip(), slip);
    hide Mag;
    QuotientIs(slip, slip, 1.0);
    ReturnTime(env, v);
    DelayUsesUp(env, b);
    hide TransitionDelay, Return;
    var h, t, d := env.table.muSliding * G, Return(env, v), TransitionDelay(env, b);
    assert SlipRate(env) * d * 2.0 == 7.0 * (h * d);
    if d <= t {
      var _ := Product(h, t - d);
      assert false;
    }
  }

  /** Its height along the cloth: on the line now and at the return, off it between. */
  lemma BackingPath(p: (real, real, real), v: real, h: real, t: real)
    requires v > 0.0 && h > 0.0 && t * h == 2.0 * v && t > 0.0 && p == (-0.5 * h, v, 0.0)
    ensures Parabola(p, 0.0) == 0.0 && Parabola(p, t) == 0.0
    ensures forall u: real :: 0.0 < u < t ==> Parabola(p, u) != 0.0
  {
    assert t * t * h == 2.0 * v * t;
    forall u: real | 0.0 < u < t
      ensures Parabola(p, u) != 0.0
    {
      var x := Product(h, u);
      var y := Product(x, t - u);
      assert y == (t * h) * u - h * (u * u);
      assert Parabola(p, u) == 0.5 * y;
    }
  }

  /** It is on the line now and next at the return. */
  lemma BackingLine(env: Env, b: Ball, v: real, slip: real)
    requires Exact(env) && Backing(env, b, v, slip)
    ensures OnLine(env, b, SouthLine, 0.0) && OnLine(env, b, SouthLine, Return(env, v))
    ensures forall u: real :: 0.0 < u < Return(env, v) ==> !OnLine(env, b, SouthLine, u)
  {
    hide Mag, Direction, TransitionDelay, Return, Parabola, OnLine, Classified;
    SlidesLonger(env, b, v, slip);
    ReturnTime(env, v);
    var h := env.table.muSliding * G;
    var p := Crossing(env, b, Direction(env, Pull(b)), SouthLine);
    assert p == (-0.5 * h, v, 0.0);
    BackingPath(p, v, h, Return(env, v));
    OnLineIs(env, b, SouthLine, 0.0);
    OnLineIs(env, b, SouthLine, Return(env, v));
    forall u: real | 0.0 < u < Return(env, v)
      ensures !OnLine(env, b, SouthLine, u)
    {
      OnLineIs(env, b, SouthLine, u);
    }
  }

  /** Predicted at once the return is missed: the ball is on the line at this instant, `calcEventTime`
      answers with the present, and the present is not ahead. */
  lemma ReturnUnseen(env: Env, b: Ball, now: real, v: real, slip: real)
    requires Exact(env) && QuadraticsRight(env) && Backing(env, b, v, slip) && 0.0 <= now
    ensures Return(env, v) < TransitionDelay(env, b) && OnLine(env, b, SouthLine, Return(env, v))
    ensures forall e :: e in BoundaryEvents(env, b, now) ==> e.kind != RailCollision(South)
  {
    hide QuadraticsRight, BoundaryEvents, Queued, OnLine, NextOn, TransitionDelay, Return;
    SlidesLonger(env, b, v, slip);
    ReturnTime(env, v);
    BackingLine(env, b, v, slip);
    NextOnIs(env, b, now, SouthLine);
    LineEvents(env, b, now, SouthLine);
    MidwayOff(env, b, v, slip);
    NotQueued(env, b, now);
  }

  lemma MidwayOff(env: Env, b: Ball, v: real, slip: real)
    requires Exact(env) && Backing(env, b, v, slip)
    ensures !Rides(env, b, SouthLine, 0.0)
  {
    hide OnLine, Return;
    BackingLine(env, b, v, slip);
    ReturnTime(env, v);
    assert !OnLine(env, b, SouthLine, 0.5 * Return(env, v));
  }

  lemma NotQueued(env: Env, b: Ball, now: real)
    requires b.Travelling()
    ensures Queued(env, b, now, SouthLine) <==> NextOn(env, b, now, SouthLine) > now
  {
    hide NextOn;
  }

  /** A quarter of the way there it is still sliding away, and predicted then the return is found. */
  lemma ReturnSeenLater(env: Env, b: Ball, now: real, v: real, slip: real)
    requires Exact(env) && QuadraticsRight(env) && Backing(env, b, v, slip) && 0.0 <= now
    ensures var later := now + 0.25 * Return(env, v); var c := UpdateBall(env, b, now, later);
      Onward(env, b, now, c, later) && exists e :: e in BoundaryEvents(env, c, later) && e.kind == RailCollision(South) && e.time == now + Return(env, v)
  {
    hide QuadraticsRight, BoundaryEvents, Queued, OnLine, NextOn, TransitionDelay, Return, UpdateBall, Classified;
    SlidesLonger(env, b, v, slip);
    ReturnTime(env, v);
    BackingLine(env, b, v, slip);
    var t := Return(env, v);
    var d := 0.25 * t;
    var later := now + d;
    var c := UpdateBall(env, b, now, later);
    StillAway(env, b, now, v, slip);
    PullTravels(env, b, now, c, later);
    NextOnIs(env, c, later, SouthLine);
    OnLineGoesOn(env, b, now, c, later, SouthLine, t - d);
    assert (later - now) + (t - d) == t;
    forall u: real | 0.0 <= u < t - d
      ensures !OnLine(env, c, SouthLine, u)
    {
      OnLineGoesOn(env, b, now, c, later, SouthLine, u);
    }
    assert !OnLine(env, c, SouthLine, 0.0);
    NotQueued(env, c, later);
    LineEvents(env, c, later, SouthLine);
  }

  lemma StillAway(env: Env, b: Ball, now: real, v: real, slip: real)
    requires Exact(env) && Backing(env, b, v, slip)
    ensures var later := now + 0.25 * Return(env, v); Onward(env, b, now, UpdateBall(env, b, now, later), later)
  {
    hide TransitionDelay, Return, UpdateBall, SlideForm, UpdateState, Direction;
    SlidesLonger(env, b, v, slip);
    ReturnTime(env, v);
    var later := now + 0.25 * Return(env, v);
    AwayVelocity(env, b, v, 0.25 * Return(env, v));
    assert later - now == 0.25 * Return(env, v);
    SlidingUntil(env, b, now, later);
  }

  lemma AwayVelocity(env: Env, b: Ball, v: real, t: real)
    requires b.state.Sliding? && b.v == Vector(0.0, v, 0.0) && Direction(env, b.Slip()) == Vector(0.0, 1.0, 0.0)
    requires v > 0.0 && t * (env.table.muSliding * G) == 0.5 * v
    ensures SlideForm(env, b, t).1 != ZERO
  {
    hide Mag, Direction, UpdateSpinning, Twist;
    var mu := env.table.muSliding;
    assert Drag(mu, t) == -(t * (mu * G));
    assert SlideForm(env, b, t).1.y == b.v.y + 1.0 * Drag(mu, t);
  }

  // ---------------------------------------------------------------- the strike

  /** The point struck, in radii: below the middle of the ball and behind it. */
  const LOW: real := 17664.0 / 21145.0
  const BACK: real := 11623.0 / 21145.0

  /** How far the cue is raised, in degrees, and how steeply it rises. */
  const RAISED: real := 69.995
  const STEEP: real := 2.7465

  /** The angles of the strike: that one, with and without the margin of the clearance test, and those
      of a shot straight up the table. */
  ghost predicate Steep(env: Env) { UpTable(env) && Rises(env, RAISED) && Rises(env, RAISED + EPSILON_THETA) }

  ghost predicate Rises(env: Env, theta: real) { env.cos(theta) > 0.0 && env.sin(theta) >= STEEP * env.cos(theta) }

  /** Straight up the table at speed `v`, as asked for, and as the event has it. */
  function Draw(v: real): ShotParams { ShotParams(0.0, -(LOW * BALL_RADIUS) * 1000.0, RAISED, 90.0, v) }

  function Drawn(v: real): ShotParams { ShotParams(0.0, -(LOW * BALL_RADIUS), RAISED, 90.0, v) }

  lemma DrawDepth(env: Env, v: real)
    requires Exact(env)
    ensures StrikeDepth(env, Drawn(v)) == BACK * BALL_RADIUS
  {
    assert IsRoot(env.root);
    var sp := Drawn(v);
    var x := BALL_RADIUS * BALL_RADIUS - sp.a * sp.a - sp.b * sp.b;
    var c := BACK * BALL_RADIUS;
    assert x == c * c;
    SquaresDetermine(env.root(x), c);
  }

  /** Speed, spin and slip of the struck ball, by the force of the strike. */
  function DrawSpeed(f: real, cos: real): real { f * cos / BALL_MASS }

  function DrawSpin(f: real, cos: real, sin: real): real { f * BALL_RADIUS * (BACK * sin + LOW * cos) * (1.0 / INERTIA) }

  function DrawSlip(f: real, cos: real, sin: real): real { DrawSpeed(f, cos) + BALL_RADIUS * DrawSpin(f, cos, sin) }

  /** The draw makes the slip more than seven times the speed. */
  lemma DrawStrong(f: real, cos: real, sin: real)
    requires f > 0.0 && cos > 0.0 && sin >= STEEP * cos
    ensures 0.0 < 7.0 * DrawSpeed(f, cos) < DrawSlip(f, cos, sin)
  {
    var g := Product(f, cos);
    var p := Product(f, sin - STEEP * cos);
    var k := BALL_RADIUS * BALL_RADIUS * (1.0 / INERTIA);
    assert DrawSpeed(f, cos) == g * (1.0 / BALL_MASS);
    assert BALL_RADIUS * DrawSpin(f, cos, sin) == k * (BACK * p + (BACK * STEEP + LOW) * g);
    assert 6.0 * (1.0 / BALL_MASS) < k * (BACK * STEEP + LOW);
  }

  lemma DrawTurns(env: Env, x: real, y: real)
    requires UpTable(env)
    ensures RotateDeg(env, Vector(x, y, 0.0), 180.0) == Vector(-x, -y, 0.0)
  {
  }

  lemma DrawStrike(env: Env, v: real) returns (f: real)
    requires Exact(env) && Steep(env) && v > 0.0
    ensures f > 0.0
    ensures StrikeVelocity(env, Drawn(v)) == Vector(0.0, DrawSpeed(f, env.cos(RAISED)), 0.0)
    ensures StrikeSpin(env, Drawn(v)) == Vector(DrawSpin(f, env.cos(RAISED), env.sin(RAISED)), 0.0, 0.0)
  {
    DrawDepth(env, v);
    hide StrikeForce, StrikeDepth, RotateDeg, DrawSpeed, DrawSpin;
    var sp := Drawn(v);
    var cos, sin, c := env.cos(sp.theta), env.sin(sp.theta), StrikeDepth(env, sp);
    f := StrikeForce(sp, c, cos, sin);
    ForcePositive(sp, c, cos, sin);
    assert sp.phi + 90.0 == 180.0;
    DrawTurns(env, 0.0, StrikeSpeed(env, sp));
    SpeedIs(f, cos);
    SpinIs(f, cos, sin);
    DrawTurns(env, -DrawSpin(f, cos, sin), 0.0);
  }

  lemma SpeedIs(f: real, cos: real)
    ensures -f * cos / BALL_MASS == -DrawSpeed(f, cos)
  {
  }

  lemma SpinIs(f: real, cos: real, sin: real)
    ensures Vector(-(BACK * BALL_RADIUS) * f * sin + -(LOW * BALL_RADIUS) * f * cos, 0.0 * f * sin, -0.0 * f * cos).Times(1.0 / INERTIA)
         == Vector(-DrawSpin(f, cos, sin), 0.0, 0.0)
  {
    var k := f * BALL_RADIUS * (BACK * sin + LOW * cos);
    assert -(BACK * BALL_RADIUS) * f * sin + -(LOW * BALL_RADIUS) * f * cos == -k;
  }

  /** Struck so, a ball at rest on the line backs away from it. */
  lemma StruckBacks(env: Env, b: Ball, speed: real) returns (v: real, slip: real)
    requires Exact(env) && Steep(env) && speed > 0.0 && b.InPlay() && b.r.y == BALL_RADIUS
    ensures Backing(env, StrikeBall(env, b, Drawn(speed)), v, slip)
  {
    hide StrikeVelocity, StrikeSpin, Mag;
    var f := DrawStrike(env, speed);
    DrawStrong(f, env.cos(RAISED), env.sin(RAISED));
    hide DrawSpeed, DrawSpin, Drawn;
    v, slip := DrawSpeed(f, env.cos(RAISED)), DrawSlip(f, env.cos(RAISED), env.sin(RAISED));
    var struck := b.(v := StrikeVelocity(env, Drawn(speed)), w := StrikeSpin(env, Drawn(speed)));
    assert struck.Slip() == Vector(0.0, slip, 0.0);
    UpdateStateExact(env, struck);
  }

  // ---------------------------------------------------------------- the cue is clear

  /** A table the simulator accepts, its balls between the cushions and the cue ball frozen to the south one. */
  ghost predicate Frozen(env: Env, balls: seq<Ball>) {
    && Ready(balls) && Apart(balls) && Get(balls, CUE).r.y == BALL_RADIUS
    && forall i :: 0 <= i < |balls| && balls[i].InPlay() ==> env.table.Holds(balls[i].r)
  }

  /** Where the test has the tip of the cue. */
  lemma DrawTip(env: Env, v: real)
    requires Exact(env)
    ensures var m := Widened(Draw(v)); var h := Depth(env, m);
      && m.b == 0.000001 - LOW * BALL_RADIUS && m.theta == RAISED + EPSILON_THETA && m.a == 0.0 && m.phi == 90.0
      && DepthSquared(m) >= 0.0 && h * h + m.b * m.b == BALL_RADIUS * BALL_RADIUS && 0.0 <= h <= BACK * BALL_RADIUS + 0.000002
  {
    assert IsRoot(env.root);
    var m := Widened(Draw(v));
    assert m.b == 0.000001 - LOW * BALL_RADIUS;
    var h, top := Depth(env, m), BACK * BALL_RADIUS + 0.000002;
    assert h * h + m.b * m.b == BALL_RADIUS * BALL_RADIUS;
    assert h * h <= top * top;
    if h > top {
      var p := Product(h - top, h + top);
    }
  }

  /** It passes over all balls between the cushions that do not overlap the cue ball. */
  lemma DrawMisses(env: Env, balls: seq<Ball>, v: real, i: nat)
    requires Exact(env) && Steep(env) && Frozen(env, balls) && i < |balls| && balls[i].InPlay() && balls[i].id != CUE
    ensures var m := Widened(Draw(v)); var r := Get(balls, CUE).r;
      !Meets(env, Vector(0.0, -env.cos(m.theta), env.sin(m.theta)), Seen(env, r, m, balls[i].r))
  {
    hide Widened, Draw, Depth, DepthSquared, Closeness, Meets;
    DrawTip(env, v);
    var m, r, p := Widened(Draw(v)), Get(balls, CUE).r, balls[i].r;
    var c, s, h := env.cos(m.theta), env.sin(m.theta), Depth(env, m);
    var x, y := p.x - r.x, p.y - r.y;
    Distant(balls, i);
    ApartBy(p, r);
    Overhead(c, s, h, m.b);
    assert c * c + s * s == 1.0;
    SteepClear(env, c, s, h, m.b, x, y);
    assert Seen(env, r, m, p) == Vector(x, y + h, -m.b);
  }

  lemma Overhead(c: real, s: real, h: real, b: real)
    requires c > 0.0 && s >= STEEP * c && b == 0.000001 - LOW * BALL_RADIUS && h <= BACK * BALL_RADIUS + 0.000002
    ensures s > 0.0 && c * h + s * b <= 0.0
  {
    var p := Product(s - STEEP * c, -b);
    var q := Product(c, -(STEEP * b) - h);
  }

  lemma Distant(balls: seq<Ball>, i: nat)
    requires Ready(balls) && Apart(balls) && i < |balls| && balls[i].InPlay() && balls[i].id != CUE
    ensures var p, q := balls[i].r, Get(balls, CUE).r; Closeness(p, q) <= 0.0 || Closeness(q, p) <= 0.0
  {
    hide Closeness;
    var k :| 0 <= k < |balls| && balls[k].id == CUE && balls[k].InPlay();
    FindAt(balls, k);
    if k < i {
      assert !Clash(balls, i, k);
    } else {
      assert !Clash(balls, k, i);
    }
  }

  lemma ApartBy(p: Point, q: Point)
    requires Closeness(p, q) <= 0.0 || Closeness(q, p) <= 0.0
    ensures var x, y := p.x - q.x, p.y - q.y; x * x + y * y >= 4.0 * BALL_RADIUS * BALL_RADIUS
  {
    var x, y := p.x - q.x, p.y - q.y;
    assert Closeness(p, q) == 4.0 * BALL_RADIUS * BALL_RADIUS - x * x - y * y;
    assert Closeness(q, p) == 4.0 * BALL_RADIUS * BALL_RADIUS - -x * -x - -y * -y;
  }

  /** So the clearance test allows the strike. */
  lemma DrawAllowed(env: Env, balls: seq<Ball>, v: real)
    requires Exact(env) && Steep(env) && env.table == DEFAULT_TABLE && Frozen(env, balls) && 0.0 < v <= MAX_VELOCITY
    ensures PhysicallyPossible(env, balls, Draw(v))
  {
    hide Depth, DepthSquared, Meets, Seen, Tip, Butt, RailBlocks, Frozen, PhysicallyPossible;
    DrawTip(env, v);
    var m, r := Widened(Draw(v)), Get(balls, CUE).r;
    FrozenAt(env, balls);
    SouthOver(env, r, m, STEEP);
    forall i | 0 <= i < |balls| && balls[i].InPlay() && balls[i].id != CUE
      ensures !Meets(env, Vector(0.0, -env.cos(m.theta), env.sin(m.theta)), Seen(env, r, m, balls[i].r))
    {
      DrawMisses(env, balls, v, i);
    }
    UpAllowed(env, balls, Draw(v));
  }

  lemma FrozenAt(env: Env, balls: seq<Ball>)
    requires Frozen(env, balls)
    ensures Get(balls, CUE).r.y == BALL_RADIUS
  {
  }

  // ---------------------------------------------------------------- the shot

  /** On the default table the shot is allowed and begins; after the strike the cue ball is on its way
      back to the cushion, within its slide, and no collision with that cushion is queued. */
  lemma ReturnMissed(env: Env, balls: seq<Ball>, speed: real) returns (next: Sim, v: real, slip: real)
    requires Exact(env) && QuadraticsRight(env) && Steep(env) && env.table == DEFAULT_TABLE
    requires Frozen(env, balls) && 0.0 < speed <= MAX_VELOCITY
    ensures PhysicallyPossible(env, balls, Draw(speed))
    ensures Step(FastFiz(env, Allows(env)), Start(balls, Draw(speed)), true) == Continue(next)
    ensures Backing(env, At(next, CUE), v, slip)
    ensures Return(env, v) < TransitionDelay(env, At(next, CUE)) && OnLine(env, At(next, CUE), SouthLine, Return(env, v))
    ensures forall e :: e in next.queue && e.ball1 == CUE ==> e.kind != RailCollision(South)
  {
    hide Lawful, Inv, Predicted, OnLine, Return, TransitionDelay, Backing, BallForecast, BoundaryEvents, Filter;
    hide PhysicallyPossible, Steep, Separate, React;
    DrawAllowed(env, balls, speed);
    var w, sp := FastFiz(env, Allows(env)), Draw(speed);
    FastFizLawful(env, Allows(env));
    SeparateAgain(env, balls, PASSES);
    StrikeStep(w, balls, sp);
    next := React(w, balls, Start(balls, sp).queue[0], [], []);
    StrikeActs(env, Allows(env), balls, sp, next);
    assert Cause(Start(balls, sp)).kind == CueStrike(Drawn(speed));
    v, slip := StruckBacks(env, Get(balls, CUE), speed);
    ReturnUnseen(env, At(next, CUE), next.now, v, slip);
    QueueOfCue(env, Allows(env), balls, sp, next);
    forall r | r in next.queue && r.ball1 == CUE
      ensures r.kind != RailCollision(South)
    {
      if r.kind.RailCollision? {
        FilterKeeps(next.queue, AloneP(CUE), r);
        assert r in BallForecast(w, next.balls, next.now, CUE);
        ForecastRails(env, Allows(env), next, r);
      }
    }
  }

  lemma ForecastRails(env: Env, possible: (seq<Ball>, ShotParams) -> bool, s: Sim, e: Event)
    requires e in BallForecast(FastFiz(env, possible), s.balls, s.now, CUE) && e.kind.RailCollision?
    ensures e in BoundaryEvents(env, At(s, CUE), s.now)
  {
    hide BoundaryEvents;
  }

  /** What is queued for the cue ball alone is what was just predicted. */
  lemma QueueOfCue(env: Env, possible: (seq<Ball>, ShotParams) -> bool, balls: seq<Ball>, sp: ShotParams, next: Sim)
    requires Ready(balls) && Step(FastFiz(env, possible), Start(balls, sp), true) == Continue(next)
    ensures OfBall(next.queue, CUE) == BallForecast(FastFiz(env, possible), next.balls, next.now, CUE)
  {
    hide Lawful, Inv, Predicted, Filter, BallForecast, PairForecast, Step;
    FastFizLawful(env, possible);
    StartInv(balls, sp);
    var s := Start(balls, sp);
    var mid := TraceStep(FastFiz(env, possible), s, next);
    var i :| 0 <= i < |balls| && balls[i].id == CUE && balls[i].InPlay();
    SameIdsFind(balls, next.balls, CUE);
    StepSelected(FastFiz(env, possible), s, next, CUE, CUE);
  }
}
