/** A shot of FastFiz that breaks off: the cue ball is struck straight at the ball it lies against. The
    contact at the present is not predicted, the cue ball is driven into that ball, and `fixOverlap` gives
    up with the cue ball still moving. */
module Jams {
  import opened Wrappers
  import opened Vectors
  import opened Balls
  import opened Events
  import opened Kinematics
  import opened Clearance
  import opened ExactMotion
  import opened Scheduling
  import opened SchedulerLaws
  import opened SchedulerInvariants
  import opened Overlapping
  import opened Collisions
  import opened Prediction
  import opened ContactTimes
  import opened Physics
  import opened StablePredictions
  import opened Games
  import opened EightBall
  import N = NineBall

  // ---------------------------------------------------------------- two balls pushed in vain

  /** Of all balls only those in slots 0 and `b` are in play, and their centres within `d` of lying one
      radius apart along the table. */
  ghost predicate Jam(balls: seq<Ball>, b: nat, d: real) {
    && 0 < b < |balls| && balls[0].InPlay() && balls[b].InPlay()
    && (forall i :: 0 < i < |balls| && i != b ==> !balls[i].InPlay())
    && -d <= balls[b].r.x - balls[0].r.x <= d
    && BALL_RADIUS - d <= balls[b].r.y - balls[0].r.y <= BALL_RADIUS + d
  }

  const SLACK: real := BALL_RADIUS / 10.0

  lemma SquareBelow(x: real, m: real)
    requires -m <= x <= m
    ensures x * x <= m * m
  {
    var p := Product(m - x, m + x);
    assert p == m * m - x * x;
  }

  lemma DeepCloseness(p: Point, q: Point)
    requires -SLACK <= p.x - q.x <= SLACK && 0.9 * BALL_RADIUS <= p.y - q.y <= 1.1 * BALL_RADIUS
    ensures Closeness(p, q) > 0.0
  {
    var x, y, r := p.x - q.x, p.y - q.y, BALL_RADIUS;
    SquareBelow(x, SLACK);
    SquareBelow(y, 1.1 * r);
    assert Closeness(p, q) == 4.0 * r * r - x * x - y * y;
    assert SLACK * SLACK + (1.1 * r) * (1.1 * r) < 4.0 * r * r;
  }

  lemma JamClashes(balls: seq<Ball>, b: nat, d: real, i: nat, j: nat)
    requires Jam(balls, b, d) && 0.0 <= d <= SLACK && j < i < |balls|
    ensures Clash(balls, i, j) <==> i == b && j == 0
  {
    if i == b && j == 0 {
      DeepCloseness(balls[b].r, balls[0].r);
    }
  }

  /** A unit vector has no component beyond one. */
  lemma NormBounded(env: Env, v: Vector)
    requires ExactRoot(env.root) && v != ZERO && v.z == 0.0
    ensures Mag(env.root, v) > 0.0
    ensures -1.0 <= Norm(env.root, v).x <= 1.0 && -1.0 <= Norm(env.root, v).y <= 1.0
  {
    DirectionUnit(env, v);
    hide Mag;
    var h := Norm(env.root, v);
    var p := Square(h.x);
    var q := Square(h.y);
    UnitBound(h.x);
    UnitBound(h.y);
  }

  lemma UnitBound(x: real)
    requires x * x <= 1.0
    ensures -1.0 <= x <= 1.0
  {
    if x > 1.0 {
      var p := Product(x - 1.0, x + 1.0);
    } else if x < -1.0 {
      var p := Product(-x - 1.0, 1.0 - x);
    }
  }

  /** A push is a step of that length along the line of centres. */
  function Pushed(p: Point, n: Vector, e: real): Point { Point(Stepped(p.x, n.x, e), Stepped(p.y, n.y, e)) }

  function Stepped(x: real, n: real, e: real): real { x + n * e }

  lemma PushIs(env: Env, b: Ball, other: Ball)
    requires b.r != other.r
    ensures var v := b.r.Minus(other.r).ToVector();
      v != ZERO && v.z == 0.0 && (Mag(env.root, v) != 0.0 ==> MoveAway(env, b, other) == Some(b.(r := Pushed(b.r, Norm(env.root, v), env.epsilon))))
  {
    hide Mag, Norm;
  }

  /** One push moves a ball by at most the threshold along each axis. */
  lemma PushBounded(env: Env, b: Ball, other: Ball)
    requires ExactRoot(env.root) && b.r != other.r
    ensures MoveAway(env, b, other).Some?
    ensures var c := MoveAway(env, b, other).value;
      && c == b.(r := c.r)
      && -env.epsilon <= c.r.x - b.r.x <= env.epsilon && -env.epsilon <= c.r.y - b.r.y <= env.epsilon
  {
    PushIs(env, b, other);
    hide Mag, Norm, MoveAway, Pushed;
    var v := b.r.Minus(other.r).ToVector();
    NormBounded(env, v);
    PushedNear(b.r, Norm(env.root, v), env.epsilon);
  }

  lemma PushedNear(p: Point, n: Vector, e: real)
    requires -1.0 <= n.x <= 1.0 && -1.0 <= n.y <= 1.0 && 0.0 <= e
    ensures -e <= Pushed(p, n, e).x - p.x <= e && -e <= Pushed(p, n, e).y - p.y <= e
  {
    hide Stepped;
    Scaled(p.x, n.x, e);
    Scaled(p.y, n.y, e);
  }

  lemma Scaled(x: real, n: real, e: real)
    requires -1.0 <= n <= 1.0 && 0.0 <= e
    ensures -e <= Stepped(x, n, e) - x <= e
  {
    var p := Product(1.0 - n, e);
    var q := Product(1.0 + n, e);
  }

  lemma JamNudge(env: Env, balls: seq<Ball>, b: nat, d: real)
    requires ExactRoot(env.root) && env.epsilon <= SLACK && Jam(balls, b, d) && 0.0 <= d <= SLACK
    ensures var r := Nudge(env, balls, b, 0); r.Pushed? && Jam(r.balls, b, d + 2.0 * env.epsilon)
  {
    hide MoveAway;
    PushBounded(env, balls[b], balls[0]);
    var first := MoveAway(env, balls[b], balls[0]).value;
    PushBounded(env, balls[0], first);
  }

  /** A pass pushes the two balls once. */
  lemma {:induction false} JamPass(env: Env, balls: seq<Ball>, b: nat, d: real, i: nat, j: nat, moved: bool)
    requires ExactRoot(env.root) && env.epsilon <= SLACK && Jam(balls, b, d) && 0.0 <= d && d + 2.0 * env.epsilon <= SLACK
    requires i <= |balls|
    ensures var p := PassFrom(env, balls, i, j, moved);
      p.Pass? && if i < b || (i == b && j == 0) then p.moved && Jam(p.balls, b, d + 2.0 * env.epsilon) else p.moved == moved && p.balls == balls
    decreases |balls| - i, i - j
  {
    hide Jam, Nudge, Clash;
    JamSlots(balls, b, d);
    if i < |balls| {
      if j >= i {
        JamPass(env, balls, b, d, i + 1, 0, moved);
      } else {
        JamClashes(balls, b, d, i, j);
        if Clash(balls, i, j) {
          JamNudge(env, balls, b, d);
          var next := Nudge(env, balls, b, 0).balls;
          JamQuiet(env, next, b, d + 2.0 * env.epsilon, i, j + 1);
        } else {
          JamPass(env, balls, b, d, i, j + 1, moved);
        }
      }
    }
  }

  lemma JamSlots(balls: seq<Ball>, b: nat, d: real)
    requires Jam(balls, b, d)
    ensures 0 < b < |balls|
  {
  }

  /** After that the pass finds nothing more. */
  lemma {:induction false} JamQuiet(env: Env, balls: seq<Ball>, b: nat, d: real, i: nat, j: nat)
    requires Jam(balls, b, d) && 0.0 <= d <= SLACK && i <= |balls| && (i > b || (i == b && j > 0))
    ensures PassFrom(env, balls, i, j, true) == Pass(balls, true)
    decreases |balls| - i, i - j
  {
    hide Jam, Nudge, Clash;
    if i < |balls| {
      if j >= i {
        JamQuiet(env, balls, b, d, i + 1, 0);
      } else {
        JamClashes(balls, b, d, i, j);
        JamQuiet(env, balls, b, d, i, j + 1);
      }
    }
  }

  /** Two balls that overlap so deeply are never separated. */
  lemma {:induction false} JamStays(env: Env, balls: seq<Ball>, b: nat, d: real, count: nat)
    requires ExactRoot(env.root) && env.epsilon <= SLACK && Jam(balls, b, d) && 0 < count
    requires 0.0 <= d && d + 2.0 * env.epsilon * count as real <= SLACK
    ensures Separate(env, balls, count).StillOverlapping?
    decreases count
  {
    hide Jam, PassFrom, Clash;
    JamSlots(balls, b, d);
    var e := 2.0 * env.epsilon;
    assert e * count as real == e + e * (count - 1) as real;
    var rest := Product(e, (count - 1) as real);
    JamPass(env, balls, b, d, 0, 0, false);
    var next := PassFrom(env, balls, 0, 0, false).balls;
    if count > 1 {
      JamStays(env, next, b, d + e, count - 1);
    } else {
      JamSlots(next, b, d + e);
      JamClashes(next, b, d + e, b, 0);
      assert AnyClash(next);
    }
  }

  // ---------------------------------------------------------------- the table and the shot

  /** FastFiz on the default table, with an exact square root, small thresholds and solvers that are
      right. */
  ghost predicate Ideal(env: Env) {
    && env.table == DEFAULT_TABLE && ExactRoot(env.root)
    && env.epsilon <= 0.00001 && env.velocityEpsilon <= 0.00001
    && QuadraticsRight(env) && RootsExact(env)
  }

  /** `k` is the speed at which a ball without spin slides just one radius. */
  ghost predicate Tuned(env: Env, k: real) {
    var h := env.table.muSliding * G; k > 0.1 && h > 0.0 && 12.0 * (k * k) == 49.0 * h * BALL_RADIUS
  }

  lemma SomeSpeed(env: Env) returns (k: real)
    requires Ideal(env)
    ensures Tuned(env, k)
  {
    assert IsRoot(env.root);
    var h := env.table.muSliding * G;
    k := env.root(49.0 / 12.0 * h * BALL_RADIUS);
    assert k * k == 49.0 / 12.0 * h * BALL_RADIUS;
    if k <= 0.1 {
      SquareBelow(k, 0.1);
    }
  }

  /** How long that slide lasts. */
  function SlideTime(env: Env, k: real): real { 2.0 * k / (7.0 * env.table.muSliding * G) }

  lemma SlideTimeIs(env: Env, k: real)
    requires Tuned(env, k)
    ensures var h, t := env.table.muSliding * G, SlideTime(env, k); 7.0 * (h * t) == 2.0 * k && t > 0.0
  {
    var h := env.table.muSliding * G;
    assert 7.0 * env.table.muSliding * G == 7.0 * h;
    Ratio(2.0 * k, 7.0 * env.table.muSliding * G);
    Positive(2.0 * k, 7.0 * env.table.muSliding * G);
  }

  /** Where the cue ball lies: in the middle of the head string. */
  function Base(env: Env): Point { Point(env.table.width / 2.0, env.table.HeadString()) }

  /** The cue ball there, another ball against it straight up the table, and all others in a pocket. */
  function Stand(env: Env, i: nat, target: BallId): Ball
    requires i < 16
  {
    if i == 0 then BallData(CUE, Stationary, Base(env), ZERO, ZERO)
    else if i == target then BallData(i, Stationary, Point(Base(env).x, Base(env).y + 2.0 * BALL_RADIUS), ZERO, ZERO)
    else BallData(i, InPocket(SW), Point(0.0, 0.0), ZERO, ZERO)
  }

  function EndGame(env: Env, n: nat, target: BallId): seq<Ball>
    requires n <= 16
  {
    seq<Ball>(n, i requires 0 <= i < n => Stand(env, i, target))
  }

  lemma EndGameReady(env: Env, n: nat, target: BallId)
    requires 0 < target < n <= 16
    ensures var balls := EndGame(env, n, target);
      && |balls| == n && Full(balls, n) && AtRest(balls) && Ready(balls) && OnTable(balls, target) && Apart(balls)
      && Get(balls, CUE) == balls[0]
  {
    var balls := EndGame(env, n, target);
    hide Stand;
    forall i | 0 <= i < n
      ensures balls[i].id == i && (balls[i].InPlay() <==> i == 0 || i == target) && (balls[i].InPlay() ==> balls[i].state.Stationary?)
    {
      StandIs(env, i, target);
    }
    forall id: BallId | id < n
      ensures Find(balls, id) < |balls|
    {
      assert balls[id].id == id;
    }
    assert balls[0].id == CUE && balls[target].id == target;
    assert OnTable(balls, CUE);
    forall i: nat, j: nat | j < i < |balls|
      ensures !Clash(balls, i, j)
    {
      if i == target && j == 0 {
        StandIs(env, i, target);
        StandIs(env, 0, target);
        StandApart(balls[i].r, balls[0].r);
      }
    }
  }

  lemma StandIs(env: Env, i: nat, target: BallId)
    requires i < 16 && 0 < target
    ensures var b := Stand(env, i, target);
      && b.id == i && (b.InPlay() <==> i == 0 || i == target) && (b.InPlay() ==> b.state.Stationary?)
      && (i == 0 ==> b.r == Base(env)) && (i == target ==> b.r.x == Base(env).x && b.r.y - Base(env).y == 2.0 * BALL_RADIUS)
  {
  }

  lemma StandApart(p: Point, q: Point)
    requires p.x == q.x && p.y - q.y == 2.0 * BALL_RADIUS
    ensures Closeness(p, q) <= 0.0
  {
    var y := p.y - q.y;
    assert y * y == 4.0 * BALL_RADIUS * BALL_RADIUS;
    assert Closeness(p, q) == 4.0 * BALL_RADIUS * BALL_RADIUS - y * y;
  }

  /** Cosine and sine of the angles of a level strike straight up the table. */
  ghost predicate Level(env: Env) {
    && UpTable(env) && env.cos(0.0) == 1.0 && env.sin(0.0) == 0.0
    && env.cos(EPSILON_THETA) >= 0.99 && env.sin(EPSILON_THETA) >= 0.0
  }

  /** Such a strike in the middle of the ball, which leaves it at speed `k`. */
  function Drive(k: real): ShotParams { ShotParams(0.0, 0.0, 0.0, 90.0, k * (1.0 + BALL_MASS / CUE_MASS) / 2.0) }

  lemma DriveIs(k: real)
    ensures var sp := Drive(k); sp.(a := sp.a / -1000.0, b := sp.b / 1000.0) == sp
  {
  }

  /** The cue ball sliding straight up the table from there, without spin. */
  ghost predicate Up(env: Env, b: Ball, k: real) {
    && b.id == CUE && b.state.Sliding? && k > 0.0 && b.r == Base(env)
    && b.v == Vector(0.0, k, 0.0) && b.Slip() == Vector(0.0, k, 0.0)
  }

  lemma UpVector(env: Env, k: real)
    requires ExactRoot(env.root) && k > 0.0
    ensures var v := Vector(0.0, k, 0.0); v != ZERO && Mag(env.root, v) == k && Direction(env, v) == Vector(0.0, 1.0, 0.0)
  {
    MagIs(env, Vector(0.0, k, 0.0), k);
    hide Mag;
    QuotientIs(k, k, 1.0);
    QuotientIs(0.0, k, 0.0);
  }

  lemma UpBasics(env: Env, b: Ball, k: real)
    requires ExactRoot(env.root) && Up(env, b, k)
    ensures Pull(b) == b.Slip() == b.v == Vector(0.0, k, 0.0) && b.Travelling() && Brake(env, b) == 0.5 * env.table.muSliding * G
    ensures Mag(env.root, b.Slip()) == k && Direction(env, Pull(b)) == Vector(0.0, 1.0, 0.0)
  {
    UpVector(env, k);
    hide Mag, Direction;
  }

  lemma UpDelay(env: Env, b: Ball, k: real)
    requires ExactRoot(env.root) && Up(env, b, k)
    ensures TransitionDelay(env, b) == SlideTime(env, k)
  {
    UpBasics(env, b, k);
    hide Mag, Direction, BallData.Slip;
  }

  lemma StraightForce(c: real, k: real)
    ensures StrikeForce(Drive(k), c, 1.0, 0.0) == BALL_MASS * k
  {
    var sp := Drive(k);
    StrikePositive(sp.a, sp.b, c, 1.0, 0.0);
    var m := 1.0 + BALL_MASS / CUE_MASS;
    QuotientIs(2.0 * BALL_MASS * sp.v, m, BALL_MASS * k);
  }

  lemma StraightMotion(env: Env, k: real)
    requires Level(env)
    ensures StrikeVelocity(env, Drive(k)) == Vector(0.0, k, 0.0) && StrikeSpin(env, Drive(k)) == ZERO
  {
    hide StrikeForce, StrikeDepth, Spun, Launched, Drive, RotateDeg;
    var sp := Drive(k);
    DriveFields(k);
    StraightForce(StrikeDepth(env, sp), k);
    SpunNone(StrikeDepth(env, sp), BALL_MASS * k);
    LaunchedLevel(k);
    assert sp.phi + 90.0 == 180.0;
    HalfTurn(env, -k);
  }

  lemma HalfTurn(env: Env, y: real)
    requires UpTable(env)
    ensures RotateDeg(env, Vector(0.0, y, 0.0), 180.0) == Vector(0.0, -y, 0.0) && RotateDeg(env, ZERO, 180.0) == ZERO
  {
  }

  lemma DriveFields(k: real)
    ensures Drive(k).a == 0.0 && Drive(k).b == 0.0 && Drive(k).theta == 0.0 && Drive(k).phi == 90.0
  {
  }

  lemma SpunNone(c: real, f: real)
    ensures Spun(0.0, 0.0, c, 1.0, 0.0, f) == ZERO
  {
  }

  lemma LaunchedLevel(k: real)
    ensures Launched(BALL_MASS * k, 1.0) == -k
  {
  }

  lemma Spinless(b: BallData)
    requires b.w == ZERO
    ensures b.Slip() == b.v
  {
    CrossZero(UP);
    TimesZero(BALL_RADIUS);
    hide Vector.Cross, Vector.Times;
    assert b.v.Plus(ZERO) == b.v;
  }

  lemma CrossZero(v: Vector)
    ensures v.Cross(ZERO) == ZERO
  {
  }

  lemma TimesZero(x: real)
    ensures ZERO.Times(x) == ZERO
  {
  }

  /** Struck so, a ball at rest there goes up the table. */
  lemma StraightStrike(env: Env, b: Ball, k: real)
    requires ExactRoot(env.root) && env.velocityEpsilon <= 0.1 && k > 0.1 && Level(env)
    requires b.id == CUE && b.InPlay() && b.r == Base(env)
    ensures Up(env, StrikeBall(env, b, Drive(k)), k)
  {
    hide StrikeVelocity, StrikeSpin, Mag, Drive, Direction, Vector.Rotate, BallData.Slip, ExactRoot;
    StraightMotion(env, k);
    UpVector(env, k);
    var struck := b.(v := StrikeVelocity(env, Drive(k)), w := StrikeSpin(env, Drive(k)));
    Spinless(struck);
    Spinless(struck.(state := Sliding));
    assert !VZero(env, Mag(env.root, struck.v));
  }

  // ---------------------------------------------------------------- the slide

  /** How far up it is after time `t`. */
  function Climb(env: Env, k: real, t: real): real { k * t - 0.5 * (env.table.muSliding * G) * (t * t) }

  lemma ClimbBounds(env: Env, k: real, t: real)
    requires Tuned(env, k) && 0.0 <= t <= SlideTime(env, k)
    ensures 0.0 <= Climb(env, k, t) <= BALL_RADIUS && Climb(env, k, SlideTime(env, k)) == BALL_RADIUS
  {
    SlideTimeIs(env, k);
    hide SlideTime;
    ClimbAt(k, env.table.muSliding * G, SlideTime(env, k), t);
  }

  lemma ClimbAt(k: real, h: real, end: real, t: real)
    requires h > 0.0 && k > 0.0 && 12.0 * (k * k) == 49.0 * h * BALL_RADIUS && 7.0 * (h * end) == 2.0 * k && 0.0 <= t <= end
    ensures 0.0 <= k * t - 0.5 * h * (t * t) <= BALL_RADIUS
    ensures k * end - 0.5 * h * (end * end) == BALL_RADIUS
  {
    var a := Product(h, end - t);
    var b := Product(t, k - 0.5 * (h * t));
    assert b == k * t - 0.5 * h * (t * t);
    var c := Product(end - t, k - 0.5 * (h * (end + t)));
    assert c == (k * end - 0.5 * h * (end * end)) - (k * t - 0.5 * h * (t * t));
    assert 7.0 * (h * (k * end)) == 2.0 * (k * k);
    assert 49.0 * ((h * end) * (h * end)) == 4.0 * (k * k);
    var x := k * end - 0.5 * h * (end * end);
    assert h * x == h * (k * end) - 0.5 * ((h * end) * (h * end));
    assert 49.0 * (h * x) == 12.0 * (k * k);
    if x != BALL_RADIUS {
      ZeroProduct(h, x - BALL_RADIUS);
      assert false;
    }
  }

  /** It goes straight up the middle. */
  lemma UpPath(env: Env, b: Ball, k: real, t: real)
    requires ExactRoot(env.root) && Up(env, b, k)
    ensures Where(env, b, t) == Point(Base(env).x, Base(env).y + Climb(env, k, t))
  {
    hide Mag, Direction, Where, Along, Pace, Climb, Brake, Pull, BallData.Slip, ExactRoot;
    UpBasics(env, b, k);
    Travels(env, b, t);
    StraightUp(env, Base(env).x, Base(env).y, k, Brake(env, b), t);
  }

  lemma StraightUp(env: Env, x: real, y: real, k: real, q: real, t: real)
    requires q == 0.5 * env.table.muSliding * G
    ensures Along(x, 0.0, Pace(q, 0.0), t) == x && Along(y, k, Pace(q, 1.0), t) == y + Climb(env, k, t)
  {
    assert q == 0.5 * (env.table.muSliding * G);
  }

  /** A point just above the middle of the head string is on no line. */
  lemma BaseOffLines(env: Env, line: Line, up: real)
    requires env.table == DEFAULT_TABLE && 0.0 <= CornerWidth(env) <= 0.2 && 0.0 <= up <= BALL_RADIUS
    ensures Past(env, line, Point(Base(env).x, Base(env).y + up)) != 0.0
  {
    hide CornerWidth;
  }

  /** Nowhere on that slide is it on the line of a cushion or a corner. */
  lemma OffLines(env: Env, b: Ball, k: real, line: Line, t: real)
    requires Ideal(env) && Tuned(env, k) && Up(env, b, k) && 0.0 <= t <= SlideTime(env, k)
    ensures !OnLine(env, b, line, t)
  {
    UpPath(env, b, k, t);
    ClimbBounds(env, k, t);
    CornerNarrow(env);
    BaseOffLines(env, line, Climb(env, k, t));
    hide Where, Climb, SlideTime, CornerWidth, Past, Up, Tuned;
  }

  lemma CornerNarrow(env: Env)
    requires Ideal(env)
    ensures 0.0 <= CornerWidth(env) <= 0.2
  {
    var r, c := env.root(2.0), env.table.cornerPocketWidth;
    RootPositive(env.root, 2.0);
    assert r * r == 2.0;
    if r < 1.0 {
      SquareBelow(r, 1.0);
    }
    Narrower(c, r);
  }

  lemma Narrower(c: real, r: real)
    requires 0.0 <= c && 1.0 <= r
    ensures 0.0 <= c / r <= c
  {
    Ratio(c, r);
    var q := c / r;
    if q < 0.0 {
      Smaller(q, r);
      assert false;
    }
    var p := Product(q, r - 1.0);
    assert p == c - q;
  }

  lemma Smaller(q: real, r: real)
    requires q < 0.0 && 1.0 <= r
    ensures q * r < 0.0
  {
    var p := Product(-q, r);
  }

  lemma IdealSolves(env: Env)
    requires Ideal(env)
    ensures ExactRoot(env.root) && QuadraticsRight(env)
  {
    hide ExactRoot, QuadraticsRight;
  }

  lemma NextLater(env: Env, b: Ball, k: real, line: Line)
    requires Ideal(env) && Tuned(env, k) && Up(env, b, k)
    ensures b.Travelling() && (NextOn(env, b, 0.0, line) == -1.0 || NextOn(env, b, 0.0, line) > SlideTime(env, k))
  {
    hide Ideal, NextOn, OnLine, Rides, SlideTime, Tuned, QuadraticsRight, ExactRoot;
    assert b.Travelling();
    hide Up;
    IdealSolves(env);
    NextOnIs(env, b, 0.0, line);
    var at := NextOn(env, b, 0.0, line);
    if at != -1.0 && at <= SlideTime(env, k) {
      OffLines(env, b, k, line, at);
      assert false;
    }
  }

  /** So its rails and pockets come after the slide. */
  lemma BoundaryLater(env: Env, b: Ball, k: real, e: Event)
    requires Ideal(env) && Tuned(env, k) && Up(env, b, k) && e in BoundaryEvents(env, b, 0.0)
    ensures e.time > SlideTime(env, k)
  {
    hide Ideal, BoundaryEvents, Piece, NextOn, SlideTime, Tuned;
    assert b.Travelling();
    hide Up;
    PiecesMake(env, b, 0.0);
    var line :| e in Piece(env, b, 0.0, line);
    PieceTimes(env, b, 0.0, line);
    NextLater(env, b, k, line);
  }

  /** What is queued for a line is queued for the time predicted, not before now. */
  lemma PieceTimes(env: Env, b: Ball, now: real, line: Line)
    requires b.Travelling() && 0.0 <= now
    ensures forall e :: e in Piece(env, b, now, line) ==> e.time == NextOn(env, b, now, line) && e.time >= 0.0
  {
    hide NextOn, Direction, Height;
  }

  // ---------------------------------------------------------------- the run

  /** What is queued for pairs was predicted for a pair. */
  lemma {:induction false} HitsPredicted(w: World, balls: seq<Ball>, now: real, b1: BallId, b2: BallId, i: nat, j: nat, e: Event) returns (y: nat)
    requires i < |balls| && j <= |balls| && e in HitsFrom(w, balls, now, b1, b2, i, j)
    ensures y < |balls| && i != y && w.collision(balls[i], balls[y], now) == Some(e)
    decreases |balls| - j
  {
    if e in HitOf(w, balls, now, b1, b2, i, j) {
      y := j;
    } else {
      y := HitsPredicted(w, balls, now, b1, b2, i, j + 1, e);
    }
  }

  lemma {:induction false} RowsPredicted(w: World, balls: seq<Ball>, now: real, b1: BallId, b2: BallId, i: nat, e: Event) returns (x: nat, y: nat)
    requires i <= |balls| && b1 != UNKNOWN_ID && e in RowsFrom(w, balls, now, b1, b2, i)
    ensures x < |balls| && y < |balls| && x != y && balls[x].Travelling() && w.collision(balls[x], balls[y], now) == Some(e)
    decreases |balls| - i
  {
    hide HitsFrom;
    if e in RowOf(w, balls, now, b1, b2, i) {
      x := i;
      y := HitsPredicted(w, balls, now, b1, b2, i, 0, e);
    } else {
      x, y := RowsPredicted(w, balls, now, b1, b2, i + 1, e);
    }
  }

  // ---------------------------------------------------------------- the next contact

  lemma ComplexQuartic(q: real, l: real, d: real, z: Complex)
    ensures var y := Complex(d, 0.0).Plus(z.Scaled(l)).Plus(z.Times(z).Scaled(q));
      ComplexValue(ContactQuartic(0.0, 0.0, 0.0, q, l, d), z) == y.Times(y).Plus(Complex(-4.0 * BALL_RADIUS * BALL_RADIUS, 0.0))
  {
    var w, p := z.Times(z), ContactQuartic(0.0, 0.0, 0.0, q, l, d);
    var y := Complex(d, 0.0).Plus(z.Scaled(l)).Plus(w.Scaled(q));
    TimesIs(z, z);
    TimesIs(z, w);
    TimesIs(w, w);
    TimesIs(y, y);
    hide Complex.Times;
    CoefficientsAre(q, l, d);
    hide ContactQuartic;
    SquareRe(p, q, l, d, z.re, z.im, w.re, w.im, y.re, y.im);
    SquareIm(p, q, l, d, z.re, z.im, w.re, w.im, y.re, y.im);
  }

  ghost predicate Coefficients(p: Quartic, q: real, l: real, d: real) {
    p.a0 == d * d - 4.0 * BALL_RADIUS * BALL_RADIUS && p.a1 == 2.0 * l * d && p.a2 == l * l + 2.0 * q * d && p.a3 == 2.0 * q * l && p.a4 == q * q
  }

  lemma CoefficientsAre(q: real, l: real, d: real)
    ensures Coefficients(ContactQuartic(0.0, 0.0, 0.0, q, l, d), q, l, d)
  {
  }

  lemma TimesIs(z: Complex, w: Complex)
    ensures z.Times(w) == Complex(z.re * w.re - z.im * w.im, z.re * w.im + z.im * w.re)
  {
  }

  lemma SquareRe(p: Quartic, q: real, l: real, d: real, x: real, y: real, u: real, v: real, a: real, b: real)
    requires Coefficients(p, q, l, d) && u == x * x - y * y && a == d + l * x + q * u && b == l * y + q * v
    ensures p.a0 + p.a1 * x + p.a2 * u + p.a3 * (x * u - y * v) + p.a4 * (u * u - v * v) == a * a - b * b - 4.0 * BALL_RADIUS * BALL_RADIUS
  {
    var sum := RealPart(q, l, d, x, y, u, v, a, b);
    ProductIs(p.a1, x, 2.0 * l * d, x);
    ProductIs(p.a2, u, l * l + 2.0 * q * d, u);
    ProductIs(p.a3, x * u - y * v, 2.0 * q * l, x * u - y * v);
    ProductIs(p.a4, u * u - v * v, q * q, u * u - v * v);
  }

  lemma RealPart(q: real, l: real, d: real, x: real, y: real, u: real, v: real, a: real, b: real) returns (sum: real)
    requires u == x * x - y * y && a == d + l * x + q * u && b == l * y + q * v
    ensures sum == a * a - b * b
    ensures sum == d * d + 2.0 * l * d * x + (l * l + 2.0 * q * d) * u + 2.0 * q * l * (x * u - y * v) + q * q * (u * u - v * v)
  {
    var s, t := (d + l * x + q * u) * (d + l * x + q * u), (l * y + q * v) * (l * y + q * v);
    ProductIs(a, a, d + l * x + q * u, d + l * x + q * u);
    ProductIs(b, b, l * y + q * v, l * y + q * v);
    sum := s - t;
    assert (l * l) * u == (l * l) * (x * x) - (l * l) * (y * y);
  }

  lemma SquareIm(p: Quartic, q: real, l: real, d: real, x: real, y: real, u: real, v: real, a: real, b: real)
    requires Coefficients(p, q, l, d) && v == x * y + y * x && a == d + l * x + q * u && b == l * y + q * v
    ensures p.a1 * y + p.a2 * v + p.a3 * (x * v + y * u) + p.a4 * (u * v + v * u) == a * b + b * a
  {
    assert (l * l) * v == 2.0 * ((l * l) * (x * y));
    ProductIs(a, b, d + l * x + q * u, l * y + q * v);
    ProductIs(p.a1, y, 2.0 * l * d, y);
    ProductIs(p.a2, v, l * l + 2.0 * q * d, v);
    ProductIs(p.a3, x * v + y * u, 2.0 * q * l, x * v + y * u);
    ProductIs(p.a4, u * v + v * u, q * q, u * v + v * u);
  }

  lemma ProductIs(a: real, b: real, x: real, y: real)
    requires a == x && b == y
    ensures a * b == x * y
  {
  }

  lemma SquareReal(y: Complex, r: real)
    requires r > 0.0 && y.Times(y).Plus(Complex(-r * r, 0.0)) == Complex(0.0, 0.0)
    ensures y.im == 0.0 && (y.re == r || y.re == -r)
  {
    var u := Square(y.re);
    var v := Square(y.im);
    var s := Square(r);
    assert u - v == s;
    assert y.re * y.im == 0.0;
    ZeroProduct(y.re, y.im);
    if y.re != 0.0 {
      assert (y.re - r) * (y.re + r) == u - s;
      ZeroProduct(y.re - r, y.re + r);
    }
  }

  /** The squared distance less four squared radii, at a complex time `x + iy`, is the square of this less
      four squared radii. */
  function GapRe(h: real, k: real, x: real, y: real): real { -2.0 * BALL_RADIUS + k * x - 0.5 * h * (x * x - y * y) }

  function GapIm(h: real, k: real, x: real, y: real): real { k * y - h * (x * y) }

  /** The two balls touch next when the cue ball would be back, were it to slide on; all other roots but
      the present are far from real. */
  lemma TouchesBack(h: real, k: real, x: real, y: real)
    requires 0.0 < h <= 2.0 && k > 0.0 && 12.0 * (k * k) == 49.0 * h * BALL_RADIUS && x > 0.0 && -0.00001 <= y <= 0.00001
    requires GapIm(h, k, x, y) == 0.0 && (GapRe(h, k, x, y) == 2.0 * BALL_RADIUS || GapRe(h, k, x, y) == -2.0 * BALL_RADIUS)
    ensures h * x == 2.0 * k
  {
    assert y * (k - h * x) == GapIm(h, k, x, y);
    ZeroProduct(y, k - h * x);
    if y == 0.0 {
      TouchesReal(h, k, x);
    } else {
      FarFromReal(h, k, x, y);
      assert false;
    }
  }

  lemma TouchesReal(h: real, k: real, x: real)
    requires 0.0 < h && k > 0.0 && 12.0 * (k * k) == 49.0 * h * BALL_RADIUS && x > 0.0
    requires GapRe(h, k, x, 0.0) == 2.0 * BALL_RADIUS || GapRe(h, k, x, 0.0) == -2.0 * BALL_RADIUS
    ensures h * x == 2.0 * k
  {
    var s := x * (k - 0.5 * (h * x));
    assert GapRe(h, k, x, 0.0) == -2.0 * BALL_RADIUS + s;
    var p := Square(h * x - k);
    var q := Product(h, BALL_RADIUS);
    assert p == k * k - 2.0 * (h * s);
    assert s == 4.0 * BALL_RADIUS ==> h * s == 4.0 * q;
    if s == 0.0 {
      ZeroProduct(x, k - 0.5 * (h * x));
    }
  }

  lemma FarFromReal(h: real, k: real, x: real, y: real)
    requires 0.0 < h <= 2.0 && 12.0 * (k * k) == 49.0 * h * BALL_RADIUS && h * x == k && -0.00001 <= y <= 0.00001
    ensures 0.0 < GapRe(h, k, x, y) < BALL_RADIUS
  {
    var z := k * x;
    assert h * z == k * k;
    assert 12.0 * (h * z) == 49.0 * (h * BALL_RADIUS);
    assert h * (12.0 * z - 49.0 * BALL_RADIUS) == 0.0;
    ZeroProduct(h, 12.0 * z - 49.0 * BALL_RADIUS);
    SquareBelow(y, 0.00001);
    var q := Square(y);
    var p := Product(h, q);
    var r := Product(2.0 - h, q);
    assert h * (x * x) == z;
    assert GapRe(h, k, x, y) == -2.0 * BALL_RADIUS + z - 0.5 * z + 0.5 * p;
  }

  lemma GapIs(h: real, k: real, x: real, y: real)
    ensures var z := Complex(x, y);
      Complex(-2.0 * BALL_RADIUS, 0.0).Plus(z.Scaled(k)).Plus(z.Times(z).Scaled(-(0.5 * h))) == Complex(GapRe(h, k, x, y), GapIm(h, k, x, y))
  {
  }

  /** The equation solved for the cue ball and the ball it lies against. */
  lemma EquationIs(env: Env, b: Ball, c: Ball, k: real)
    requires Ideal(env) && Tuned(env, k) && Up(env, b, k) && !c.Travelling() && c.r == Point(b.r.x, b.r.y + 2.0 * BALL_RADIUS)
    ensures b.Travelling() && CollisionRoot(env, b, c) == ContactTime(env, b, c, ReachingQuartic(env, b, c))
    ensures ReachingQuartic(env, b, c) == ContactQuartic(0.0, 0.0, 0.0, -(0.5 * (env.table.muSliding * G)), k, -2.0 * BALL_RADIUS)
  {
    hide Mag, Direction, BallData.Slip, ContactTime, ContactQuartic, QuadraticsRight, RootsExact, ExactRoot;
    UpBasics(env, b, k);
    assert 0.5 * env.table.muSliding * G == 0.5 * (env.table.muSliding * G);
  }

  /** A root taken for their next contact is one long after the slide. */
  lemma TouchLater(env: Env, b: Ball, c: Ball, k: real)
    requires Ideal(env) && Tuned(env, k) && Up(env, b, k) && !c.Travelling() && c.r == Point(b.r.x, b.r.y + 2.0 * BALL_RADIUS)
    ensures b.Travelling() && (CollisionRoot(env, b, c) <= 0.0 || CollisionRoot(env, b, c) > SlideTime(env, k))
  {
    EquationIs(env, b, c, k);
    SlideTimeIs(env, k);
    hide Ideal, Up, SlideTime, CollisionRoot, ReachingQuartic, ContactQuartic, LeastAmong, Floor, ComplexValue;
    var h, p := env.table.muSliding * G, ReachingQuartic(env, b, c);
    var roots := env.quartic(p.a0, p.a1, p.a2, p.a3, p.a4);
    if roots.Some? && CollisionRoot(env, b, c) > 0.0 {
      FloorSign(b, c);
      LeastIs(env, roots.value, Floor(b, c), 4);
      var i :| 0 <= i < 4 && Accepted(env, roots.value, Floor(b, c), i) && roots.value[i].0 == CollisionRoot(env, b, c);
      var x, y := roots.value[i].0, roots.value[i].1;
      RootLater(env, p, i, k);
      var later := Product(h, SlideTime(env, k));
      if x <= SlideTime(env, k) {
        var early := Product(h, SlideTime(env, k) - x);
        assert false;
      }
    }
  }

  lemma RootLater(env: Env, p: Quartic, i: nat, k: real)
    requires Ideal(env) && Tuned(env, k) && p == ContactQuartic(0.0, 0.0, 0.0, -(0.5 * (env.table.muSliding * G)), k, -2.0 * BALL_RADIUS)
    requires i < 4 && env.quartic(p.a0, p.a1, p.a2, p.a3, p.a4).Some?
    requires var root := env.quartic(p.a0, p.a1, p.a2, p.a3, p.a4).value[i]; FEqual(env, root.1, 0.0) && root.0 > 0.0
    ensures env.table.muSliding * G * env.quartic(p.a0, p.a1, p.a2, p.a3, p.a4).value[i].0 == 2.0 * k
  {
    assert RootExact(env, p, i);
    hide ContactQuartic, ComplexValue, Complex.Times, Complex.Plus, Complex.Scaled, RootsExact, QuadraticsRight;
    hide ExactRoot;
    var root := env.quartic(p.a0, p.a1, p.a2, p.a3, p.a4).value[i];
    var h := env.table.muSliding * G;
    ComplexQuartic(-(0.5 * h), k, -2.0 * BALL_RADIUS, Complex(root.0, root.1));
    GapIs(h, k, root.0, root.1);
    SquareReal(Complex(GapRe(h, k, root.0, root.1), GapIm(h, k, root.0, root.1)), 2.0 * BALL_RADIUS);
    TouchesBack(h, k, root.0, root.1);
  }

  lemma FirstOf(first: Event, rows: seq<Event>, more: seq<Event>)
    requires (forall e :: e in rows ==> e.time > first.time) && (forall e :: e in more ==> e.time > first.time)
    ensures MinIndex([first] + rows + more) == 0
  {
    hide MinIndex;
    var q := [first] + rows + more;
    forall i | 0 < i < |q|
      ensures q[i].time > q[0].time
    {
      assert q[i] in rows || q[i] in more;
    }
    assert q[MinIndex(q)].time <= q[0].time;
  }

  lemma PredictedIs(w: World, balls: seq<Ball>, now: real, b: BallId)
    requires b != UNKNOWN_ID
    ensures Predicted(w, balls, now, b, UNKNOWN_ID)
         == List(w.transition(Get(balls, b), now)) + RowsFrom(w, balls, now, b, UNKNOWN_ID, 0) + w.boundary(Get(balls, b), now)
  {
    hide RowsFrom, Get;
  }

  /** The table once the cue ball has been struck. */
  ghost predicate Underway(env: Env, n: nat, target: BallId, balls: seq<Ball>, k: real) {
    0 < target < n <= 16 && |balls| == n && balls == EndGame(env, n, target)[0 := balls[0]] && Up(env, balls[0], k)
  }

  lemma UnderwayIs(env: Env, n: nat, target: BallId, balls: seq<Ball>, k: real)
    requires Underway(env, n, target, balls, k)
    ensures |balls| == n && balls[0].Travelling() && Get(balls, CUE) == balls[0]
    ensures forall i :: 0 < i < n ==> balls[i].id == i && !balls[i].Travelling() && (balls[i].InPlay() <==> i == target)
    ensures balls[target].r == Point(balls[0].r.x, balls[0].r.y + 2.0 * BALL_RADIUS)
  {
    hide Stand;
    forall i | 0 < i < n
      ensures balls[i] == Stand(env, i, target) && balls[i].id == i && !balls[i].Travelling() && (balls[i].InPlay() <==> i == target)
    {
      StandIs(env, i, target);
    }
    StandIs(env, target, target);
    assert Find(balls, CUE) == 0;
  }

  /** The only pair predicted touches after the slide. */
  lemma HitLater(env: Env, n: nat, target: BallId, balls: seq<Ball>, k: real, e: Event)
    requires Ideal(env) && Tuned(env, k) && Underway(env, n, target, balls, k)
    requires e in RowsFrom(FastFiz(env, Allows(env)), balls, 0.0, CUE, UNKNOWN_ID, 0)
    ensures e.time > SlideTime(env, k)
  {
    hide RowsFrom, CollisionRoot, SlideTime, Tuned, Ideal, Get;
    UnderwayIs(env, n, target, balls, k);
    var x, y := RowsPredicted(FastFiz(env, Allows(env)), balls, 0.0, CUE, UNKNOWN_ID, 0, e);
    assert NextCollisionEvent(env, balls[x], balls[y], 0.0) == Some(e);
    assert x == 0 && y == target;
    TouchLater(env, balls[0], balls[target], k);
  }

  /** Once the cue ball is struck, its transition is the first event queued. */
  lemma QueueAfter(env: Env, n: nat, target: BallId, balls: seq<Ball>, k: real)
    requires Ideal(env) && Tuned(env, k) && Underway(env, n, target, balls, k)
    ensures var q := Predicted(FastFiz(env, Allows(env)), balls, 0.0, CUE, UNKNOWN_ID);
      q != [] && MinIndex(q) == 0 && q[0] == Event(SlideTime(env, k), CUE, StateChange)
  {
    hide RowsFrom, BoundaryEvents, TransitionDelay, SlideTime, Tuned, Get, MinIndex, EndGame, Ideal, Predicted;
    hide PhysicallyPossible;
    var w, b := FastFiz(env, Allows(env)), balls[0];
    UnderwayIs(env, n, target, balls, k);
    IdealSolves(env);
    UpDelay(env, b, k);
    var rows := RowsFrom(w, balls, 0.0, CUE, UNKNOWN_ID, 0);
    PredictedIs(w, balls, 0.0, CUE);
    assert w.transition(b, 0.0) == Some(Event(SlideTime(env, k), CUE, StateChange));
    forall e | e in rows
      ensures e.time > SlideTime(env, k)
    {
      HitLater(env, n, target, balls, k, e);
    }
    forall e | e in BoundaryEvents(env, b, 0.0)
      ensures e.time > SlideTime(env, k)
    {
      BoundaryLater(env, b, k, e);
    }
    FirstOf(Event(SlideTime(env, k), CUE, StateChange), rows, BoundaryEvents(env, b, 0.0));
  }

  /** At the end of the slide the ball is one radius further up and still moving. */
  lemma SlideEnds(env: Env, b: Ball, k: real)
    requires Ideal(env) && Tuned(env, k) && Up(env, b, k)
    ensures var c := UpdateBall(env, b, 0.0, SlideTime(env, k));
      && c.id == CUE && c.Moving()
      && c.r == Point(Base(env).x, Base(env).y + BALL_RADIUS)
  {
    hide Mag, Direction, Slide, SlideForm, SlideTime, Snap, BallData.Slip, Climb, UpdateSpinning;
    var t := SlideTime(env, k);
    SlideTimeIs(env, k);
    ClimbBounds(env, k, t);
    UpPath(env, b, k, t);
    DriftFlat(env, b, t);
    SlideExact(env, b, t);
    StillUp(env, b, k);
    assert t - 0.0 == t;
  }

  /** Its velocity then, too large to be taken for none. */
  lemma StillUp(env: Env, b: Ball, k: real)
    requires Ideal(env) && Tuned(env, k) && Up(env, b, k)
    ensures var v := Snap(env, SlideForm(env, b, SlideTime(env, k)).1);
      v.z == 0.0 && !VZero(env, Mag(env.root, v))
  {
    hide Mag, Direction, SlideTime, UpdateSpinning, Twist, BallData.Slip;
    var t := SlideTime(env, k);
    SlideTimeIs(env, k);
    UpBasics(env, b, k);
    var m := 5.0 * k / 7.0;
    assert Drag(env.table.muSliding, t) == -(env.table.muSliding * G * t);
    assert SlideForm(env, b, t).1 == Vector(0.0, m, 0.0);
    UpVector(env, m);
    assert Snap(env, Vector(0.0, m, 0.0)) == Vector(0.0, m, 0.0);
  }

  /** The table at that moment cannot be separated. */
  lemma EndStuck(env: Env, balls: seq<Ball>, target: nat)
    requires Ideal(env) && 0 < target < |balls| && balls[0].InPlay() && balls[target].InPlay()
    requires forall i :: 0 < i < |balls| && i != target ==> !balls[i].InPlay()
    requires balls[target].r.x == balls[0].r.x && balls[target].r.y - balls[0].r.y == BALL_RADIUS
    ensures Separate(env, balls, PASSES).StillOverlapping?
  {
    hide Separate;
    assert Jam(balls, target, 0.0);
    JamStays(env, balls, target, 0.0, PASSES);
  }

  // ---------------------------------------------------------------- the call

  lemma ReactAlone(w: World, balls: seq<Ball>, e: Event)
    ensures var after := Handle(w, balls, e);
      var next := React(w, balls, e, [], []);
      next.balls == after && next.now == e.time && next.queue == Predicted(w, after, e.time, e.ball1, e.Ball2())
  {
    hide Handle, Predicted;
  }

  /** The strike is handled, and the cue ball is on its way with its transition next. */
  lemma FirstStep(env: Env, n: nat, target: BallId, k: real) returns (next: Sim)
    requires Ideal(env) && Level(env) && Tuned(env, k) && 0 < target < n <= 16
    ensures Step(FastFiz(env, Allows(env)), Start(EndGame(env, n, target), Drive(k)), true) == Continue(next)
    ensures next.now == 0.0 && Underway(env, n, target, next.balls, k)
    ensures next.queue != [] && next.queue[MinIndex(next.queue)] == Event(SlideTime(env, k), CUE, StateChange)
  {
    hide Ideal, EndGame, Handle, Separate, Predicted, Tuned, Level, SlideTime, Full, AtRest, Apart, MinIndex, Step;
    hide React, Lawful, Up, Get, Drive, Underway, PhysicallyPossible;
    var w, balls := FastFiz(env, Allows(env)), EndGame(env, n, target);
    EndGameReady(env, n, target);
    FastFizLawful(env, Allows(env));
    SeparateAgain(env, balls, PASSES);
    StrikeStep(w, balls, Drive(k));
    DriveIs(k);
    var e := Start(balls, Drive(k)).queue[0];
    next := React(w, balls, e, [], []);
    ReactAlone(w, balls, e);
    StruckFirst(env, n, target, e, k);
    QueueAfter(env, n, target, Handle(w, balls, e), k);
  }

  lemma StruckFirst(env: Env, n: nat, target: BallId, e: Event, k: real)
    requires Ideal(env) && Level(env) && Tuned(env, k) && 0 < target < n <= 16 && e.ball1 == CUE && e.kind == CueStrike(Drive(k))
    ensures Underway(env, n, target, Handle(FastFiz(env, Allows(env)), EndGame(env, n, target), e), k)
  {
    hide StrikeBall, Level, Drive, PhysicallyPossible;
    var balls := EndGame(env, n, target);
    EndGameReady(env, n, target);
    StandIs(env, 0, target);
    StraightStrike(env, balls[0], k);
    hide Up;
    var after := Handle(FastFiz(env, Allows(env)), balls, e);
    assert Find(balls, CUE) == 0;
    assert after == balls[0 := StrikeBall(env, balls[0], e.kind.params)];
  }

  /** At the end of the slide nothing can be separated any more. */
  lemma SecondStep(env: Env, n: nat, target: BallId, s: Sim, k: real)
    requires Ideal(env) && Tuned(env, k) && s.now == 0.0 && Underway(env, n, target, s.balls, k)
    requires s.queue != [] && s.queue[MinIndex(s.queue)] == Event(SlideTime(env, k), CUE, StateChange)
    ensures Step(FastFiz(env, Allows(env)), s, true).Broken? && !AtRest(Step(FastFiz(env, Allows(env)), s, true).balls)
  {
    hide Ideal, Tuned, Up, UpdateBall, Separate, MinIndex, SlideTime, Stand, PhysicallyPossible;
    var w, t := FastFiz(env, Allows(env)), SlideTime(env, k);
    SlideTimeIs(env, k);
    SlideEnds(env, s.balls[0], k);
    var moved := MoveAll(w, s.balls, 0.0, t);
    forall i | 0 < i < n
      ensures moved[i] == Stand(env, i, target) && moved[i].id == i && (moved[i].InPlay() <==> i == target)
    {
      StandIs(env, i, target);
    }
    assert moved[0] == UpdateBall(env, s.balls[0], 0.0, t);
    StandIs(env, target, target);
    EndStuck(env, moved, target);
    SeparateApart(env, moved, PASSES);
    var left := Separate(env, moved, PASSES).balls;
    assert OnlyShifted(moved, left);
    assert left[0].state == moved[0].state;
  }

  lemma SpeedLow(env: Env, k: real)
    requires Ideal(env) && Tuned(env, k)
    ensures 0.0 < Drive(k).v <= MAX_VELOCITY
  {
    hide QuadraticsRight, RootsExact, ExactRoot;
    if k > 0.5 {
      var p := Product(k - 0.5, k + 0.5);
      assert false;
    }
  }

  /** The clearance test allows the strike: the cue stays over the table, and the other ball is ahead. */
  lemma DriveAllowed(env: Env, n: nat, target: BallId, k: real)
    requires Ideal(env) && Level(env) && Tuned(env, k) && 0 < target < n <= 16
    ensures PhysicallyPossible(env, EndGame(env, n, target), Drive(k))
  {
    SpeedLow(env, k);
    hide Ideal, EndGame, Tip, Butt, RailBlocks, PhysicallyPossible, Depth, DepthSquared, Meets, Stand, Reach, Get;
    hide Tuned, Seen, Full, AtRest, Ready, OnTable, Apart;
    var balls, m := EndGame(env, n, target), Widened(Drive(k));
    LevelTip(env, k);
    hide Widened, Drive;
    OthersAhead(env, n, target);
    SouthFar(env, Base(env), m);
    forall i | 0 <= i < |balls| && balls[i].InPlay() && balls[i].id != CUE
      ensures !Meets(env, Vector(0.0, -env.cos(m.theta), env.sin(m.theta)), Seen(env, Base(env), m, balls[i].r))
    {
      DriveMisses(env, m, balls[i].r);
    }
    UpAllowed(env, balls, Drive(k));
  }

  lemma OthersAhead(env: Env, n: nat, target: BallId)
    requires 0 < target < n <= 16
    ensures var balls := EndGame(env, n, target);
      && Get(balls, CUE).r == Base(env)
      && forall i :: 0 <= i < |balls| && balls[i].InPlay() && balls[i].id != CUE ==> balls[i].r.y - Base(env).y >= 2.0 * BALL_RADIUS
  {
    hide Stand;
    var balls := EndGame(env, n, target);
    EndGameReady(env, n, target);
    StandIs(env, 0, target);
    forall i | 0 <= i < |balls| && balls[i].InPlay() && balls[i].id != CUE
      ensures balls[i].r.y - Base(env).y >= 2.0 * BALL_RADIUS
    {
      StandIs(env, i, target);
    }
  }

  lemma DriveMisses(env: Env, m: ShotParams, p: Point)
    requires env.cos(m.theta) >= 0.99 && env.sin(m.theta) >= 0.0 && m.b >= 0.0
    requires Depth(env, m) * Depth(env, m) + m.b * m.b == BALL_RADIUS * BALL_RADIUS
    requires p.y - Base(env).y >= 2.0 * BALL_RADIUS
    ensures !Meets(env, Vector(0.0, -env.cos(m.theta), env.sin(m.theta)), Seen(env, Base(env), m, p))
  {
    hide Meets, Depth;
    assert env.cos(m.theta) * env.cos(m.theta) + env.sin(m.theta) * env.sin(m.theta) == 1.0;
    DepthSign(env, m);
    FlatClear(env, env.cos(m.theta), env.sin(m.theta), Depth(env, m), m.b, p.x - Base(env).x, p.y - Base(env).y);
  }

  lemma DepthSign(env: Env, m: ShotParams)
    ensures Depth(env, m) >= 0.0
  {
    assert IsRoot(env.root);
  }

  lemma LevelTip(env: Env, k: real)
    requires Ideal(env) && Level(env)
    ensures var m := Widened(Drive(k)); var h := Depth(env, m);
      && m == ShotParams(0.0, 0.000001, EPSILON_THETA, 90.0, Drive(k).v)
      && DepthSquared(m) >= 0.0 && h * h + m.b * m.b == BALL_RADIUS * BALL_RADIUS && 0.0 <= h <= BALL_RADIUS
      && Base(env).y - h - Reach(env, EPSILON_THETA) >= 0.0
  {
    hide QuadraticsRight, RootsExact;
    assert IsRoot(env.root);
    var m := Widened(Drive(k));
    var h := Depth(env, m);
    assert h * h + m.b * m.b == BALL_RADIUS * BALL_RADIUS;
    if h > BALL_RADIUS {
      var p := Product(h - BALL_RADIUS, h + BALL_RADIUS);
      assert false;
    }
    var c := env.cos(EPSILON_THETA);
    var s := Square(env.sin(EPSILON_THETA));
    assert c * c + env.sin(EPSILON_THETA) * env.sin(EPSILON_THETA) == 1.0;
    UnitBound(c);
  }

  /** So the whole simulation fails, and leaves the cue ball moving. */
  lemma BreaksOff(env: Env, n: nat, target: BallId, k: real)
    requires Ideal(env) && Level(env) && Tuned(env, k) && 0 < target < n <= 16
    ensures PhysicallyPossible(env, EndGame(env, n, target), Drive(k))
    ensures var r := Simulate(FastFiz(env, Allows(env)), EndGame(env, n, target), Drive(k), true); r.Failed? && !AtRest(r.balls)
  {
    hide Ideal, EndGame, Step, Up, Level, Tuned, SlideTime, MinIndex, AtRest, Drive, Underway, PhysicallyPossible;
    DriveAllowed(env, n, target, k);
    var next := FirstStep(env, n, target, k);
    SecondStep(env, n, target, next, k);
    var w := FastFiz(env, Allows(env));
    assert Run(w, next, EVENT_LIMIT - 1, true).Failed?;
  }

  /** Both groups are down and the player at the table shoots at the eight. */
  function LastBall(env: Env): Eight {
    Eight(EndGame(env, BALLS, EIGHT), Game(Normal, 0.0, 0.0, true, false), false, true)
  }

  /** There is a strike the clearance test allows, at the eight the cue ball lies against, such that the
      shot answers SR_SHOT_IMPOSSIBLE with the cue ball moving, whatever is called: the next call of the
      simulator would not find the table it demands. */
  lemma ImpossibleNotUndone(env: Env, shot: GameShot, chance: Chance) returns (sp: ShotParams)
    requires Ideal(env) && Level(env) && shot.decision.NoDecision? && CallInRange(shot)
    ensures PhysicallyPossible(env, LastBall(env).balls, sp)
    ensures var s := LastBall(env); var r := ExecuteEight(env, FastFiz(env, Allows(env)), s, shot.(params := sp), chance);
      EightInv(s) && r.Interrupted? && !EightInv(r.state)
  {
    EndGameReady(env, BALLS, EIGHT);
    var k := SomeSpeed(env);
    sp := Drive(k);
    hide Ideal, Level, Tuned, EndGame, Simulate, Full, AtRest, Ready, OnTable, Drive, PhysicallyPossible;
    BreaksOff(env, BALLS, EIGHT, k);
  }

  /** The same shot at the nine, the last ball left. */
  lemma NineNotUndone(env: Env, shot: GameShot, chance: Chance) returns (sp: ShotParams)
    requires Ideal(env) && Level(env) && shot.decision.NoDecision?
    ensures PhysicallyPossible(env, EndGame(env, N.BALLS, NINE), sp)
    ensures var s := N.Nine(EndGame(env, N.BALLS, NINE), Game(Normal, 0.0, 0.0, true, false), 0, 0);
      var r := N.ExecuteNine(env, FastFiz(env, Allows(env)), s, shot.(params := sp), chance);
      N.NineInv(s) && r.Interrupted? && !N.NineInv(r.state)
  {
    EndGameReady(env, N.BALLS, NINE);
    var k := SomeSpeed(env);
    sp := Drive(k);
    hide Ideal, Level, Tuned, EndGame, Simulate, Full, AtRest, Ready, OnTable, Drive, PhysicallyPossible;
    BreaksOff(env, N.BALLS, NINE, k);
  }
}
