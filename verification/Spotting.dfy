/** Putting a ball back on the table (`TableState::spotBall`). */
module Spotting {
  import opened Vectors
  import opened Balls
  import opened Kinematics
  import opened Overlapping

  /** `TableState::setBall`: an existing ball keeps its velocity and spin. */
  function Place(balls: seq<Ball>, id: BallId, r: Point): (placed: seq<Ball>)
    ensures Find(placed, id) == Find(balls, id) < |placed|
    ensures placed[Find(balls, id)].state.Stationary? && placed[Find(balls, id)].r == r
    ensures placed[Find(balls, id)].v == Get(balls, id).v && placed[Find(balls, id)].w == Get(balls, id).w
    ensures |balls| <= |placed|
    ensures forall i :: 0 <= i < |balls| && i != Find(balls, id) ==> placed[i] == balls[i]
    ensures Find(balls, id) < |balls| ==> |placed| == |balls|
    ensures |placed| <= |balls| + 1
  {
    var some := Ensure(balls, id);
    var i := Find(balls, id);
    var placed := some[i := some[i].(state := Stationary, r := r)];
    assert placed[i].id == id;
    assert Find(placed, id) == i;
    placed
  }

  /** Position of the first other ball within two radii of `id`, or `|balls|`. */
  function Obstacle(env: Env, balls: seq<Ball>, id: BallId): (i: nat)
    ensures i <= |balls|
    ensures i < |balls| ==> balls[i].id != id && Overlaps(balls[i], Get(balls, id), env.epsilon)
    ensures forall k :: 0 <= k < i ==> balls[k].id == id || !Overlaps(balls[k], Get(balls, id), env.epsilon)
  {
    ObstacleFrom(env, balls, Get(balls, id), 0)
  }

  function ObstacleFrom(env: Env, balls: seq<Ball>, b: Ball, i: nat): (k: nat)
    requires i <= |balls|
    ensures i <= k <= |balls|
    ensures k < |balls| ==> balls[k].id != b.id && Overlaps(balls[k], b, env.epsilon)
    ensures forall l :: i <= l < k ==> balls[l].id == b.id || !Overlaps(balls[l], b, env.epsilon)
    decreases |balls| - i
  {
    if i == |balls| || (balls[i].id != b.id && Overlaps(balls[i], b, env.epsilon)) then i
    else ObstacleFrom(env, balls, b, i + 1)
  }

  datatype SpotResult =
    | Spotted(balls: seq<Ball>)
    | OutOfBounds(balls: seq<Ball>)    // the first exception of spotBall
    | NoRoom(balls: seq<Ball>)         // the second one
    | NotANumber(balls: seq<Ball>)     // the square root of a negative number was taken

  const TRIES: nat := 100

  /** What is left under the square root: how far below an obstacle the centre line is free. */
  function Room(env: Env, obstacle: Ball): real {
    var dx := obstacle.r.x - env.table.width / 2.0;
    4.0 * BALL_RADIUS * BALL_RADIUS - dx * dx
  }

  /** Just touching `obstacle` from below, on the centre line. */
  function Below(env: Env, obstacle: Ball): Point {
    Point(env.table.width / 2.0, obstacle.r.y - env.root(Room(env, obstacle)))
  }

  /** Where a noisy placement aimed at height `y` ends: the noise is made to push down. */
  function Lowered(aimed: Point, noise: Point): Point {
    Point(aimed.x + noise.x, aimed.y - Abs(noise.y))
  }

  /** The search of `spotBall` after `tries` attempts; `noise(k)` is what the k-th draw adds. */
  function SpotFrom(env: Env, balls: seq<Ball>, id: BallId, noise: nat -> Point, tries: nat): (r: SpotResult)
    requires tries <= TRIES
    decreases TRIES - tries
  {
    var k := Obstacle(env, balls, id);
    if k == |balls| then Spotted(balls)
    else if tries == TRIES then NoRoom(balls)
    else if Room(env, balls[k]) < 0.0 then NotANumber(balls)
    else
      var aimed := Below(env, balls[k]);
      var spot := Lowered(aimed, noise(tries + 1));
      if spot.y < BALL_RADIUS then OutOfBounds(Place(balls, id, aimed.Plus(noise(tries + 1))))
      else SpotFrom(env, Place(balls, id, spot), id, noise, tries + 1)
  }

  /** `TableState::spotBall`. */
  function Spot(env: Env, balls: seq<Ball>, id: BallId, noise: nat -> Point): SpotResult {
    SpotFrom(env, Place(balls, id, env.table.FootSpot().Plus(noise(0))), id, noise, 0)
  }

  /** A table where ball `id` stands still and overlaps no other ball. */
  ghost predicate Clear(env: Env, balls: seq<Ball>, id: BallId) {
    && Find(balls, id) < |balls|
    && Get(balls, id).state.Stationary?
    && forall i :: 0 <= i < |balls| && balls[i].id != id ==> !Overlaps(balls[i], Get(balls, id), env.epsilon)
  }

  /** Two tables that differ in ball `id` alone. */
  ghost predicate OnlyMoved(a: seq<Ball>, b: seq<Ball>, id: BallId) {
    && Find(a, id) == Find(b, id)
    && |a| <= |b| <= |a| + 1
    && (Find(a, id) < |a| ==> |a| == |b|)
    && forall i :: 0 <= i < |a| && i != Find(a, id) ==> b[i] == a[i]
  }

  /** Whatever the noise, a ball that is spotted is clear of all others, which stay as they are. */
  lemma {:induction false} SpotFromClear(env: Env, balls: seq<Ball>, id: BallId, noise: nat -> Point, tries: nat)
    requires tries <= TRIES && Find(balls, id) < |balls| && Get(balls, id).state.Stationary?
    ensures var r := SpotFrom(env, balls, id, noise, tries);
      && OnlyMoved(balls, r.balls, id)
      && (r.Spotted? ==> Clear(env, r.balls, id))
    decreases TRIES - tries
  {
    hide Overlaps, Below, Lowered, Room, Place, Obstacle;
    var k := Obstacle(env, balls, id);
    if k < |balls| && tries < TRIES && Room(env, balls[k]) >= 0.0 {
      var spot := Lowered(Below(env, balls[k]), noise(tries + 1));
      if spot.y >= BALL_RADIUS {
        SpotFromClear(env, Place(balls, id, spot), id, noise, tries + 1);
      }
    }
  }

  lemma SpotClear(env: Env, balls: seq<Ball>, id: BallId, noise: nat -> Point)
    ensures var r := Spot(env, balls, id, noise);
      && OnlyMoved(balls, r.balls, id)
      && (r.Spotted? ==> Clear(env, r.balls, id))
  {
    SpotFromClear(env, Place(balls, id, env.table.FootSpot().Plus(noise(0))), id, noise, 0);
  }

  // ---------------------------------------------------------------- without noise

  function Still(k: nat): Point { Point(0.0, 0.0) }

  /** Every position of the centre line from `low` (excluded) up to `high` is taken. */
  ghost predicate Blocked(env: Env, balls: seq<Ball>, id: BallId, low: real, high: real) {
    forall y: real :: low < y <= high ==> Taken(env, balls, id, y)
  }

  ghost predicate Taken(env: Env, balls: seq<Ball>, id: BallId, y: real) {
    exists i :: 0 <= i < |balls| && balls[i].id != id && Closeness(balls[i].r, Point(env.table.width / 2.0, y)) > 0.0
  }

  /** The ball stands on the centre line at `y`. */
  ghost predicate Centred(env: Env, balls: seq<Ball>, id: BallId, y: real) {
    && Find(balls, id) < |balls|
    && Get(balls, id).state.Stationary?
    && Get(balls, id).r == Point(env.table.width / 2.0, y)
  }

  lemma SquareGrows(a: real, b: real)
    requires -b < a < b
    ensures a * a < b * b
  {
    var p := Product(b - a, b + a);
    assert (b - a) * (b + a) == b * b - a * a;
  }

  lemma SquareFar(a: real, b: real)
    requires 0.0 <= b && a <= -b
    ensures a * a >= b * b
  {
    var p := Product(-a - b, b - a);
    assert (-a - b) * (b - a) == a * a - b * b;
  }

  lemma SquareOrder(a: real, b: real)
    requires 0.0 <= b && a * a < b * b
    ensures -b < a < b
  {
    if a >= b {
      SquareFar(-a, b);
    } else if a <= -b {
      SquareFar(a, b);
    }
  }

  /** Distance down to where `obstacle` frees the centre line. */
  function Half(env: Env, obstacle: Ball): real { env.root(Room(env, obstacle)) }

  /** Seen from the centre line, an obstacle takes an open interval of heights. */
  lemma Interval(env: Env, obstacle: Ball, y: real)
    requires ExactRoot(env.root)
    ensures Closeness(obstacle.r, Point(env.table.width / 2.0, y)) > 0.0 ==> Room(env, obstacle) > 0.0
    ensures Room(env, obstacle) >= 0.0 ==>
      (Closeness(obstacle.r, Point(env.table.width / 2.0, y)) > 0.0 <==> -Half(env, obstacle) < y - obstacle.r.y < Half(env, obstacle))
  {
    var d := y - obstacle.r.y;
    var q := Square(d);
    assert Closeness(obstacle.r, Point(env.table.width / 2.0, y)) == Room(env, obstacle) - q by {
      assert (obstacle.r.y - y) * (obstacle.r.y - y) == d * d;
    }
    if Room(env, obstacle) >= 0.0 {
      var h := Half(env, obstacle);
      assert h * h == Room(env, obstacle) && 0.0 <= h;
      if q < h * h {
        SquareOrder(d, h);
      } else if -h < d < h {
        SquareGrows(d, h);
      }
    }
  }

  /** The obstacle met, the ball moves strictly down, and no position on the way was free. */
  lemma StepDown(env: Env, balls: seq<Ball>, id: BallId, y: real, k: nat)
    requires ExactRoot(env.root) && Centred(env, balls, id, y)
    requires k < |balls| && balls[k].id != id && Overlaps(balls[k], Get(balls, id), env.epsilon)
    ensures Room(env, balls[k]) > 0.0
    ensures var low := Below(env, balls[k]).y;
      low < y && Blocked(env, balls, id, low, y)
  {
    Interval(env, balls[k], y);
    var low := Below(env, balls[k]).y;
    forall z: real | low < z <= y
      ensures Taken(env, balls, id, z)
    {
      Interval(env, balls[k], z);
    }
  }

  lemma {:induction false} Bounded(s: set<nat>, n: nat)
    requires forall k :: k in s ==> k < n
    ensures |s| <= n
    decreases n
  {
    if n == 0 {
      assert s == {};
    } else {
      Bounded(s - {n - 1}, n - 1);
      assert s <= (s - {n - 1}) + {n - 1};
    }
  }

  /** With unique identifiers a table holds at most 17 balls. */
  lemma TableSize(balls: seq<Ball>, n: nat)
    requires UniqueIds(balls) && forall i :: 0 <= i < |balls| ==> balls[i].id < n
    ensures |balls| <= n
  {
    var ids := set i | 0 <= i < |balls| :: balls[i].id as nat;
    Distinct(balls);
    Bounded(ids, n);
  }

  lemma {:induction false} Distinct(balls: seq<Ball>)
    requires UniqueIds(balls)
    ensures |set i | 0 <= i < |balls| :: balls[i].id as nat| == |balls|
  {
    var ids := set i | 0 <= i < |balls| :: balls[i].id as nat;
    if balls == [] {
      assert ids == {};
    } else {
      var n := |balls| - 1;
      var front := balls[..n];
      Distinct(front);
      var few := set i | 0 <= i < |front| :: front[i].id as nat;
      assert ids == few + {balls[n].id as nat};
      assert balls[n].id as nat !in few;
    }
  }

  /** The obstacles met so far: other balls, all of them now above. */
  ghost predicate Passed(env: Env, balls: seq<Ball>, id: BallId, y: real, passed: set<nat>) {
    forall k :: k in passed ==>
      k < |balls| && balls[k].id != id && Room(env, balls[k]) >= 0.0 && y <= Below(env, balls[k]).y
  }

  /** What `spotBall` promises without noise, from height `y` on. */
  ghost predicate SpottedDown(env: Env, balls: seq<Ball>, id: BallId, y: real, r: SpotResult) {
    && (r.Spotted? || r.OutOfBounds?)
    && (r.Spotted? ==>
          var z := Get(r.balls, id).r.y;
          && z <= y && Centred(env, r.balls, id, z) && Clear(env, r.balls, id)
          && Blocked(env, r.balls, id, z, y))
  }

  lemma TooMany(env: Env, balls: seq<Ball>, id: BallId, y: real, passed: set<nat>)
    requires |balls| <= TRIES && Find(balls, id) < |balls| && Passed(env, balls, id, y, passed)
    ensures |passed| < TRIES
  {
    hide Room, Below;
    var i: nat := Find(balls, id);
    Bounded(passed + {i}, |balls|);
  }

  /** Positions taken by other balls stay taken when ball `id` moves. */
  lemma StayBlocked(env: Env, a: seq<Ball>, b: seq<Ball>, id: BallId, low: real, high: real)
    requires OnlyMoved(a, b, id) && |a| == |b| && UniqueIds(a) && Find(a, id) < |a|
    requires Blocked(env, a, id, low, high)
    ensures Blocked(env, b, id, low, high)
  {
    hide Closeness;
    forall y: real | low < y <= high
      ensures Taken(env, b, id, y)
    {
      assert Taken(env, a, id, y);
      var i :| 0 <= i < |a| && a[i].id != id && Closeness(a[i].r, Point(env.table.width / 2.0, y)) > 0.0;
      assert b[i] == a[i];
    }
  }

  /** One obstacle: the search goes on strictly lower, with one more ball above it. */
  lemma PassObstacle(env: Env, balls: seq<Ball>, id: BallId, y: real, passed: set<nat>, k: nat)
    requires ExactRoot(env.root) && UniqueIds(balls) && Centred(env, balls, id, y)
    requires Passed(env, balls, id, y, passed)
    requires k == Obstacle(env, balls, id) && k < |balls|
    ensures Room(env, balls[k]) > 0.0 && k !in passed
    ensures var spot := Below(env, balls[k]); var next := Place(balls, id, spot);
      && spot.y < y && Blocked(env, balls, id, spot.y, y)
      && UniqueIds(next) && Centred(env, next, id, spot.y) && Passed(env, next, id, spot.y, passed + {k})
  {
    StepDown(env, balls, id, y, k);
    hide Room, Overlaps;
    var spot := Below(env, balls[k]);
    var next := Place(balls, id, spot);
    forall i | 0 <= i < |balls|
      ensures next[i].id == balls[i].id
    {
      FindAt(balls, i);
    }
  }

  /** One try without noise. */
  lemma TryStill(env: Env, balls: seq<Ball>, id: BallId, tries: nat)
    requires tries < TRIES
    ensures var k := Obstacle(env, balls, id);
      k < |balls| && Room(env, balls[k]) >= 0.0 ==>
        var spot := Below(env, balls[k]);
        if spot.y < BALL_RADIUS then SpotFrom(env, balls, id, Still, tries).OutOfBounds?
        else SpotFrom(env, balls, id, Still, tries) == SpotFrom(env, Place(balls, id, spot), id, Still, tries + 1)
  {
    hide Room, Below, Place;
    var k := Obstacle(env, balls, id);
    if k < |balls| {
      var spot := Below(env, balls[k]);
      assert Lowered(spot, Still(tries + 1)) == spot;
    }
  }

  /** A search that goes on from a lower position keeps its promise from a higher one. */
  lemma SpotHigher(env: Env, balls: seq<Ball>, next: seq<Ball>, id: BallId, low: real, y: real, r: SpotResult)
    requires SpottedDown(env, next, id, low, r) && low < y && Blocked(env, balls, id, low, y)
    requires UniqueIds(balls) && Find(balls, id) < |balls| && OnlyMoved(balls, next, id) && OnlyMoved(next, r.balls, id)
    ensures SpottedDown(env, balls, id, y, r)
  {
    hide Clear, Centred;
    if r.Spotted? {
      StayBlocked(env, balls, r.balls, id, low, y);
      BlockedJoin(env, r.balls, id, Get(r.balls, id).r.y, low, y);
    }
  }

  lemma BlockedJoin(env: Env, balls: seq<Ball>, id: BallId, low: real, mid: real, high: real)
    requires Blocked(env, balls, id, low, mid) && Blocked(env, balls, id, mid, high)
    ensures Blocked(env, balls, id, low, high)
  {
    hide Taken;
  }

  lemma {:induction false} SpotDown(env: Env, balls: seq<Ball>, id: BallId, y: real, tries: nat, passed: set<nat>)
    requires ExactRoot(env.root) && UniqueIds(balls) && |balls| <= TRIES
    requires Centred(env, balls, id, y) && Passed(env, balls, id, y, passed) && |passed| == tries <= TRIES
    ensures SpottedDown(env, balls, id, y, SpotFrom(env, balls, id, Still, tries))
    decreases TRIES - tries
  {
    hide Room, Overlaps, Below, Blocked, Passed;
    TooMany(env, balls, id, y, passed);
    var k := Obstacle(env, balls, id);
    if k < |balls| {
      PassObstacle(env, balls, id, y, passed, k);
      TryStill(env, balls, id, tries);
      var spot := Below(env, balls[k]);
      if spot.y >= BALL_RADIUS {
        var next := Place(balls, id, spot);
        var r := SpotFrom(env, next, id, Still, tries + 1);
        SpotDown(env, next, id, spot.y, tries + 1, passed + {k});
        SpotFromClear(env, next, id, Still, tries + 1);
        SpotHigher(env, balls, next, id, spot.y, y, r);
      }
    } else {
      SpottedAtOnce(env, balls, id, y, tries);
    }
  }

  lemma SpottedAtOnce(env: Env, balls: seq<Ball>, id: BallId, y: real, tries: nat)
    requires Centred(env, balls, id, y) && Obstacle(env, balls, id) == |balls| && tries <= TRIES
    ensures SpottedDown(env, balls, id, y, SpotFrom(env, balls, id, Still, tries))
  {
    assert SpotFrom(env, balls, id, Still, tries) == Spotted(balls);
  }

  /** Without noise a spotted ball stands on the centre line at or below the foot spot, overlaps
      nothing, and every higher position from the foot spot down was taken; the search never runs
      out of tries and never takes the root of a negative number. */
  lemma SpotDescends(env: Env, balls: seq<Ball>, id: BallId)
    requires ExactRoot(env.root) && UniqueIds(balls)
    ensures SpottedDown(env, balls, id, env.table.FootSpot().y, Spot(env, balls, id, Still))
  {
    var foot := env.table.FootSpot();
    assert foot.Plus(Still(0)) == foot;
    var start := Place(balls, id, foot);
    forall i, j | 0 <= i < j < |start|
      ensures start[i].id != start[j].id
    {
      if i < |balls| {
        FindAt(balls, i);
      }
      if j < |balls| {
        FindAt(balls, j);
      }
    }
    TableSize(start, 17);
    SpotDown(env, start, id, foot.y, 0, {});
  }

  // ---------------------------------------------------------------- the root of a negative number

  /** How far a ball lies off the centre line. */
  function Aside(env: Env, b: Ball): real { Abs(b.r.x - env.table.width / 2.0) }

  lemma RoomSign(env: Env, obstacle: Ball)
    ensures Room(env, obstacle) < 0.0 <==> Aside(env, obstacle) > 2.0 * BALL_RADIUS
  {
    var dx := obstacle.r.x - env.table.width / 2.0;
    if -2.0 * BALL_RADIUS < dx < 2.0 * BALL_RADIUS {
      SquareGrows(dx, 2.0 * BALL_RADIUS);
    } else if dx == 2.0 * BALL_RADIUS || dx == -2.0 * BALL_RADIUS {
      assert dx * dx == 4.0 * BALL_RADIUS * BALL_RADIUS;
    } else {
      SquareGrows(2.0 * BALL_RADIUS, Abs(dx));
      assert Abs(dx) * Abs(dx) == dx * dx;
    }
  }

  /** The square of how far below the obstacle two balls touch. */
  function Drop(env: Env, obstacle: Ball): real { 4.0 * BALL_RADIUS * BALL_RADIUS - Aside(env, obstacle) * Aside(env, obstacle) }

  lemma RoomIs(env: Env, obstacle: Ball)
    ensures Room(env, obstacle) == Drop(env, obstacle)
  {
    var dx := obstacle.r.x - env.table.width / 2.0;
    assert -dx * -dx == dx * dx;
  }

  /** Where a try aims: touching the obstacle from below on the centre line, moved aside by the noise and
      never up. */
  function Aim(env: Env, obstacle: Ball, noise: Point): Point {
    var touching := obstacle.r.y - env.root(Drop(env, obstacle));
    Point(env.table.width / 2.0 + noise.x, if noise.y < 0.0 then touching + noise.y else touching - noise.y)
  }

  lemma AimIs(env: Env, obstacle: Ball, noise: Point)
    ensures Lowered(Below(env, obstacle), noise) == Aim(env, obstacle, noise)
  {
    hide Room, Drop;
    RoomIs(env, obstacle);
  }

  /** A try that meets an obstacle takes the root of a negative number exactly if the obstacle lies more
      than two radii off the centre line; else it is out of bounds or goes on from where it aims. */
  lemma TryEnds(env: Env, balls: seq<Ball>, id: BallId, noise: nat -> Point, tries: nat)
    requires tries < TRIES && Obstacle(env, balls, id) < |balls|
    ensures var o := balls[Obstacle(env, balls, id)]; var r := SpotFrom(env, balls, id, noise, tries);
      if Aside(env, o) > 2.0 * BALL_RADIUS then r == NotANumber(balls)
      else
        var spot := Aim(env, o, noise(tries + 1));
        if spot.y < BALL_RADIUS then r.OutOfBounds? else r == SpotFrom(env, Place(balls, id, spot), id, noise, tries + 1)
  {
    hide Below, Lowered, Place, Room, Aim;
    RoomSign(env, balls[Obstacle(env, balls, id)]);
    AimIs(env, balls[Obstacle(env, balls, id)], noise(tries + 1));
  }

  /** No other ball lies between two radii and two radii and `g` off the centre line. */
  ghost predicate Margin(env: Env, balls: seq<Ball>, id: BallId, g: real) {
    forall i :: 0 <= i < |balls| && balls[i].id != id ==>
      Aside(env, balls[i]) <= 2.0 * BALL_RADIUS || Aside(env, balls[i]) >= 2.0 * BALL_RADIUS + g
  }

  /** No draw moves the ball sideways by more than `g`. */
  ghost predicate Gentle(noise: nat -> Point, g: real) { forall m: nat :: Abs(noise(m).x) <= g }

  /** An obstacle is less than two radii away sideways. */
  lemma NearSideways(a: Point, b: Point)
    requires Closeness(a, b) > 0.0
    ensures -2.0 * BALL_RADIUS < a.x - b.x < 2.0 * BALL_RADIUS
  {
    var q := Square(a.y - b.y);
    SquareOrder(a.x - b.x, 2.0 * BALL_RADIUS);
  }

  lemma {:induction false} NumberFrom(env: Env, balls: seq<Ball>, id: BallId, noise: nat -> Point, tries: nat, g: real)
    requires tries <= TRIES && Find(balls, id) < |balls| && Margin(env, balls, id, g) && Gentle(noise, g)
    requires Aside(env, Get(balls, id)) <= g
    ensures !SpotFrom(env, balls, id, noise, tries).NotANumber?
    decreases TRIES - tries
  {
    hide Room, SpotFrom, Place, Closeness;
    var k := Obstacle(env, balls, id);
    if k < |balls| && tries < TRIES {
      NearSideways(balls[k].r, Get(balls, id).r);
      TryEnds(env, balls, id, noise, tries);
      var spot := Aim(env, balls[k], noise(tries + 1));
      if spot.y >= BALL_RADIUS {
        NumberFrom(env, Place(balls, id, spot), id, noise, tries + 1, g);
      }
    } else {
      LastTry(env, balls, id, noise, tries);
    }
  }

  lemma LastTry(env: Env, balls: seq<Ball>, id: BallId, noise: nat -> Point, tries: nat)
    requires tries <= TRIES && (Obstacle(env, balls, id) == |balls| || tries == TRIES)
    ensures !SpotFrom(env, balls, id, noise, tries).NotANumber?
  {
  }

  /** With draws that move the ball sideways by at most `g`, and no ball less than `g` further off than
      two radii, it never happens; without noise sideways it cannot on any table. */
  lemma AlwaysNumber(env: Env, balls: seq<Ball>, id: BallId, noise: nat -> Point, g: real)
    requires Margin(env, balls, id, g) && Gentle(noise, g)
    ensures !Spot(env, balls, id, noise).NotANumber?
  {
    hide SpotFrom, Obstacle;
    var start := Place(balls, id, env.table.FootSpot().Plus(noise(0)));
    assert Get(start, id).r == env.table.FootSpot().Plus(noise(0));
    forall i | 0 <= i < |start| && start[i].id != id
      ensures i < |balls| && start[i] == balls[i]
    {
      assert start[Find(balls, id)].id == id;
    }
    NumberFrom(env, start, id, noise, 0, g);
  }

  /** A ball beside the foot spot, two radii and `off` from the centre line. */
  function Beside(env: Env, off: real): Ball {
    BallData(ONE, Stationary, Point(env.table.width / 2.0 + 2.0 * BALL_RADIUS + off, env.table.FootSpot().y), ZERO, ZERO)
  }

  lemma ClosenessOf(p: Point, q: Point, x: real)
    requires p.x - q.x == x && p.y - q.y == 0.0
    ensures Closeness(p, q) == 4.0 * BALL_RADIUS * BALL_RADIUS - x * x
  {
  }

  /** That bound is sharp: the least draw beyond it, towards a ball that lies just so far off, meets it. */
  lemma RootOfNegative(env: Env, noise: nat -> Point, off: real, push: real)
    requires 0.0 < off < push <= off + 2.0 * BALL_RADIUS && noise(0) == Point(push, 0.0)
    requires env.epsilon < (push - off) * BALL_RADIUS
    ensures Spot(env, [Beside(env, off)], EIGHT, noise).NotANumber?
  {
    var balls := [Beside(env, off)];
    var r := env.table.FootSpot().Plus(noise(0));
    var start := Place(balls, EIGHT, r);
    assert start[0] == balls[0];
    assert Get(start, EIGHT).r == r;
    var d := push - off;
    var p := Product(d, 2.0 * BALL_RADIUS - d);
    assert start[0].r.x - r.x == 2.0 * BALL_RADIUS - d && start[0].r.y - r.y == 0.0;
    ClosenessOf(start[0].r, r, 2.0 * BALL_RADIUS - d);
    assert Closeness(start[0].r, r) == d * (2.0 * BALL_RADIUS - d) + 2.0 * (d * BALL_RADIUS);
    hide Closeness, Room, SpotFrom, Place;
    assert Overlaps(start[0], Get(start, EIGHT), env.epsilon);
    assert Obstacle(env, start, EIGHT) == 0;
    TryEnds(env, start, EIGHT, noise, 0);
  }
}
