/** Where both games rack their balls, and why racking does not fail: the gap left between the balls
    is worth three standard deviations of the noise that is added. */
module Racks {
  import opened Vectors
  import opened Balls
  import opened Kinematics
  import opened Overlapping
  import opened Spotting
  import opened Games
  import EightBall
  import NineBall

  /** `dither` of both `rack` methods: the noise has a standard deviation of a third of it, in radii. */
  const DITHER: real := 0.00005

  /** Half the distance between neighbours of a row. */
  const PITCH: real := BALL_RADIUS * (1.0 + DITHER)

  /** `isValidBallPlacement` without complaints. */
  ghost predicate ValidPlacement(env: Env, balls: seq<Ball>) {
    && (forall i :: 0 <= i < |balls| && balls[i].InPlay() ==> Inside(env, balls[i].r))
    && (forall i, j :: 0 <= i < j < |balls| && balls[i].InPlay() && balls[j].InPlay() ==> !Overlaps(balls[i], balls[j], env.epsilon))
  }

  predicate Inside(env: Env, p: Point) {
    && !FLess(env, p.x, BALL_RADIUS) && !FGreater(env, p.x, env.table.width - BALL_RADIUS)
    && !FLess(env, p.y, BALL_RADIUS) && !FGreater(env, p.y, env.table.length - BALL_RADIUS)
  }

  // ---------------------------------------------------------------- the layout

  /** Rows run from the foot spot away from the player; `step` counts half distances to its right. */
  function Cell(env: Env, row: int, step: int): Point {
    Point(env.table.width / 2.0 + Times(step, PITCH), env.table.length / 4.0 - Times(row, RowHeight(env)))
  }

  function Times(k: int, x: real): real { k as real * x }

  function RowHeight(env: Env): real { BALL_RADIUS * env.root(3.0) * 1.00005 }

  /** The cell, about the long axis of the table, where ball `k` of a row of `count` belongs. */
  function InRow(env: Env, row: nat, count: nat, k: nat): Point { Cell(env, row, 2 * k - (count as int - 1)) }

  /** The row and the step of the `n`th ball of the triangle. */
  function Row(n: nat): nat { if n < 2 then 0 else if n < 4 then 1 else if n < 7 then 2 else if n < 11 then 3 else 4 }

  function StepOf(n: nat): int {
    if n < 2 then 0 else if n < 4 then 2 * n - 5 else if n < 7 then 2 * n - 10 else if n < 11 then 2 * n - 17 else 2 * n - 26
  }

  lemma EightCell(env: Env, n: nat)
    requires n < 16
    ensures |EightBall.EightSpots(env)| == 16
    ensures EightBall.EightSpots(env)[n].id == n
    ensures 0 < n ==> EightBall.EightSpots(env)[n].at == Cell(env, Row(n), StepOf(n))
  {
    RowIs(env, Row(n));
    hide Cell;
    if n < 4 {
      assert n == 0 || n == 1 || n == 2 || n == 3;
    } else if n < 7 {
      assert n == 4 || n == 5 || n == 6;
    } else if n < 11 {
      assert n == 7 || n == 8 || n == 9 || n == 10;
    } else {
      assert n == 11 || n == 12 || n == 13 || n == 14 || n == 15;
    }
  }

  /** Eight-ball: five rows of one to five balls, numbered from the foot spot on and from left to right. */
  lemma Triangle(env: Env, row: nat, k: nat)
    requires k <= row <= 4
    ensures var n := 1 + row * (row + 1) / 2 + k; EightBall.EightSpots(env)[n] == Spot(n, InRow(env, row, row + 1, k))
    ensures |EightBall.EightSpots(env)| == EightBall.BALLS
    ensures EightBall.EightSpots(env)[0] == Spot(CUE, Point(env.table.width / 2.0, env.table.length * 3.0 / 4.0))
  {
    var first := EightBall.EightSpots(env)[0];
    assert first == Spot(CUE, Point(env.table.width / 2.0, env.table.length * 3.0 / 4.0));
    hide EightBall.EightSpots, Cell;
    var start := if row == 0 then 1 else if row == 1 then 2 else if row == 2 then 4 else if row == 3 then 7 else 11;
    assert start == 1 + row * (row + 1) / 2;
    EightCell(env, start + k);
  }

  /** Balls in a row of the diamond, and the one in place `k`. */
  function Width(row: nat): nat { if row == 0 || row == 4 then 1 else if row == 2 then 3 else 2 }

  function InDiamond(row: nat, k: nat): BallId
    requires row <= 4 && k < Width(row)
  {
    match row
    case 0 => 1
    case 1 => 2 + k
    case 2 => if k == 1 then NINE else 4 + k / 2
    case 3 => 7 - k
    case _ => 8
  }

  /** Nine-ball: a diamond with the one at the foot spot and the nine in the middle. */
  lemma Diamond(env: Env, row: nat, k: nat)
    requires row <= 4 && k < Width(row)
    ensures Spot(InDiamond(row, k), InRow(env, row, Width(row), k)) in NineBall.NineSpots(env)
    ensures |NineBall.NineSpots(env)| == NineBall.BALLS
    ensures NineBall.NineSpots(env)[0] == Spot(CUE, Point(env.table.width / 2.0, env.table.length * 3.0 / 4.0))
  {
    var spots := NineBall.NineSpots(env);
    assert PITCH == BALL_RADIUS * 1.00005;
    var n := match row case 0 => 1 case 1 => 2 + k case 2 => 4 + k case 3 => 8 - k case _ => 9;
    assert spots[n] == Spot(InDiamond(row, k), InRow(env, row, Width(row), k));
  }

  /** The cue ball on the head string, and every other ball in a cell of its own. */
  ghost predicate Latticed(env: Env, spots: seq<Spot>) {
    && 0 < |spots|
    && spots[0] == Spot(CUE, Point(env.table.width / 2.0, env.table.length * 3.0 / 4.0))
    && (forall k :: 0 < k < |spots| ==> InLattice(env, spots[k].at))
    && (forall j, k :: 0 < j < k < |spots| ==> spots[j].at != spots[k].at)
    && (forall j, k :: 0 <= j < k < |spots| ==> spots[j].id != spots[k].id)
  }

  ghost predicate InLattice(env: Env, p: Point) {
    exists row: int, step: int :: CellAt(env, row, step, p)
  }

  ghost predicate CellAt(env: Env, row: int, step: int, p: Point) {
    0 <= row <= 4 && -4 <= step <= 4 && (row - step) % 2 == 0 && p == Cell(env, row, step)
  }

  lemma EightLatticed(env: Env)
    ensures Latticed(env, EightBall.EightSpots(env))
  {
    Triangle(env, 0, 0);
    hide EightBall.EightSpots, Cell;
    var spots := EightBall.EightSpots(env);
    forall k | 0 < k < |spots|
      ensures CellAt(env, Row(k), StepOf(k), spots[k].at)
    {
      EightCell(env, k);
    }
    hide CellAt;
    forall j, k | 0 <= j < k < |spots|
      ensures spots[j].id != spots[k].id && (0 < j ==> spots[j].at != spots[k].at)
    {
      EightCell(env, j);
      EightCell(env, k);
      if 0 < j {
        CellsDiffer(env, Row(j), StepOf(j), Row(k), StepOf(k));
      }
    }
  }

  /** The row and the step of the `k`th spot of the diamond, and its ball. */
  function NineRow(k: nat): nat { if k < 2 then 0 else if k < 4 then 1 else if k < 7 then 2 else if k < 9 then 3 else 4 }

  function NineStep(k: nat): int {
    if k < 2 then 0 else if k < 4 then 2 * k - 5 else if k < 7 then 2 * k - 10 else if k < 9 then 15 - 2 * k else 0
  }

  lemma NineCell(env: Env, k: nat)
    requires k < 10
    ensures |NineBall.NineSpots(env)| == 10
    ensures NineBall.NineSpots(env)[k].id == if k < 5 then k else if k == 5 then 9 else k - 1
    ensures 0 < k ==> NineBall.NineSpots(env)[k].at == Cell(env, NineRow(k), NineStep(k))
  {
    RowIs(env, NineRow(k));
    hide Cell;
    if k < 4 {
      assert k == 0 || k == 1 || k == 2 || k == 3;
    } else if k < 7 {
      assert k == 4 || k == 5 || k == 6;
    } else {
      assert k == 7 || k == 8 || k == 9;
    }
  }

  lemma NineLatticed(env: Env)
    ensures Latticed(env, NineBall.NineSpots(env))
  {
    Diamond(env, 0, 0);
    hide NineBall.NineSpots, Cell;
    var spots := NineBall.NineSpots(env);
    forall k | 0 < k < |spots|
      ensures CellAt(env, NineRow(k), NineStep(k), spots[k].at)
    {
      NineCell(env, k);
    }
    forall j, k | 0 <= j < k < |spots|
      ensures spots[j].id != spots[k].id && (0 < j ==> spots[j].at != spots[k].at)
    {
      NineCell(env, j);
      NineCell(env, k);
      if 0 < j {
        CellsDiffer(env, NineRow(j), NineStep(j), NineRow(k), NineStep(k));
      }
    }
  }

  /** A row in the terms of the code. */
  lemma RowIs(env: Env, row: int)
    ensures var x, y := env.table.FootSpot().x, env.table.FootSpot().y - RowHeight(env) * row as real;
      && var dx := BALL_RADIUS * 1.00005;
      && Cell(env, row, -4) == Point(x - dx * 4.0, y)
      && Cell(env, row, -3) == Point(x - dx * 3.0, y)
      && Cell(env, row, -2) == Point(x - dx * 2.0, y)
      && Cell(env, row, -1) == Point(x - dx, y)
      && Cell(env, row, 0) == Point(x, y)
      && Cell(env, row, 1) == Point(x + dx, y)
      && Cell(env, row, 2) == Point(x + dx * 2.0, y)
      && Cell(env, row, 3) == Point(x + dx * 3.0, y)
      && Cell(env, row, 4) == Point(x + dx * 4.0, y)
  {
  }

  lemma CellsDiffer(env: Env, row1: int, step1: int, row2: int, step2: int)
    requires row1 != row2 || step1 != step2
    requires RowHeight(env) > 0.0
    ensures Cell(env, row1, step1) != Cell(env, row2, step2)
  {
    var dx, dy := (step1 - step2) as real, (row1 - row2) as real;
    assert Cell(env, row1, step1).x - Cell(env, row2, step2).x == dx * PITCH;
    assert Cell(env, row2, step2).y - Cell(env, row1, step1).y == dy * RowHeight(env);
    var x := Square(dx);
    var y := Square(dy);
    if dy != 0.0 {
      NoZero(dy, RowHeight(env));
    }
  }

  lemma NoZero(x: real, y: real)
    requires x != 0.0 && y != 0.0
    ensures x * y != 0.0
  {
  }

  // ---------------------------------------------------------------- the gap

  /** A draw of the noise within three standard deviations. */
  predicate Slight(noise: Point) { noise.x * noise.x + noise.y * noise.y <= (BALL_RADIUS * DITHER) * (BALL_RADIUS * DITHER) }

  /** The table every game is played on, and a square root that gets that of three right. */
  ghost predicate Played(env: Env) { env.table == DEFAULT_TABLE && env.root(3.0) * env.root(3.0) == 3.0 }

  /** Apart by the distance of neighbours at least. */
  predicate Distant(dx: real, dy: real) { dx * dx + dy * dy >= 4.0 * PITCH * PITCH }

  /** A whole number of half distances to the side and of rows up. */
  lemma CellsApart(env: Env, a: int, b: int, x: real, y: real)
    requires Played(env)
    requires (a - b) % 2 == 0 && (a != 0 || b != 0)
    requires x == Times(a, PITCH) && y == Times(b, RowHeight(env))
    ensures Distant(x, y)
  {
    var h := RowHeight(env);
    var (p, q) := (a * a, b * b);
    NoSmall(a, b);
    assert x * x == p as real * (PITCH * PITCH) by {
      SquareOfProduct(a, PITCH);
    }
    assert y * y == q as real * (h * h) by {
      SquareOfProduct(b, h);
    }
    assert h * h == 3.0 * (PITCH * PITCH) by {
      var s := env.root(3.0);
      assert h * h == (BALL_RADIUS * 1.00005) * (BALL_RADIUS * 1.00005) * (s * s);
    }
    assert x * x + y * y == (p + 3 * q) as real * (PITCH * PITCH);
  }

  lemma NoSmall(a: int, b: int)
    requires (a - b) % 2 == 0 && (a != 0 || b != 0)
    ensures a * a + 3 * (b * b) >= 4
  {
    assert a * a >= 0 && b * b >= 0;
    if b == 0 {
      assert a >= 2 || a <= -2;
      assert a * a >= 4;
    } else if a == 0 {
      assert b >= 2 || b <= -2;
      assert b * b >= 4;
    } else {
      assert a * a >= 1 && b * b >= 1;
    }
  }

  lemma SquareOfProduct(k: int, x: real)
    ensures Times(k, x) * Times(k, x) == (k * k) as real * (x * x)
  {
    assert (k as real) * (k as real) == (k * k) as real;
  }

  const SHARE: real := DITHER / (1.0 + DITHER)

  lemma Spread(d: real, e: real)
    ensures 2.0 * (d * e) >= -SHARE * (d * d) - (e * e) / SHARE
  {
    var s := Square(SHARE * d + e);
    assert s == SHARE * SHARE * (d * d) + 2.0 * SHARE * (d * e) + e * e;
  }

  lemma Enough(d: real, c: real, e: real)
    requires d >= 4.0 * PITCH * PITCH && e <= 4.0 * ((BALL_RADIUS * DITHER) * (BALL_RADIUS * DITHER))
    requires 2.0 * c >= -SHARE * d - e / SHARE
    ensures d + 2.0 * c + e >= 4.0 * BALL_RADIUS * BALL_RADIUS
  {
  }

  lemma SquareOfSum(x: real, y: real)
    ensures (x + y) * (x + y) == x * x + 2.0 * (x * y) + y * y
  {
  }

  lemma SquareOfDifference(x: real, y: real)
    ensures (x - y) * (x - y) <= 2.0 * (x * x) + 2.0 * (y * y)
  {
    var s := Square(x + y);
  }

  lemma Shifted(dx: real, dy: real, ex: real, ey: real)
    requires Distant(dx, dy)
    requires ex * ex + ey * ey <= 4.0 * ((BALL_RADIUS * DITHER) * (BALL_RADIUS * DITHER))
    ensures (dx + ex) * (dx + ex) + (dy + ey) * (dy + ey) >= 4.0 * BALL_RADIUS * BALL_RADIUS
  {
    Spread(dx, ex);
    Spread(dy, ey);
    SquareOfSum(dx, ex);
    SquareOfSum(dy, ey);
    Enough(dx * dx + dy * dy, dx * ex + dy * ey, ex * ex + ey * ey);
  }

  lemma NoiseApart(m: Point, n: Point, ex: real, ey: real)
    requires Slight(m) && Slight(n) && ex == m.x - n.x && ey == m.y - n.y
    ensures ex * ex + ey * ey <= 4.0 * ((BALL_RADIUS * DITHER) * (BALL_RADIUS * DITHER))
  {
    SquareOfDifference(m.x, n.x);
    SquareOfDifference(m.y, n.y);
  }

  /** Two points at least `2 * PITCH` apart stay two radii apart when both are shifted slightly. */
  lemma StayApart(p: Point, q: Point, m: Point, n: Point, dx: real, dy: real)
    requires dx == p.x - q.x && dy == p.y - q.y
    requires Distant(dx, dy)
    requires Slight(m) && Slight(n)
    ensures Closeness(p.Plus(m), q.Plus(n)) <= 0.0
  {
    hide Slight, Closeness, Distant;
    var ex: real :| ex == m.x - n.x;
    var ey: real :| ey == m.y - n.y;
    NoiseApart(m, n, ex, ey);
    Shifted(dx, dy, ex, ey);
    ClosenessIs(p.Plus(m), q.Plus(n), dx + ex, dy + ey);
  }

  lemma ClosenessIs(p: Point, q: Point, x: real, y: real)
    requires x == p.x - q.x && y == p.y - q.y
    ensures Closeness(p, q) == 4.0 * BALL_RADIUS * BALL_RADIUS - x * x - y * y
  {
  }

  // ---------------------------------------------------------------- the balls

  /** Every listed ball ends where it is listed, moved by its own draw, and no other ball is added. */
  lemma RackedAt(balls: seq<Ball>, spots: seq<Spot>, noise: BallId -> Point)
    requires forall j, k :: 0 <= j < k < |spots| ==> spots[j].id != spots[k].id
    ensures var racked := Racked(balls, spots, noise);
      && (forall k :: 0 <= k < |spots| ==> Get(racked, spots[k].id).r == spots[k].at.Plus(noise(spots[k].id)))
      && (forall id: BallId :: Bears(racked, id) ==> Listed(spots, id) || Bears(balls, id))
  {
    hide PlaceAll, Shaken;
    PlacedAt(balls, spots);
    var placed := PlaceAll(balls, spots);
    var racked := Racked(balls, spots, noise);
    assert |racked| == |placed| && forall i :: 0 <= i < |placed| ==> racked[i] == Shaken(placed[i], noise(placed[i].id));
    forall k | 0 <= k < |spots|
      ensures Get(racked, spots[k].id).r == spots[k].at.Plus(noise(spots[k].id))
    {
      var id := spots[k].id;
      SameIdsFind(placed, racked, id);
      ShakenAt(placed[Find(placed, id)], noise(id));
    }
    forall id: BallId | Bears(racked, id)
      ensures Listed(spots, id) || Bears(balls, id)
    {
      var i :| 0 <= i < |racked| && racked[i].id == id;
      assert placed[i].id == id;
      NoneAdded(balls, spots, id);
    }
  }

  lemma ShakenAt(b: Ball, noise: Point)
    ensures Shaken(b, noise).r == b.r.Plus(noise)
  {
  }

  lemma ListedRest(spots: seq<Spot>, id: BallId)
    requires spots != []
    ensures Listed(spots, id) <==> spots[0].id == id || Listed(spots[1..], id)
  {
    if Listed(spots, id) {
      var k :| 0 <= k < |spots| && spots[k].id == id;
      assert k > 0 ==> spots[1..][k - 1].id == id;
    }
  }

  ghost predicate Bears(balls: seq<Ball>, id: BallId) { exists j :: 0 <= j < |balls| && balls[j].id == id }

  lemma {:induction false} PlacedAt(balls: seq<Ball>, spots: seq<Spot>)
    requires forall j, k :: 0 <= j < k < |spots| ==> spots[j].id != spots[k].id
    ensures var placed := PlaceAll(balls, spots);
      forall k :: 0 <= k < |spots| ==> Find(placed, spots[k].id) < |placed| && Get(placed, spots[k].id).r == spots[k].at
    decreases |spots|
  {
    hide Place, Get;
    if spots != [] {
      var (first, rest) := (spots[0], spots[1..]);
      var next := Place(balls, first.id, first.at);
      PlacedAt(next, rest);
      UnlistedStay(next, rest, first.id);
      var placed := PlaceAll(next, rest);
      assert Get(next, first.id).r == first.at by {
        PlacedThere(balls, first.id, first.at);
      }
      forall k | 0 <= k < |spots|
        ensures Find(placed, spots[k].id) < |placed| && Get(placed, spots[k].id).r == spots[k].at
      {
        assert k > 0 ==> spots[k] == rest[k - 1];
      }
    }
  }

  lemma PlacedThere(balls: seq<Ball>, id: BallId, at: Point)
    ensures Get(Place(balls, id, at), id).r == at
  {
  }

  lemma {:induction false} UnlistedStay(balls: seq<Ball>, spots: seq<Spot>, id: BallId)
    requires !Listed(spots, id) && Find(balls, id) < |balls|
    ensures var placed := PlaceAll(balls, spots); Find(placed, id) < |placed| && Get(placed, id) == Get(balls, id)
    decreases |spots|
  {
    hide Place, Get;
    if spots != [] {
      ListedRest(spots, id);
      PlaceOthers(balls, spots[0].id, spots[0].at, id);
      UnlistedStay(Place(balls, spots[0].id, spots[0].at), spots[1..], id);
    }
  }

  lemma {:induction false} NoneAdded(balls: seq<Ball>, spots: seq<Spot>, id: BallId)
    requires Bears(PlaceAll(balls, spots), id)
    ensures Listed(spots, id) || Bears(balls, id)
    decreases |spots|
  {
    hide Place;
    if spots != [] {
      var next := Place(balls, spots[0].id, spots[0].at);
      NoneAdded(next, spots[1..], id);
      ListedRest(spots, id);
      if Bears(next, id) {
        var j: nat :| j < |next| && next[j].id == id;
        PlacedFrom(balls, spots[0].id, spots[0].at, j);
      }
    }
  }

  lemma PlaceOthers(balls: seq<Ball>, id: BallId, at: Point, other: BallId)
    requires id != other && Find(balls, other) < |balls|
    ensures var next := Place(balls, id, at); Find(next, other) < |next| && Get(next, other) == Get(balls, other)
  {
    var next := Place(balls, id, at);
    var k := Find(balls, other);
    assert k != Find(balls, id);
    assert next[k] == balls[k];
    forall i | 0 <= i < k
      ensures next[i].id != other
    {
      assert balls[i].id != other;
    }
    assert Find(next, other) == k;
  }

  lemma PlacedFrom(balls: seq<Ball>, id: BallId, at: Point, j: nat)
    requires j < |Place(balls, id, at)|
    ensures var b := Place(balls, id, at)[j]; b.id == id || (j < |balls| && balls[j].id == b.id)
  {
  }

  // ---------------------------------------------------------------- racking succeeds

  /** Two racked balls do not overlap. */
  lemma SpotsApart(env: Env, spots: seq<Spot>, noise: BallId -> Point, j: nat, k: nat)
    requires Played(env) && Latticed(env, spots) && j < k < |spots|
    requires Slight(noise(spots[j].id)) && Slight(noise(spots[k].id))
    ensures var (p, q) := (spots[j].at.Plus(noise(spots[j].id)), spots[k].at.Plus(noise(spots[k].id)));
      Closeness(p, q) <= 0.0 && Closeness(q, p) <= 0.0
  {
    hide Slight, Closeness, Latticed, Played, Distant;
    var (p, q) := (spots[j].at, spots[k].at);
    var dx: real :| dx == p.x - q.x;
    var dy: real :| dy == p.y - q.y;
    FarApart(env, spots, j, k, dx, dy);
    StayApart(p, q, noise(spots[j].id), noise(spots[k].id), dx, dy);
    ClosenessBothWays(p.Plus(noise(spots[j].id)), q.Plus(noise(spots[k].id)));
  }

  lemma ClosenessBothWays(p: Point, q: Point)
    ensures Closeness(p, q) == Closeness(q, p)
  {
    var (x, y) := (p.x - q.x, p.y - q.y);
    assert Closeness(p, q) == 4.0 * BALL_RADIUS * BALL_RADIUS - x * x - y * y;
    assert Closeness(q, p) == 4.0 * BALL_RADIUS * BALL_RADIUS - -x * -x - -y * -y;
  }

  lemma FarApart(env: Env, spots: seq<Spot>, j: nat, k: nat, dx: real, dy: real)
    requires Played(env) && Latticed(env, spots) && j < k < |spots|
    requires dx == spots[j].at.x - spots[k].at.x && dy == spots[j].at.y - spots[k].at.y
    ensures Distant(dx, dy)
  {
    hide CellAt, Distant;
    assert InLattice(env, spots[k].at);
    var row2: int, step2: int :| CellAt(env, row2, step2, spots[k].at);
    if j == 0 {
      CueFar(env, row2, step2, spots[k].at);
      FarUp(dx, dy);
    } else {
      assert InLattice(env, spots[j].at);
      var row1: int, step1: int :| CellAt(env, row1, step1, spots[j].at);
      CellsFar(env, row1, step1, row2, step2, spots[j].at, spots[k].at, dx, dy);
    }
  }

  lemma CueFar(env: Env, row: int, step: int, p: Point)
    requires env.table == DEFAULT_TABLE && CellAt(env, row, step, p)
    ensures env.table.length * 3.0 / 4.0 - p.y >= 1.0
  {
    assert IsRoot(env.root);
    NotNegative(row, RowHeight(env));
  }

  lemma FarUp(dx: real, dy: real)
    requires dy >= 1.0
    ensures Distant(dx, dy)
  {
    var s := Square(dx);
    var t := Product(dy - 1.0, dy + 1.0);
  }

  lemma CellsFar(env: Env, row1: int, step1: int, row2: int, step2: int, p: Point, q: Point, dx: real, dy: real)
    requires Played(env)
    requires CellAt(env, row1, step1, p) && CellAt(env, row2, step2, q) && p != q
    requires dx == p.x - q.x && dy == p.y - q.y
    ensures Distant(dx, dy)
  {
    hide Cell, RowHeight, Distant, Played, Times;
    Parity(row1, step1, row2, step2);
    StepGap(env, row1, step1, row2, step2);
    RowGap(env, row1, step1, row2, step2);
    CellsApart(env, step1 - step2, row2 - row1, dx, dy);
  }

  lemma Parity(row1: int, step1: int, row2: int, step2: int)
    requires (row1 - step1) % 2 == 0 && (row2 - step2) % 2 == 0
    ensures ((step1 - step2) - (row2 - row1)) % 2 == 0
  {
  }

  lemma StepGap(env: Env, row1: int, step1: int, row2: int, step2: int)
    ensures Cell(env, row1, step1).x - Cell(env, row2, step2).x == Times(step1 - step2, PITCH)
  {
  }

  lemma RowGap(env: Env, row1: int, step1: int, row2: int, step2: int)
    ensures Cell(env, row1, step1).y - Cell(env, row2, step2).y == Times(row2 - row1, RowHeight(env))
  {
    hide RowHeight;
  }

  lemma NotNegative(k: int, x: real)
    requires k >= 0 && x >= 0.0
    ensures k as real * x >= 0.0
  {
  }

  /** A slight shift is less than a radius either way. */
  lemma ShiftSmall(noise: Point)
    requires Slight(noise)
    ensures -BALL_RADIUS < noise.x < BALL_RADIUS && -BALL_RADIUS < noise.y < BALL_RADIUS
  {
    ComponentSmall(noise.x, noise.y);
    ComponentSmall(noise.y, noise.x);
  }

  lemma ComponentSmall(x: real, y: real)
    requires x * x + y * y <= (BALL_RADIUS * DITHER) * (BALL_RADIUS * DITHER)
    ensures -BALL_RADIUS < x < BALL_RADIUS
  {
    var s := Square(y);
    if x >= BALL_RADIUS {
      var p := Product(x - BALL_RADIUS, x + BALL_RADIUS);
    } else if x <= -BALL_RADIUS {
      var p := Product(-x - BALL_RADIUS, BALL_RADIUS - x);
    }
  }

  lemma RowHeightSmall(env: Env)
    requires Played(env)
    ensures 0.0 <= RowHeight(env) < 3.0 * BALL_RADIUS
  {
    var s := env.root(3.0);
    assert IsRoot(env.root);
    if s >= 2.0 {
      var p := Product(s - 2.0, s + 2.0);
    }
  }

  lemma SpotInside(env: Env, spots: seq<Spot>, k: nat, noise: Point)
    requires Played(env) && Latticed(env, spots) && k < |spots| && Slight(noise)
    ensures Inside(env, spots[k].at.Plus(noise))
  {
    hide Slight;
    ShiftSmall(noise);
    if k > 0 {
      assert InLattice(env, spots[k].at);
      var row: int, step: int :| CellAt(env, row, step, spots[k].at);
      CellInside(env, row, step);
    }
  }

  lemma CellInside(env: Env, row: int, step: int)
    requires Played(env) && 0 <= row <= 4 && -4 <= step <= 4
    ensures var p := Cell(env, row, step);
      && 2.0 * BALL_RADIUS <= p.x <= env.table.width - 2.0 * BALL_RADIUS
      && 2.0 * BALL_RADIUS <= p.y <= env.table.length - 2.0 * BALL_RADIUS
  {
    RowHeightSmall(env);
    hide RowHeight;
    TimesBetween(row, RowHeight(env));
    assert Times(step, PITCH) <= 4.0 * PITCH && Times(step, PITCH) >= -4.0 * PITCH;
  }

  lemma TimesBetween(k: int, x: real)
    requires 0 <= k <= 4 && x >= 0.0
    ensures 0.0 <= Times(k, x) <= 4.0 * x
  {
    var p := Product(k as real, x);
    var q := Product(4.0 - k as real, x);
  }

  /** Balls racked on a lattice stand there in a valid placement whatever slight noise is added. */
  lemma LatticeStands(env: Env, balls: seq<Ball>, spots: seq<Spot>, noise: BallId -> Point)
    requires Played(env) && Latticed(env, spots) && RealIds(balls) && AtRest(balls)
    requires forall k :: 0 <= k < |spots| ==> spots[k].id < UNKNOWN_ID && Slight(noise(spots[k].id))
    requires forall i :: 0 <= i < |balls| ==> Listed(spots, balls[i].id)
    ensures ValidPlacement(env, Racked(balls, spots, noise))
  {
    hide Racked, PlaceAll, Slight, Inside, Closeness, Get;
    assert forall j, k :: 0 <= j < k < |spots| ==> spots[j].id != spots[k].id;
    RackedAt(balls, spots, noise);
    RackedReal(balls, spots, noise);
    var racked := Racked(balls, spots, noise);
    forall i | 0 <= i < |racked|
      ensures Inside(env, racked[i].r)
    {
      var k := SpotFor(balls, spots, noise, i);
      SpotInside(env, spots, k, noise(spots[k].id));
    }
    forall i, j | 0 <= i < j < |racked|
      ensures !Overlaps(racked[i], racked[j], env.epsilon)
    {
      var k := SpotFor(balls, spots, noise, i);
      var l := SpotFor(balls, spots, noise, j);
      assert racked[i].id != racked[j].id;
      if k < l {
        SpotsApart(env, spots, noise, k, l);
      } else {
        SpotsApart(env, spots, noise, l, k);
      }
    }
  }

  /** The `i`th ball is the `k`th listed one and stands at its spot. */
  ghost predicate SpotOf(racked: seq<Ball>, spots: seq<Spot>, noise: BallId -> Point, i: int, k: int) {
    && 0 <= i < |racked| && 0 <= k < |spots|
    && racked[i].id == spots[k].id && racked[i].r == spots[k].at.Plus(noise(spots[k].id))
  }

  lemma RackedReal(balls: seq<Ball>, spots: seq<Spot>, noise: BallId -> Point)
    requires RealIds(balls) && AtRest(balls)
    requires forall k :: 0 <= k < |spots| ==> spots[k].id < UNKNOWN_ID
    ensures RealIds(Racked(balls, spots, noise))
  {
    hide PlaceAll, Jitter;
    PlaceAllKeeps(balls, spots);
    JitterKeeps(PlaceAll(balls, spots), noise);
  }

  lemma SpotFor(balls: seq<Ball>, spots: seq<Spot>, noise: BallId -> Point, i: nat) returns (k: nat)
    requires RealIds(balls) && AtRest(balls) && i < |Racked(balls, spots, noise)|
    requires forall j, k :: 0 <= j < k < |spots| ==> spots[j].id != spots[k].id
    requires forall k :: 0 <= k < |spots| ==> spots[k].id < UNKNOWN_ID
    requires forall i :: 0 <= i < |balls| ==> Listed(spots, balls[i].id)
    ensures SpotOf(Racked(balls, spots, noise), spots, noise, i, k)
  {
    hide Racked, Get;
    var racked := Racked(balls, spots, noise);
    RackedAt(balls, spots, noise);
    RackedReal(balls, spots, noise);
    FindAt(racked, i);
    assert Bears(racked, racked[i].id);
    assert Listed(spots, racked[i].id);
    k :| k < |spots| && spots[k].id == racked[i].id;
  }

  /** Neither check of `addNoise` fails in eight-ball: the balls as placed are in a valid placement, and
      so they are after any draws within three standard deviations. */
  lemma EightRackStands(env: Env, balls: seq<Ball>, noise: BallId -> Point)
    requires Played(env) && RealIds(balls) && AtRest(balls)
    requires forall id: BallId :: id < EightBall.BALLS ==> Slight(noise(id))
    ensures ValidPlacement(env, PlaceAll(balls, EightBall.EightSpots(env)))
    ensures ValidPlacement(env, Racked(balls, EightBall.EightSpots(env), noise))
  {
    var spots := EightBall.EightSpots(env);
    EightLatticed(env);
    Triangle(env, 0, 0);
    hide EightBall.EightSpots, PlaceAll, Racked, Slight, Latticed, ValidPlacement, Played, OnTable, AtRest;
    forall k | 0 <= k < |spots|
      ensures spots[k].id == k
    {
      EightCell(env, k);
    }
    forall i | 0 <= i < |balls|
      ensures Listed(spots, balls[i].id)
    {
      assert spots[balls[i].id].id == balls[i].id;
    }
    LatticeStands(env, balls, spots, noise);
    assert Slight(Point(0.0, 0.0)) by {
      NoShift();
    }
    LatticeStands(env, balls, spots, NOWHERE);
    Unshaken(balls, spots);
  }

  /** The same in nine-ball, which racks once. */
  lemma NineRackStands(env: Env, noise: BallId -> Point)
    requires Played(env)
    requires forall id: BallId :: id < NineBall.BALLS ==> Slight(noise(id))
    ensures ValidPlacement(env, PlaceAll([], NineBall.NineSpots(env)))
    ensures ValidPlacement(env, Racked([], NineBall.NineSpots(env), noise))
  {
    var spots := NineBall.NineSpots(env);
    NineLatticed(env);
    NineCell(env, 0);
    hide NineBall.NineSpots, PlaceAll, Racked, Slight, Latticed, ValidPlacement, Played;
    forall k | 0 <= k < |spots|
      ensures spots[k].id < NineBall.BALLS
    {
      NineCell(env, k);
    }
    LatticeStands(env, [], spots, noise);
    assert Slight(Point(0.0, 0.0)) by {
      NoShift();
    }
    LatticeStands(env, [], spots, NOWHERE);
    Unshaken([], spots);
  }

  const NOWHERE: BallId -> Point := (id: BallId) => Point(0.0, 0.0)

  lemma NoShift()
    ensures Slight(Point(0.0, 0.0))
  {
  }

  lemma Unshaken(balls: seq<Ball>, spots: seq<Spot>)
    ensures Racked(balls, spots, NOWHERE) == PlaceAll(balls, spots)
  {
    hide PlaceAll;
    var placed := PlaceAll(balls, spots);
    var racked := Racked(balls, spots, NOWHERE);
    forall i | 0 <= i < |placed|
      ensures racked[i] == placed[i]
    {
      assert racked[i] == Shaken(placed[i], Point(0.0, 0.0));
      assert placed[i].r.Plus(Point(0.0, 0.0)) == placed[i].r;
    }
  }
}
