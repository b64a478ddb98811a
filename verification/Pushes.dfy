/** What one push of `fixOverlap` does to two balls, and how many it takes to part them. */
module Pushes {
  import opened Wrappers
  import opened Vectors
  import opened Balls
  import opened Kinematics
  import opened ExactMotion
  import opened Overlapping

  /** `q` lies `m` away from `p` in the direction `h`. */
  ghost predicate Off(p: Point, q: Point, h: Vector, m: real) {
    h.z == 0.0 && h.Dot(h) == 1.0 && q.Minus(p).ToVector() == h.Times(m)
  }

  function Shift(p: Point, h: Vector, m: real): Point { p.Plus(h.Times(m).ToPoint()) }

  /** Any two points are so related. */
  lemma LineOf(env: Env, p: Point, q: Point) returns (h: Vector, m: real)
    requires ExactRoot(env.root)
    ensures Off(p, q, h, m) && m >= 0.0 && (m == 0.0 <==> p == q)
  {
    var v := q.Minus(p).ToVector();
    if p == q {
      h, m := Vector(1.0, 0.0, 0.0), 0.0;
    } else {
      assert v != ZERO;
      DirectionUnit(env, v);
      h, m := Direction(env, v), Mag(env.root, v);
    }
  }

  /** A ball is moved straight away from the other one, by the threshold. */
  lemma MovedAway(env: Env, b: Ball, other: Ball, h: Vector, m: real)
    requires ExactRoot(env.root) && Off(other.r, b.r, h, m) && m >= 0.0
    ensures MoveAway(env, b, other) == if m == 0.0 then None else Some(b.(r := Shift(b.r, h, env.epsilon)))
  {
    AlongUnit(env, h, m);
    hide Mag, Vector.Dot, Vector.Times;
  }

  lemma ShiftedOff(p: Point, q: Point, h: Vector, m: real, e: real)
    requires Off(p, q, h, m)
    ensures Off(p, Shift(q, h, e), h, m + e)
    ensures Off(Shift(p, h, -e), q, h, m + e)
  {
  }

  lemma Reversed(p: Point, q: Point, h: Vector, m: real)
    requires Off(p, q, h, m)
    ensures Off(q, p, h.Times(-1.0), m)
  {
    TimesUnit(h);
    assert p.Minus(q).ToVector() == h.Times(-1.0).Times(m);
  }

  lemma TimesUnit(h: Vector)
    ensures h.Times(-1.0).Dot(h.Times(-1.0)) == h.Dot(h)
  {
  }

  /** Two balls apart in their centres are each moved by the threshold along the line of centres, away from
      one another, and nothing else changes; two with one centre are an error. */
  lemma NudgeSpreads(env: Env, balls: seq<Ball>, i: nat, j: nat, h: Vector, m: real)
    requires ExactRoot(env.root) && j < i < |balls| && Off(balls[j].r, balls[i].r, h, m) && m >= 0.0
    ensures if m == 0.0 then Nudge(env, balls, i, j) == Jammed(balls)
            else
              var (p, q) := (Shift(balls[j].r, h, -env.epsilon), Shift(balls[i].r, h, env.epsilon));
              && Nudge(env, balls, i, j) == Pushed(balls[i := balls[i].(r := q)][j := balls[j].(r := p)])
              && Off(p, q, h, m + 2.0 * env.epsilon)
  {
    hide MoveAway, Off, Shift;
    MovedAway(env, balls[i], balls[j], h, m);
    if m > 0.0 {
      var e := env.epsilon;
      var first: Ball := MoveAway(env, balls[i], balls[j]).value;
      ShiftedOff(balls[j].r, balls[i].r, h, m, e);
      Reversed(balls[j].r, first.r, h, m + e);
      MovedAway(env, balls[j], first, h.Times(-1.0), m + e);
      ShiftBack(balls[j].r, h, e);
      ShiftedOff(balls[j].r, first.r, h, m + e, e);
      assert m + e + e == m + 2.0 * e;
    }
  }

  lemma ShiftBack(p: Point, h: Vector, e: real)
    ensures Shift(p, h.Times(-1.0), e) == Shift(p, h, -e)
  {
  }

  /** They overlap below two radii. */
  lemma ClashBelow(balls: seq<Ball>, i: nat, j: nat, h: Vector, m: real)
    requires j < i < |balls| && Off(balls[j].r, balls[i].r, h, m) && m >= 0.0
    ensures Clash(balls, i, j) <==> balls[i].InPlay() && balls[j].InPlay() && m < 2.0 * BALL_RADIUS
  {
    var (p, q) := (balls[j].r, balls[i].r);
    ClosenessOff(p, q, h, m);
    if m < 2.0 * BALL_RADIUS {
      var s := Product(2.0 * BALL_RADIUS - m, 2.0 * BALL_RADIUS + m);
    } else {
      var s := Product(m - 2.0 * BALL_RADIUS, 2.0 * BALL_RADIUS + m);
    }
  }

  lemma ClosenessOff(p: Point, q: Point, h: Vector, m: real)
    requires Off(p, q, h, m)
    ensures Closeness(q, p) == (2.0 * BALL_RADIUS - m) * (2.0 * BALL_RADIUS + m)
  {
    var (x, y) := (h.x * m, h.y * m);
    assert q.x - p.x == x && q.y - p.y == y;
    assert Closeness(q, p) == 4.0 * BALL_RADIUS * BALL_RADIUS - x * x - y * y;
    SquareParts(h, m);
  }

  lemma SquareParts(h: Vector, m: real)
    requires h.z == 0.0 && h.Dot(h) == 1.0
    ensures (h.x * m) * (h.x * m) + (h.y * m) * (h.y * m) == m * m
  {
    assert (h.x * m) * (h.x * m) + (h.y * m) * (h.y * m) == m * m * h.Dot(h);
  }

  /** Two balls in play and alone on the table are parted by `count` passes exactly if they overlap by no more
      than two thresholds a pass. */
  lemma {:induction false} PairParts(env: Env, balls: seq<Ball>, h: Vector, m: real, count: nat)
    requires ExactRoot(env.root) && |balls| == 2 && balls[0].InPlay() && balls[1].InPlay()
    requires Off(balls[0].r, balls[1].r, h, m) && 0.0 < m && 0 < count
    ensures var r := Separate(env, balls, count);
      && (r.Separated? <==> 2.0 * BALL_RADIUS - m <= Gain(env, count))
      && (!r.Separated? ==> r.StillOverlapping?)
    decreases count
  {
    hide Off, Clash, Nudge, PassFrom;
    ClashBelow(balls, 1, 0, h, m);
    PairPass(env, balls);
    GainGrows(env, count);
    if Clash(balls, 1, 0) {
      NudgeSpreads(env, balls, 1, 0, h, m);
      var next := Nudge(env, balls, 1, 0).balls;
      ClashBelow(next, 1, 0, h, m + 2.0 * env.epsilon);
      if count > 1 {
        PairParts(env, next, h, m + 2.0 * env.epsilon, count - 1);
      } else {
        PairOnly(next);
      }
    }
  }

  /** So `fixOverlap` parts two balls exactly if they overlap by no more than two hundred thresholds. */
  lemma PairFixed(env: Env, balls: seq<Ball>, h: Vector, m: real)
    requires ExactRoot(env.root) && |balls| == 2 && balls[0].InPlay() && balls[1].InPlay()
    requires Off(balls[0].r, balls[1].r, h, m) && 0.0 < m
    ensures Separate(env, balls, PASSES).Separated? <==> 2.0 * BALL_RADIUS - m <= 200.0 * env.epsilon
  {
    hide Off, Separate;
    PairParts(env, balls, h, m, PASSES);
  }

  /** What `count` passes add to the distance of two centres. */
  function Gain(env: Env, count: nat): real { 2.0 * env.epsilon * count as real }

  lemma GainGrows(env: Env, count: nat)
    requires 0 < count
    ensures Gain(env, count) == 2.0 * env.epsilon + Gain(env, count - 1) && Gain(env, count - 1) >= 0.0 && Gain(env, 0) == 0.0
  {
    var p := Product(2.0 * env.epsilon, (count - 1) as real);
  }

  lemma PairPass(env: Env, balls: seq<Ball>)
    requires |balls| == 2
    ensures PassFrom(env, balls, 0, 0, false) ==
            if !Clash(balls, 1, 0) then Pass(balls, false)
            else var r := Nudge(env, balls, 1, 0); if r.Jammed? then Stuck(r.balls) else Pass(r.balls, true)
  {
    hide Clash, Nudge;
    assert PassFrom(env, balls, 0, 0, false) == PassFrom(env, balls, 1, 0, false);
    if Clash(balls, 1, 0) {
      var next := Nudge(env, balls, 1, 0).balls;
      assert PassFrom(env, next, 1, 1, true) == PassFrom(env, next, 2, 0, true) == Pass(next, true);
    } else {
      assert PassFrom(env, balls, 1, 1, false) == PassFrom(env, balls, 2, 0, false) == Pass(balls, false);
    }
  }

  lemma PairOnly(balls: seq<Ball>)
    requires |balls| == 2
    ensures AnyClash(balls) <==> Clash(balls, 1, 0)
  {
    hide Clash;
  }
}
