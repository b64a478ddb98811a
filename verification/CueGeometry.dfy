/** What the clearance test says of the cue in space. */
module CueGeometry {
  import opened Vectors
  import opened Balls
  import opened Events
  import opened Kinematics
  import opened ExactMotion
  import opened Clearance

  /** A point of the cue: the tip at 0, the butt end at 1. */
  function Along(tip: Vector, butt: Vector, t: real): Vector { tip.Plus(butt.Minus(tip).Times(t)) }

  /** A point within the ball at `p`. */
  predicate Inside(q: Vector, p: Point) {
    var d := q.Minus(Vector(p.x, p.y, BALL_RADIUS)); d.Dot(d) <= BALL_RADIUS * BALL_RADIUS
  }

  /** Some point strictly between its ends lies in the ball. */
  ghost predicate Pierces(tip: Vector, butt: Vector, p: Point) {
    exists t: real :: 0.0 < t < 1.0 && Inside(Along(tip, butt, t), p)
  }

  // ---------------------------------------------------------------- balls

  lemma SquareOn(s: real, along: real, cc: real)
    ensures s * s - 2.0 * (s * along) + cc == (s - along) * (s - along) - (along * along - cc)
  {
  }

  lemma DotLine(l: Vector, c: Vector, s: real)
    requires l.Dot(l) == 1.0
    ensures l.Times(s).Minus(c).Dot(l.Times(s).Minus(c)) == s * s - 2.0 * (s * l.Dot(c)) + c.Dot(c)
  {
    assert l.Times(s).Minus(c).Dot(l.Times(s).Minus(c)) == s * s * l.Dot(l) - 2.0 * (s * l.Dot(c)) + c.Dot(c);
  }

  /** Distance from the middle of the ball, along a line with unit direction. */
  lemma OnLineInside(l: Vector, c: Vector, s: real)
    requires l.Dot(l) == 1.0
    ensures var d := l.Times(s).Minus(c);
      d.Dot(d) <= BALL_RADIUS * BALL_RADIUS <==> (s - l.Dot(c)) * (s - l.Dot(c)) <= Determinant(l, c)
  {
    DotLine(l, c, s);
    SquareOn(s, l.Dot(c), c.Dot(c));
  }

  /** The determinant is too small for its own square to exceed it. */
  lemma DeterminantSmall(l: Vector, c: Vector)
    requires l.Dot(l) == 1.0
    ensures Determinant(l, c) <= BALL_RADIUS * BALL_RADIUS
  {
    var along := l.Dot(c);
    DotLine(l, c, along);
    DotNotNegative(l.Times(along).Minus(c));
    hide Vector.Dot, Vector.Times, Vector.Minus;
    SquareOn(along, along, c.Dot(c));
    assert (along - along) * (along - along) == 0.0;
  }

  lemma DotNotNegative(d: Vector)
    ensures d.Dot(d) >= 0.0
  {
    var x := Square(d.x);
    var y := Square(d.y);
    var z := Square(d.z);
    assert d.Dot(d) == x + y + z;
  }

  lemma SquareBelowSelf(d: real)
    requires 0.0 <= d <= 1.0
    ensures d * d <= d
  {
    var p := Product(d, 1.0 - d);
  }

  /** A place on the line from its origin is within the ball. */
  predicate InsideAt(along: real, det: real, s: real) { (s - along) * (s - along) <= det }

  lemma InsideEnds(along: real, det: real)
    requires 0.0 <= det <= 1.0
    ensures InsideAt(along, det, along - det) && InsideAt(along, det, along + det) && InsideAt(along, det, along)
  {
    SquareBelowSelf(det);
    assert (along - det) - along == -det && (along + det) - along == det;
    assert -det * -det == det * det;
  }

  lemma BetweenEnds(along: real, det: real, s: real, length: real)
    requires det <= 1.0 && 0.0 < s < length && InsideAt(along, det, s)
    requires !InsideAt(along, det, 0.0) && !InsideAt(along, det, length)
    ensures 0.0 <= det && 0.0 < along - det && along < length
  {
    var q := Square(s - along);
    SquareBelowSelf(det);
    assert along * along > det && (length - along) * (length - along) > det;
    if along <= 0.0 {
      SquaresUp(-along, s - along);
    } else if along >= length {
      SquaresUp(along - length, along - s);
    } else if along <= det {
      SquaresUp(along, det);
    }
  }

  lemma SquaresUp(a: real, b: real)
    requires 0.0 <= a <= b
    ensures a * a <= b * b
  {
    var p := Product(b - a, b + a);
  }

  /** The test at the exact threshold: it never reports a ball the line does not enter on the cue, and if
      neither end of the cue lies in the ball it reports every one the cue enters. */
  lemma MeetsIs(env: Env, l: Vector, c: Vector)
    requires env.epsilon == 0.0 && l.Dot(l) == 1.0
    ensures var (along, det, length) := (l.Dot(c), Determinant(l, c), env.table.cueLength);
      && (Meets(env, l, c) ==> exists s: real :: 0.0 < s < length && InsideAt(along, det, s))
      && (!InsideAt(along, det, 0.0) && !InsideAt(along, det, length) && (exists s: real :: 0.0 < s < length && InsideAt(along, det, s)) ==>
            Meets(env, l, c))
  {
    DeterminantSmall(l, c);
    hide Determinant, Vector.Dot, InsideAt;
    var (along, det, length) := (l.Dot(c), Determinant(l, c), env.table.cueLength);
    if 0.0 <= det {
      InsideEnds(along, det);
    }
    if !InsideAt(along, det, 0.0) && !InsideAt(along, det, length) {
      forall s: real | 0.0 < s < length && InsideAt(along, det, s)
        ensures Meets(env, l, c)
      {
        BetweenEnds(along, det, s, length);
      }
    }
  }

  /** The cue is straight and as long as the table says. */
  lemma CueLine(env: Env, tip: Vector, m: ShotParams) returns (l: Vector)
    requires ExactRoot(env.root)
    ensures l.Dot(l) == 1.0 && Butt(env, tip, m).Minus(tip) == l.Times(env.table.cueLength)
    ensures Butt(env, tip, m).Minus(tip) != ZERO && Direction(env, Butt(env, tip, m).Minus(tip)) == l
  {
    hide Mag, Norm, Direction, Forward, Vector.Dot;
    var (q, c, s, k) := (Forward(env, m.phi), env.cos(m.theta), env.sin(m.theta), env.table.cueLength);
    ForwardUnit(env, m.phi);
    assert c * c + s * s == 1.0;
    l := Slanted(q, c, s);
    SlantedUnit(q, c, s);
    assert Butt(env, tip, m).Minus(tip) == l.Times(k);
    SlopeDirection(env, l, k);
  }

  function Slanted(q: Vector, c: real, s: real): Vector { Vector(-(q.x * c), -(q.y * c), s) }

  lemma SlantedUnit(q: Vector, c: real, s: real)
    requires q.z == 0.0 && q.Dot(q) == 1.0 && c * c + s * s == 1.0
    ensures Slanted(q, c, s).Dot(Slanted(q, c, s)) == 1.0
  {
    assert (q.x * c) * (q.x * c) + (q.y * c) * (q.y * c) == c * c * q.Dot(q);
  }

  lemma ForwardUnit(env: Env, phi: real)
    requires ExactRoot(env.root)
    ensures Forward(env, phi).z == 0.0 && Forward(env, phi).Dot(Forward(env, phi)) == 1.0
  {
    hide Mag, Norm;
    var v := Vector(env.cos(phi), env.sin(phi), 0.0);
    assert env.cos(phi) * env.cos(phi) + env.sin(phi) * env.sin(phi) == 1.0;
    assert v != ZERO by {
      HeadingNonzero(env, v);
    }
    DirectionUnit(env, v);
  }

  /** A point of the cue and the ball, seen from the tip. */
  lemma SeenFromTip(tip: Vector, butt: Vector, l: Vector, k: real, p: Point, t: real, s: real)
    requires l.Dot(l) == 1.0 && butt.Minus(tip) == l.Times(k) && s == k * t
    ensures var c := Vector(p.x, p.y, BALL_RADIUS).Minus(tip);
      Inside(Along(tip, butt, t), p) <==> InsideAt(l.Dot(c), Determinant(l, c), s)
  {
    var c := Vector(p.x, p.y, BALL_RADIUS).Minus(tip);
    OnLineInside(l, c, s);
    TimesTwice(l, k, t);
    assert Along(tip, butt, t).Minus(Vector(p.x, p.y, BALL_RADIUS)) == l.Times(s).Minus(c);
  }

  lemma TimesTwice(l: Vector, k: real, t: real)
    ensures l.Times(k).Times(t) == l.Times(k * t)
  {
  }

  /** A ball reported in the way is one the cue enters; if neither end of the cue lies in the ball, the ball is
      reported exactly if the cue enters it. */
  lemma BallBlocksIs(env: Env, tip: Vector, m: ShotParams, p: Point)
    requires ExactRoot(env.root) && env.epsilon == 0.0
    ensures var butt := Butt(env, tip, m);
      && (BallBlocks(env, tip, butt, p) ==> Pierces(tip, butt, p))
      && (!Inside(tip, p) && !Inside(butt, p) ==> (BallBlocks(env, tip, butt, p) <==> Pierces(tip, butt, p)))
  {
    hide Mag, Norm, Direction, Butt, Forward, Determinant, Vector.Dot, InsideAt, Inside, Meets, Along;
    var butt := Butt(env, tip, m);
    var l := CueLine(env, tip, m);
    var k := env.table.cueLength;
    var c := Vector(p.x, p.y, BALL_RADIUS).Minus(tip);
    MeetsIs(env, l, c);
    assert BallBlocks(env, tip, butt, p) == Meets(env, l, c);
    PiercesIs(tip, butt, l, k, p);
    assert Inside(tip, p) == InsideAt(l.Dot(c), Determinant(l, c), 0.0) && Inside(butt, p) == InsideAt(l.Dot(c), Determinant(l, c), k) by {
      CueEnds(tip, butt);
      SeenFromTip(tip, butt, l, k, p, 0.0, 0.0);
      SeenFromTip(tip, butt, l, k, p, 1.0, k);
    }
  }

  lemma PiercesIs(tip: Vector, butt: Vector, l: Vector, k: real, p: Point)
    requires l.Dot(l) == 1.0 && butt.Minus(tip) == l.Times(k) && 0.0 < k
    ensures var c := Vector(p.x, p.y, BALL_RADIUS).Minus(tip);
      Pierces(tip, butt, p) <==> exists s: real :: 0.0 < s < k && InsideAt(l.Dot(c), Determinant(l, c), s)
  {
    hide Determinant, Vector.Dot, InsideAt, Inside, Along;
    var c := Vector(p.x, p.y, BALL_RADIUS).Minus(tip);
    var (along, det) := (l.Dot(c), Determinant(l, c));
    if Pierces(tip, butt, p) {
      var t: real :| 0.0 < t < 1.0 && Inside(Along(tip, butt, t), p);
      var s := PartOf(k, t);
      SeenFromTip(tip, butt, l, k, p, t, s);
    }
    forall s: real | 0.0 < s < k && InsideAt(along, det, s)
      ensures Pierces(tip, butt, p)
    {
      var t := ShareOf(s, k);
      SeenFromTip(tip, butt, l, k, p, t, s);
    }
  }

  lemma CueEnds(tip: Vector, butt: Vector)
    ensures Along(tip, butt, 0.0) == tip && Along(tip, butt, 1.0) == butt
  {
  }

  lemma QuotientBetween(s: real, k: real)
    requires 0.0 < s < k
    ensures 0.0 < s / k < 1.0 && k * (s / k) == s
  {
    var q := s / k;
    assert q * k == s;
    if q <= 0.0 {
      var p := Product(-q, k);
    } else if q >= 1.0 {
      var p := Product(q - 1.0, k);
    }
  }

  lemma ShareOf(s: real, k: real) returns (t: real)
    requires 0.0 < s < k
    ensures 0.0 < t < 1.0 && s == k * t
  {
    t := s / k;
    QuotientBetween(s, k);
  }

  lemma PartOf(k: real, t: real) returns (s: real)
    requires 0.0 < k && 0.0 < t < 1.0
    ensures 0.0 < s < k && s == k * t
  {
    s := Product(k, t);
    var q := Product(k, 1.0 - t);
  }

  // ---------------------------------------------------------------- rails

  /** Over the edge of the table on that side. */
  predicate OverEdge(env: Env, q: Vector, side: Side) {
    match side
    case SouthSide => q.y == 0.0
    case EastSide => q.x == env.table.width
    case WestSide => q.x == 0.0
    case NorthSide => q.y == env.table.length
  }

  /** Further out than that edge. */
  predicate Outside(env: Env, q: Vector, side: Side) {
    match side
    case SouthSide => q.y < 0.0
    case EastSide => q.x > env.table.width
    case WestSide => q.x < 0.0
    case NorthSide => q.y > env.table.length
  }

  /** Passes over the edge no higher than the rail. */
  ghost predicate PassesLow(env: Env, tip: Vector, butt: Vector, side: Side) {
    exists t: real :: 0.0 < t < 1.0 && LowAt(env, Along(tip, butt, t), side)
  }

  predicate LowAt(env: Env, q: Vector, side: Side) { OverEdge(env, q, side) && q.z <= env.table.railHeight }

  /** A rail is reported exactly if the tip is on its inner side, the butt end beyond it, and the cue passes over
      it no higher than the rail is. */
  lemma RailBlocksIs(env: Env, tip: Vector, butt: Vector, side: Side)
    requires env.epsilon == 0.0
    ensures RailBlocks(env, tip, butt, side) <==>
              !Outside(env, tip, side) && !OverEdge(env, tip, side) && Outside(env, butt, side) && PassesLow(env, tip, butt, side)
  {
    if !Outside(env, tip, side) && !OverEdge(env, tip, side) && Outside(env, butt, side) {
      var edge := match side case SouthSide => 0.0 case EastSide => env.table.width case WestSide => 0.0 case NorthSide => env.table.length;
      var (from, to) := if side.SouthSide? || side.NorthSide? then (tip.y, butt.y) else (tip.x, butt.x);
      forall t: real
        ensures LowAt(env, Along(tip, butt, t), side) <==> Crosses(from, to, tip.z, butt.z, edge, env.table.railHeight, t)
      {
      }
      CrossingHeight(from, to, tip.z, butt.z, edge, env.table.railHeight);
    }
  }

  predicate Crosses(from: real, to: real, start: real, end: real, edge: real, height: real, t: real) {
    from + (to - from) * t == edge && start + (end - start) * t <= height
  }

  lemma CrossingHeight(from: real, to: real, start: real, end: real, edge: real, height: real)
    requires from < edge < to || from > edge > to
    ensures HeightAt(start, end, from, to, edge) <= height
      <==> exists t: real :: 0.0 < t < 1.0 && Crosses(from, to, start, end, edge, height, t)
  {
    var t := (edge - from) / (to - from);
    Crossing(from, to, edge);
    assert HeightAt(start, end, from, to, edge) == start + (end - start) * t;
    assert HeightAt(start, end, from, to, edge) <= height <==> Crosses(from, to, start, end, edge, height, t);
    forall u: real | Crosses(from, to, start, end, edge, height, u)
      ensures u == t
    {
      CrossedOnce(from, to, edge, u);
    }
    hide Crosses, HeightAt;
  }

  lemma Crossing(from: real, to: real, edge: real)
    requires from < edge < to || from > edge > to
    ensures var t := (edge - from) / (to - from); 0.0 < t < 1.0 && from + (to - from) * t == edge
  {
    if from < edge {
      QuotientBetween(edge - from, to - from);
    } else {
      QuotientBetween(from - edge, from - to);
      NegatedQuotient(from - edge, from - to);
    }
  }

  lemma NegatedQuotient(s: real, k: real)
    requires k != 0.0
    ensures s / k == (-s) / (-k)
  {
    QuotientIs(-s, -k, s / k);
  }

  lemma CrossedOnce(from: real, to: real, edge: real, u: real)
    requires from != to && from + (to - from) * u == edge
    ensures u == (edge - from) / (to - from)
  {
    QuotientIs(edge - from, to - from, u);
  }
}
