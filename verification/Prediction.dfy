/** Predicting collisions with balls, rails and pockets from the roots of polynomials. */
module Prediction {
  import opened Wrappers
  import opened Vectors
  import opened Balls
  import opened Events
  import opened Kinematics
  import opened Scheduling

  // ---------------------------------------------------------------- roots and times

  /** A root `leastPositiveRealRoot` accepts: real, and beyond `floor`. */
  predicate Accepted(env: Env, roots: FourRoots, floor: real, i: nat)
    requires i < 4
  {
    FEqual(env, roots[i].1, 0.0) && roots[i].0 > floor
  }

  /** The least accepted root among the first `n`, or -1. */
  function LeastAmong(env: Env, roots: FourRoots, floor: real, n: nat): real
    requires n <= 4
  {
    if n == 0 then -1.0
    else
      var least := LeastAmong(env, roots, floor, n - 1);
      if Accepted(env, roots, floor, n - 1) && (least < 0.0 || roots[n - 1].0 < least) then roots[n - 1].0 else least
  }

  /** `Shot::leastPositiveRealRoot`. */
  method LeastPositiveRealRoot(env: Env, roots: FourRoots, floor: real) returns (least: real)
    requires 0.0 <= floor
    ensures least == LeastAmong(env, roots, floor, 4)
    ensures least == -1.0 <==> forall i :: 0 <= i < 4 ==> !Accepted(env, roots, floor, i)
    ensures least != -1.0 ==> exists i :: 0 <= i < 4 && Accepted(env, roots, floor, i) && roots[i].0 == least
    ensures forall i :: 0 <= i < 4 && Accepted(env, roots, floor, i) ==> least <= roots[i].0
  {
    least := -1.0;
    for i := 0 to 4
      invariant least == LeastAmong(env, roots, floor, i)
      invariant least == -1.0 || floor < least
      invariant least == -1.0 <==> forall k :: 0 <= k < i ==> !Accepted(env, roots, floor, k)
      invariant least != -1.0 ==> exists k :: 0 <= k < i && Accepted(env, roots, floor, k) && roots[k].0 == least
      invariant forall k :: 0 <= k < i && Accepted(env, roots, floor, k) ==> least <= roots[k].0
    {
      if FEqual(env, roots[i].1, 0.0) && roots[i].0 > floor {
        if least < 0.0 || roots[i].0 < least {
          least := roots[i].0;
        }
      }
    }
  }

  /** A root the solver reports. */
  predicate Listed(q: Quadratic, t: real) { (q.count >= 1 && t == q.root1) || (q.count == 2 && t == q.root2) }

  /** `Shot::calcEventTime`. */
  function CalcEventTime(q: Quadratic, now: real): (t: real)
    ensures 0.0 <= now && 0.0 <= t ==> now <= t
  {
    if q.count == 0 then -1.0
    else if q.count == 1 then if q.root1 >= 0.0 then q.root1 + now else -1.0
    else if q.count == 2 then
      if q.root1 >= 0.0 then
        if q.root2 >= 0.0 then if q.root1 < q.root2 then q.root1 + now else q.root2 + now
        else q.root1 + now
      else if q.root2 >= 0.0 then q.root2 + now else -1.0
    else -2.0
  }

  /** It is the smallest root that is not negative, on the clock, or -1 if there is none. */
  lemma EventTimeLeast(q: Quadratic, now: real)
    requires 0.0 <= now && 0 <= q.count <= 2
    ensures var t := CalcEventTime(q, now);
      if t == -1.0 then forall r :: Listed(q, r) ==> r < 0.0
      else 0.0 <= t - now && Listed(q, t - now) && forall r :: Listed(q, r) && 0.0 <= r ==> t - now <= r
  {
  }

  // ---------------------------------------------------------------- collisions of two balls

  function Friction(env: Env, b: Ball): real {
    if b.state.Sliding? then env.table.muSliding else env.table.muRolling
  }

  /** The direction friction acts against: slip when sliding, velocity when rolling. */
  function Pull(b: Ball): Vector { if b.state.Sliding? then b.Slip() else b.v }

  /** The coefficients of a polynomial of degree four, lowest first. */
  datatype Quartic = Quartic(a0: real, a1: real, a2: real, a3: real, a4: real)

  /** The equation of contact for an offset `q t^2 + l t + d` on each axis, expanded as the code does. */
  function ContactQuartic(qx: real, lx: real, dx: real, qy: real, ly: real, dy: real): Quartic {
    Quartic(dx * dx + dy * dy - 4.0 * BALL_RADIUS * BALL_RADIUS,
            2.0 * lx * dx + 2.0 * ly * dy,
            lx * lx + 2.0 * qx * dx + ly * ly + 2.0 * qy * dy,
            2.0 * qx * lx + 2.0 * qy * ly,
            qx * qx + qy * qy)
  }

  /** Two balls are moving away from each other. */
  predicate Parting(b1: Ball, b2: Ball) {
    b1.r.ToVector().Minus(b2.r.ToVector()).Dot(b1.v.Minus(b2.v)) > 0.0
  }

  /** The time up to which contacts are ignored. */
  function Floor(b1: Ball, b2: Ball): real { if Parting(b1, b2) then NEAR_FUTURE_EPSILON else 0.0 }

  /** The root taken for the next contact of two balls. */
  function ContactTime(env: Env, b1: Ball, b2: Ball, p: Quartic): real {
    var roots := env.quartic(p.a0, p.a1, p.a2, p.a3, p.a4);
    if roots.None? then 0.0 else LeastAmong(env, roots.value, Floor(b1, b2), 4)
  }

  /** What is normalised for the direction of friction: `Pull`, or the velocity where the pull
      is negligible and the velocity is not. */
  function Aim(env: Env, b: Ball): (p: Vector)
    requires b.Travelling()
    ensures p != ZERO
  {
    if FEqual(env, Mag(env.root, Pull(b)), 0.0) && !FEqual(env, Mag(env.root, b.v), 0.0) then b.v else Pull(b)
  }

  /** Half the deceleration of friction. */
  function Brake(env: Env, b: Ball): real { 0.5 * Friction(env, b) * G }

  /** That deceleration along one axis. */
  function Pace(k: real, u: real): real { k * u }

  /** Two travelling balls. */
  function MeetingQuartic(env: Env, b1: Ball, b2: Ball): Quartic
    requires b1.Travelling() && b2.Travelling()
  {
    var u1, u2 := Direction(env, Aim(env, b1)), Direction(env, Aim(env, b2));
    var k1, k2 := Brake(env, b1), Brake(env, b2);
    ContactQuartic(
      Pace(k1, u1.x) - Pace(k2, u2.x), b2.v.x - b1.v.x, b2.r.x - b1.r.x,
      Pace(k1, u1.y) - Pace(k2, u2.y), b2.v.y - b1.v.y, b2.r.y - b1.r.y)
  }

  /** A travelling ball and one that stays where it is. */
  function ReachingQuartic(env: Env, b1: Ball, b2: Ball): Quartic
    requires b1.Travelling()
  {
    var u := Direction(env, Aim(env, b1));
    var k := Brake(env, b1);
    ContactQuartic(
      -Pace(k, u.x), b1.v.x, b1.r.x - b2.r.x,
      -Pace(k, u.y), b1.v.y, b1.r.y - b2.r.y)
  }

  /** The root for any second ball in play; 0 stands for no prediction. */
  function CollisionRoot(env: Env, b1: Ball, b2: Ball): real
    requires b1.Travelling()
  {
    if b2.Travelling() then ContactTime(env, b1, b2, MeetingQuartic(env, b1, b2))
    else if FEqual(env, Mag(env.root, Pull(b1)), 0.0) && FEqual(env, Mag(env.root, b1.v), 0.0) then 0.0
    else ContactTime(env, b1, b2, ReachingQuartic(env, b1, b2))
  }

  /** `Shot::nextCollisionEvent`, which is only asked about a travelling first ball. */
  function NextCollisionEvent(env: Env, b1: Ball, b2: Ball, now: real): (e: Option<Event>)
    requires b1.Travelling()
    ensures e.Some? ==> e.value.ball1 == b1.id && e.value.kind == BallCollision(b2.id) && e.value.time > now && b2.InPlay()
    ensures e.Some? && b2.Travelling() ==> b1.id <= b2.id
  {
    if b2.Travelling() && b1.id > b2.id then None
    else if !b2.InPlay() then None
    else
      var root := CollisionRoot(env, b1, b2);
      if root > 0.0 then Some(Event(root + now, b1.id, BallCollision(b2.id))) else None
  }

  // ---------------------------------------------------------------- rails and pockets

  /** A rail event strictly in the future, or nothing. */
  function RailAt(env: Env, b: Ball, t: real, now: real, rail: Rail): seq<Event> {
    if FGreater(env, t, now) then [Event(t, b.id, RailCollision(rail))] else []
  }

  /** A long cushion: its two rails and the side pocket between `low` and `high`. */
  function CushionAt(env: Env, b: Ball, t: real, now: real, y: real, low: real, high: real, south: Rail, north: Rail, pocket: Pocket): seq<Event> {
    if !FGreater(env, t, now) then []
    else if y < low then [Event(t, b.id, RailCollision(south))]
    else if y > high then [Event(t, b.id, RailCollision(north))]
    else [Event(t, b.id, Pocketed(pocket))]
  }

  function CornerAt(b: Ball, t: real, pocket: Pocket): seq<Event> {
    if t >= 0.0 then [Event(t, b.id, Pocketed(pocket))] else []
  }

  /** The lines a ball's centre is watched for: cushions, one radius in, and pocket mouths. */
  datatype Line = SouthLine | NorthLine | WestLine | EastLine | SouthWestLine | SouthEastLine | NorthWestLine | NorthEastLine

  /** Width of a corner pocket along a rail. */
  function CornerWidth(env: Env): real {
    RootPositive(env.root, 2.0);
    env.table.cornerPocketWidth / env.root(2.0)
  }

  /** The quadratic whose roots are the times, from now, at which a ball braked along `u` is on a line. */
  function Crossing(env: Env, b: Ball, u: Vector, line: Line): (real, real, real) {
    var k, rad, corner := Brake(env, b), BALL_RADIUS, CornerWidth(env);
    var (length, width) := (env.table.length, env.table.width);
    match line
    case SouthLine => (-Pace(k, u.y), b.v.y, b.r.y - rad)
    case NorthLine => (-Pace(k, u.y), b.v.y, b.r.y - length + rad)
    case WestLine => (-Pace(k, u.x), b.v.x, b.r.x - rad)
    case EastLine => (-Pace(k, u.x), b.v.x, b.r.x - width + rad)
    case SouthWestLine => (-Pace(k, u.y + u.x), b.v.x + b.v.y, b.r.x + b.r.y - corner - rad)
    case SouthEastLine => (Pace(k, u.y - u.x), b.v.x - b.v.y, b.r.x - b.r.y + corner + rad - width)
    case NorthWestLine => (Pace(k, u.x - u.y), b.v.y - b.v.x, b.r.y - b.r.x + corner + rad - length)
    case NorthEastLine => (-Pace(k, u.x + u.y), b.v.x + b.v.y, b.r.x + b.r.y + corner + rad - width - length)
  }

  /** When that is, on the clock of the simulation. */
  function CrossingTime(env: Env, b: Ball, now: real, u: Vector, line: Line): real {
    var c := Crossing(env, b, u, line);
    CalcEventTime(env.quadratic(c.0, c.1, c.2), now)
  }

  /** How far up the table the ball then is. */
  function Height(env: Env, b: Ball, u: Vector, t: real): real { b.r.y + b.v.y * t - Brake(env, b) * u.y * t * t }

  /** `Shot::addBoundaryEvents` with direction of friction `u`: what it appends, in order. */
  function BoundaryAlong(env: Env, b: Ball, now: real, u: Vector): seq<Event> {
    var at := (line: Line) => CrossingTime(env, b, now, u, line);
    var low, high := env.table.length / 2.0 - env.table.sidePocketWidth / 2.0, env.table.length / 2.0 + env.table.sidePocketWidth / 2.0;
    var west, east := at(WestLine), at(EastLine);
    RailAt(env, b, at(SouthLine), now, South)
    + RailAt(env, b, at(NorthLine), now, North)
    + CushionAt(env, b, west, now, Height(env, b, u, west - now), low, high, SouthWest, NorthWest, W)
    + CushionAt(env, b, east, now, Height(env, b, u, east - now), low, high, SouthEast, NorthEast, E)
    + CornerAt(b, at(SouthWestLine), SW)
    + CornerAt(b, at(SouthEastLine), SE)
    + CornerAt(b, at(NorthWestLine), NW)
    + CornerAt(b, at(NorthEastLine), NE)
  }

  function BoundaryEvents(env: Env, b: Ball, now: real): seq<Event> {
    if !b.Travelling() then []
    else
      BoundaryAlong(env, b, now, Direction(env, Pull(b)))
  }

  /** Every boundary event lies ahead and is a rail or a real pocket of that ball. */
  lemma BoundaryAhead(env: Env, b: Ball, now: real, e: Event)
    requires 0.0 <= now && e in BoundaryEvents(env, b, now)
    ensures e.ball1 == b.id && e.time >= now && b.Travelling()
    ensures e.kind.RailCollision? || (e.kind.Pocketed? && e.kind.pocket < UNKNOWN_POCKET)
  {
    hide Direction;
  }
}
