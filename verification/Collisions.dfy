/** What events do to the balls they name (the `doHandle` methods). */
module Collisions {
  import opened Vectors
  import opened Balls
  import opened Events
  import opened Kinematics
  import opened ExactMotion
  import opened TransitionTimes

  const BALL_MASS: real := 163.01
  const CUE_MASS: real := 160.0 / 0.302631579
  const INERTIA: real := 0.4 * 160.0 * 0.028575 * 0.028575 * 0.995473
  const MU_BALL: real := 0.01
  const ALONG: Vector := Vector(1.0, 0.0, 0.0)

  function RotateDeg(env: Env, v: Vector, phi: real): Vector { v.Rotate(env.cos(phi), env.sin(phi)) }

  /** Division as the hardware does it; nothing is known of what a zero divisor yields. */
  function Quotient(env: Env, x: real, y: real): real { if y == 0.0 then env.quotient else x / y }

  /** Velocity of the first ball relative to the second at the point of contact, both in the
      frame where the contact lies along the first axis. */
  function ContactVelocity(v1: Vector, v2: Vector, w1: Vector, w2: Vector): Vector {
    v1.Plus(v2.Times(-1.0)).Plus(ALONG.Cross(w1.Plus(w2)).Times(-0.028575))
  }

  /** Tangential velocity passed on by friction between the balls. */
  function Kick(env: Env, v0x: real, contact: Vector): real {
    Quotient(env, MU_BALL * v0x * contact.y, Mag(env.root, contact))
  }

  /** Spin passed on by it, per unit of the contact velocity turned a quarter. */
  function Spur(env: Env, v0x: real, contact: Vector): real {
    Quotient(env, -2.5 * MU_BALL * v0x, Mag(env.root, contact)) / BALL_RADIUS / 1.000575
  }

  /** Velocities after contact in that frame: the normal components are exchanged and the
      tangential ones change by `q`. */
  function Exchange(v1: Vector, v2: Vector, q: real): (Vector, Vector) {
    (Vector(v2.x, v1.y - q, 0.0), Vector(v1.x, v2.y + q, 0.0))
  }

  /** Spins after contact in that frame. */
  function ContactSpin(env: Env, b2: Ball, w1: Vector, w2: Vector, u1: Vector, u2: Vector, contact: Vector, v0x: real): (Vector, Vector) {
    if b2.state.Stationary? || b2.state.Spinning? then
      var added := ALONG.Cross(contact).Times(Spur(env, v0x, contact));
      (w1.Plus(added.Times(-1.0)), w2.Plus(added))
    else
      (Vector(-u1.y / BALL_RADIUS, u1.x / BALL_RADIUS, w1.z), Vector(-u2.y / BALL_RADIUS, u2.x / BALL_RADIUS, w2.z))
  }

  /** A ball left with negligible velocity and spin keeps only its vertical spin. */
  function Calm(env: Env, b: BallData): BallData {
    if VZero(env, Mag(env.root, b.v)) && VZero(env, Mag(env.root, b.w)) then b.(v := ZERO, w := Vector(0.0, 0.0, b.w.z)) else b
  }

  /** `updateState` on a ball an event has just changed. */
  function Classify(env: Env, b: BallData): (r: Ball)
    requires b.v.z == 0.0
    ensures r.id == b.id && r.r == b.r && (b.InPlay() <==> r.InPlay())
    ensures Exact(env) && b.InPlay() ==> Classified(env, r)
  {
    assert Exact(env) && b.InPlay() ==> Classified(env, UpdateState(env, b)) by {
      if Exact(env) && b.InPlay() {
        UpdateStateExact(env, b);
      }
    }
    UpdateState(env, b)
  }

  /** A ball with its new velocity and spin turned back from the frame of the contact. */
  function Struck(env: Env, b: Ball, u: Vector, x: Vector, phi: real): (r: Ball)
    requires u.z == 0.0
    ensures r.id == b.id && r.r == b.r && (b.InPlay() <==> r.InPlay())
    ensures Exact(env) && b.InPlay() ==> Classified(env, r)
  {
    Classify(env, Calm(env, b.(v := RotateDeg(env, u, phi), w := RotateDeg(env, x, phi))))
  }

  /** `BallCollisionEvent::doHandle`. */
  function CollideBalls(env: Env, b1: Ball, b2: Ball): (hit: (Ball, Ball))
    ensures hit.0.id == b1.id && hit.1.id == b2.id
    ensures hit.0.r == b1.r && hit.1.r == b2.r
    ensures (b1.InPlay() <==> hit.0.InPlay()) && (b2.InPlay() <==> hit.1.InPlay())
    ensures Exact(env) ==> (b1.InPlay() ==> Classified(env, hit.0)) && (b2.InPlay() ==> Classified(env, hit.1))
  {
    var phi := env.angle(b1.r, b2.r);
    var v1, v2 := RotateDeg(env, b1.v, -phi), RotateDeg(env, b2.v, -phi);
    var w1, w2 := RotateDeg(env, b1.w, -phi), RotateDeg(env, b2.w, -phi);
    var contact := ContactVelocity(v1, v2, w1, w2);
    var q := Kick(env, v1.x, contact);
    var u := Exchange(v1, v2, q);
    var x := ContactSpin(env, b2, w1, w2, u.0, u.1, contact, v1.x);
    (Struck(env, b1, u.0, x.0, phi), Struck(env, b2, u.1, x.1, phi))
  }

  /** Velocity after a cushion: reversed and damped towards it, slowed along it. */
  function Bounced(v: Vector, rail: Rail): Vector {
    if rail.North? || rail.South? then Vector(0.9 * v.x, -0.6 * v.y, 0.0) else Vector(-0.6 * v.x, 0.9 * v.y, 0.0)
  }

  /** `RailCollisionEvent::doHandle`. */
  function BounceOffRail(env: Env, b: Ball, rail: Rail): (r: Ball)
    ensures r.id == b.id && r.r == b.r && (b.InPlay() <==> r.InPlay())
    ensures Exact(env) && b.InPlay() ==> Classified(env, r)
  {
    Classify(env, b.(v := Bounced(b.v, rail), w := b.w.Times(0.1)))
  }

  /** `PocketedEvent::doHandle` with `Table::stateFromPocket`. */
  function DropIn(b: Ball, pocket: Pocket): (r: Ball)
    ensures r.id == b.id && r.r == b.r && !r.InPlay() && r.v == ZERO && r.w == ZERO
    ensures pocket < UNKNOWN_POCKET ==> r.IsPocketed() && r.state.pocket == pocket
  {
    b.(state := if pocket < UNKNOWN_POCKET then InPocket(pocket) else UnknownState, v := ZERO, w := ZERO)
  }

  /** The denominator of the cue force never vanishes. */
  lemma StrikePositive(a: real, b: real, c: real, cos: real, sin: real)
    ensures a * a + b * b * cos * cos + c * c * sin * sin - 2.0 * b * c * cos * sin >= 0.0
  {
    var x := Square(a);
    var y := Square(b * cos - c * sin);
    assert (b * cos - c * sin) * (b * cos - c * sin) == b * b * cos * cos + c * c * sin * sin - 2.0 * b * c * cos * sin;
  }

  function StrikeForce(sp: ShotParams, c: real, cos: real, sin: real): real {
    StrikePositive(sp.a, sp.b, c, cos, sin);
    var offset := sp.a * sp.a + sp.b * sp.b * cos * cos + c * c * sin * sin - 2.0 * sp.b * c * cos * sin;
    (2.0 * BALL_MASS * sp.v)
    / (1.0 + BALL_MASS / CUE_MASS + 0.999425 * (5.0 / (2.0 * BALL_RADIUS * BALL_RADIUS)) * offset)
  }

  /** Height of the point of contact above the middle of the cue ball, seen from the cue. */
  function StrikeDepth(env: Env, sp: ShotParams): real {
    Abs(env.root(BALL_RADIUS * BALL_RADIUS - sp.a * sp.a - sp.b * sp.b))
  }

  /** Speed of the cue ball against its own second axis. */
  function StrikeSpeed(env: Env, sp: ShotParams): real {
    var cos, sin := env.cos(sp.theta), env.sin(sp.theta);
    Launched(StrikeForce(sp, StrikeDepth(env, sp), cos, sin), cos)
  }

  function Launched(f: real, cos: real): real { -f * cos / BALL_MASS }

  /** Spin from an impulse `f` at a point `a` aside, `c` back and `b` up. */
  function Spun(a: real, b: real, c: real, cos: real, sin: real, f: real): Vector {
    Vector(-c * f * sin + b * f * cos, a * f * sin, -a * f * cos).Times(1.0 / INERTIA)
  }

  function StrikeVelocity(env: Env, sp: ShotParams): (v: Vector)
    ensures v.z == 0.0
  {
    RotateDeg(env, Vector(0.0, StrikeSpeed(env, sp), 0.0), sp.phi + 90.0)
  }

  function StrikeSpin(env: Env, sp: ShotParams): Vector {
    var cos, sin, c := env.cos(sp.theta), env.sin(sp.theta), StrikeDepth(env, sp);
    var f := StrikeForce(sp, c, cos, sin);
    RotateDeg(env, Spun(sp.a, sp.b, c, cos, sin, f), sp.phi + 90.0)
  }

  /** `CueStrikeEvent::doHandle`. */
  function StrikeBall(env: Env, b: Ball, sp: ShotParams): (r: Ball)
    ensures r.id == b.id && r.r == b.r && (b.InPlay() <==> r.InPlay())
    ensures Exact(env) && b.InPlay() ==> Classified(env, r)
  {
    Classify(env, b.(v := StrikeVelocity(env, sp), w := StrikeSpin(env, sp)))
  }

  /** `doHandle` of every event of one ball. */
  function ActOn(env: Env, b: Ball, e: Event): (r: Ball)
    ensures r.id == b.id && r.r == b.r && (r.InPlay() ==> b.InPlay())
    ensures e.kind.Pocketed? && e.kind.pocket < UNKNOWN_POCKET ==> r.state == InPocket(e.kind.pocket)
    ensures !e.kind.Pocketed? && b.InPlay() ==> r.InPlay()
    ensures Exact(env) && r.InPlay() && !e.kind.BallCollision? ==> Classified(env, r)
  {
    match e.kind
    case StateChange => Classify(env, b)
    case RailCollision(rail) => BounceOffRail(env, b, rail)
    case Pocketed(pocket) => DropIn(b, pocket)
    case CueStrike(params) => StrikeBall(env, b, params)
    case BallCollision(_) => b
  }

  // ---------------------------------------------------------------- conservation

  /** With exact thresholds neither `Calm` nor `updateState` changes a velocity. */
  lemma StruckVelocity(env: Env, b: Ball, u: Vector, x: Vector, phi: real)
    requires env.velocityEpsilon == 0.0 && u.z == 0.0
    ensures Struck(env, b, u, x, phi).v == RotateDeg(env, u, phi)
  {
    hide Mag, Vector.Rotate;
    MagZeroIff(env, RotateDeg(env, u, phi));
  }

  /** The exchange moves tangential velocity from one ball to the other. */
  lemma ExchangeConserves(v1: Vector, v2: Vector, q: real)
    requires v1.z == 0.0 && v2.z == 0.0
    ensures Exchange(v1, v2, q).0.Plus(Exchange(v1, v2, q).1) == v1.Plus(v2)
  {
  }

  lemma RotateSum(a: Vector, b: Vector, c: real, s: real)
    ensures a.Rotate(c, s).Plus(b.Rotate(c, s)) == a.Plus(b).Rotate(c, s)
  {
  }

  /** Exchanging velocities in a rotated frame conserves their sum in the table's frame. */
  lemma FrameExchange(a: Vector, b: Vector, c: real, s: real, q: real)
    requires c * c + s * s == 1.0 && a.z == 0.0 && b.z == 0.0
    ensures var u := Exchange(a.Rotate(c, -s), b.Rotate(c, -s), q);
      u.0.z == 0.0 && u.1.z == 0.0 && u.0.Rotate(c, s).Plus(u.1.Rotate(c, s)) == a.Plus(b)
  {
    var u := Exchange(a.Rotate(c, -s), b.Rotate(c, -s), q);
    ExchangeConserves(a.Rotate(c, -s), b.Rotate(c, -s), q);
    RotateSum(u.0, u.1, c, s);
    RotateSum(a, b, c, -s);
    RotateBack(a.Plus(b), c, s);
  }

  /** The velocities after a hit are those of the exchange, turned back. */
  lemma HitVelocities(env: Env, b1: Ball, b2: Ball)
    requires env.velocityEpsilon == 0.0
    ensures var phi := env.angle(b1.r, b2.r);
      var v1, v2 := RotateDeg(env, b1.v, -phi), RotateDeg(env, b2.v, -phi);
      var q := Kick(env, v1.x, ContactVelocity(v1, v2, RotateDeg(env, b1.w, -phi), RotateDeg(env, b2.w, -phi)));
      var u, hit := Exchange(v1, v2, q), CollideBalls(env, b1, b2);
      hit.0.v == RotateDeg(env, u.0, phi) && hit.1.v == RotateDeg(env, u.1, phi)
  {
    hide Struck, ContactSpin, ContactVelocity, Kick, Vector.Rotate, Vector.Plus;
    var phi := env.angle(b1.r, b2.r);
    var v1, v2 := RotateDeg(env, b1.v, -phi), RotateDeg(env, b2.v, -phi);
    var w1, w2 := RotateDeg(env, b1.w, -phi), RotateDeg(env, b2.w, -phi);
    var contact := ContactVelocity(v1, v2, w1, w2);
    var u := Exchange(v1, v2, Kick(env, v1.x, contact));
    var x := ContactSpin(env, b2, w1, w2, u.0, u.1, contact, v1.x);
    StruckVelocity(env, b1, u.0, x.0, phi);
    StruckVelocity(env, b2, u.1, x.1, phi);
  }

  /** A collision conserves total linear velocity, whatever the contact angle and the spins. With no
      contact velocity the code divides by zero and the velocities are not numbers; the hypothesis
      stands for that. */
  lemma CollisionConserves(env: Env, b1: Ball, b2: Ball)
    requires env.velocityEpsilon == 0.0
    requires var phi := env.angle(b1.r, b2.r);
      ContactVelocity(RotateDeg(env, b1.v, -phi), RotateDeg(env, b2.v, -phi),
                      RotateDeg(env, b1.w, -phi), RotateDeg(env, b2.w, -phi)) != ZERO
    ensures var hit := CollideBalls(env, b1, b2); hit.0.v.Plus(hit.1.v) == b1.v.Plus(b2.v)
  {
    hide CollideBalls, ContactVelocity, Kick, Exchange, Vector.Rotate, Vector.Plus;
    var phi := env.angle(b1.r, b2.r);
    var c, s := env.cos(phi), env.sin(phi);
    assert env.cos(-phi) == c && env.sin(-phi) == -s && c * c + s * s == 1.0;
    var v1, v2 := RotateDeg(env, b1.v, -phi), RotateDeg(env, b2.v, -phi);
    var q := Kick(env, v1.x, ContactVelocity(v1, v2, RotateDeg(env, b1.w, -phi), RotateDeg(env, b2.w, -phi)));
    HitVelocities(env, b1, b2);
    FrameExchange(b1.v, b2.v, c, s, q);
  }

  /** Seen along the line of centres the balls exchange their velocities; across it, friction takes
      from one exactly what it gives to the other. */
  lemma CollisionExchanges(env: Env, b1: Ball, b2: Ball)
    requires env.velocityEpsilon == 0.0
    ensures var phi := env.angle(b1.r, b2.r);
      var v1, v2 := RotateDeg(env, b1.v, -phi), RotateDeg(env, b2.v, -phi);
      var q := Kick(env, v1.x, ContactVelocity(v1, v2, RotateDeg(env, b1.w, -phi), RotateDeg(env, b2.w, -phi)));
      var hit := CollideBalls(env, b1, b2);
      var u1, u2 := RotateDeg(env, hit.0.v, -phi), RotateDeg(env, hit.1.v, -phi);
      u1.x == v2.x && u2.x == v1.x && u1.y == v1.y - q && u2.y == v2.y + q
  {
    hide CollideBalls, ContactVelocity, Kick, Exchange, Vector.Rotate, Vector.Plus;
    var phi := env.angle(b1.r, b2.r);
    var v1, v2 := RotateDeg(env, b1.v, -phi), RotateDeg(env, b2.v, -phi);
    var contact := ContactVelocity(v1, v2, RotateDeg(env, b1.w, -phi), RotateDeg(env, b2.w, -phi));
    var u := Exchange(v1, v2, Kick(env, v1.x, contact));
    HitVelocities(env, b1, b2);
    TurnedBack(env, u.0, phi);
    TurnedBack(env, u.1, phi);
    ExchangeIs(v1, v2, Kick(env, v1.x, contact));
  }

  lemma ExchangeIs(v1: Vector, v2: Vector, q: real)
    ensures var u := Exchange(v1, v2, q); u.0.x == v2.x && u.1.x == v1.x && u.0.y == v1.y - q && u.1.y == v2.y + q
  {
  }

  lemma TurnedBack(env: Env, u: Vector, phi: real)
    ensures RotateDeg(env, RotateDeg(env, u, phi), -phi) == u
  {
    hide Vector.Rotate;
    var c, s := env.cos(phi), env.sin(phi);
    assert env.cos(-phi) == c && env.sin(-phi) == -s && c * c + s * s == 1.0;
    RotateBack(u, c, -s);
  }

  /** An angle is that of a line. */
  predicate Heads(env: Env, phi: real, d: Vector, m: real) { env.cos(phi) * m == d.x && env.sin(phi) * m == d.y && d.z == 0.0 }

  /** On the table: where the angle taken is that of the line from the first centre to the second, the two
      balls exchange their velocities along that line. */
  lemma CentresExchange(env: Env, b1: Ball, b2: Ball, m: real)
    requires env.velocityEpsilon == 0.0 && Heads(env, env.angle(b1.r, b2.r), b2.r.Minus(b1.r).ToVector(), m)
    ensures var (d, hit) := (b2.r.Minus(b1.r).ToVector(), CollideBalls(env, b1, b2));
      hit.0.v.Dot(d) == b2.v.Dot(d) && hit.1.v.Dot(d) == b1.v.Dot(d)
  {
    hide CollideBalls, Vector.Dot, RotateDeg, Heads, Kick, ContactVelocity;
    var phi := env.angle(b1.r, b2.r);
    var d := b2.r.Minus(b1.r).ToVector();
    var hit := CollideBalls(env, b1, b2);
    CollisionExchanges(env, b1, b2);
    SeenAlong(env, b1.v, d, phi, m);
    SeenAlong(env, b2.v, d, phi, m);
    SeenAlong(env, hit.0.v, d, phi, m);
    SeenAlong(env, hit.1.v, d, phi, m);
  }

  lemma SeenAlong(env: Env, v: Vector, d: Vector, phi: real, m: real)
    requires Heads(env, phi, d, m)
    ensures RotateDeg(env, v, -phi).x * m == v.Dot(d)
  {
    var (c, s) := (env.cos(phi), env.sin(phi));
    assert env.cos(-phi) == c && env.sin(-phi) == -s;
    assert (v.x * c + v.y * s) * m == v.x * (c * m) + v.y * (s * m);
  }

  // ---------------------------------------------------------------- friction between two balls

  /** Velocity of the first ball over the second at the point of contact, in the frame where the line of
      centres is the first axis: across it the spins about the vertical add up, upwards the others. */
  function Rubbing(v1: Vector, v2: Vector, w1: Vector, w2: Vector): Vector {
    Vector(v1.x - v2.x, v1.y - v2.y + 0.028575 * (w1.z + w2.z), -(0.028575 * (w1.y + w2.y)))
  }

  lemma RubbingIs(v1: Vector, v2: Vector, w1: Vector, w2: Vector)
    requires v1.z == 0.0 && v2.z == 0.0
    ensures ContactVelocity(v1, v2, w1, w2) == Rubbing(v1, v2, w1, w2)
  {
  }

  /** Friction gives the second ball, across the line of centres, a hundredth of what the first moves
      along it, in the share that rubbing across has in all rubbing; the first loses as much. */
  lemma CollisionRubs(env: Env, b1: Ball, b2: Ball)
    requires env.velocityEpsilon == 0.0
    ensures var phi := env.angle(b1.r, b2.r);
      var v1, v2, hit := RotateDeg(env, b1.v, -phi), RotateDeg(env, b2.v, -phi), CollideBalls(env, b1, b2);
      var u1, u2 := RotateDeg(env, hit.0.v, -phi), RotateDeg(env, hit.1.v, -phi);
      var c := Rubbing(v1, v2, RotateDeg(env, b1.w, -phi), RotateDeg(env, b2.w, -phi));
      c != ZERO ==>
        && (u2.y - v2.y) * Mag(env.root, c) == 0.01 * v1.x * c.y && u1.y - v1.y == v2.y - u2.y
        && (v1.x > 0.0 ==> (c.y > 0.0 <==> u2.y > v2.y) && (c.y < 0.0 <==> u2.y < v2.y))
        && (v1.x < 0.0 ==> (c.y > 0.0 <==> u2.y < v2.y) && (c.y < 0.0 <==> u2.y > v2.y))
        && (v1.x == 0.0 ==> u2.y == v2.y)
  {
    hide CollideBalls, ContactVelocity, Kick, Vector.Rotate, Mag;
    var phi := env.angle(b1.r, b2.r);
    var v1, v2 := RotateDeg(env, b1.v, -phi), RotateDeg(env, b2.v, -phi);
    var w1, w2 := RotateDeg(env, b1.w, -phi), RotateDeg(env, b2.w, -phi);
    FlatTurned(b1.v, env.cos(-phi), env.sin(-phi));
    FlatTurned(b2.v, env.cos(-phi), env.sin(-phi));
    RubbingIs(v1, v2, w1, w2);
    var c := ContactVelocity(v1, v2, w1, w2);
    CollisionExchanges(env, b1, b2);
    if c != ZERO {
      KickIs(env, v1.x, c);
      KickSign(Kick(env, v1.x, c), Mag(env.root, c), v1.x, c.y);
    }
  }

  lemma FlatTurned(v: Vector, c: real, s: real)
    ensures v.Rotate(c, s).z == v.z
  {
  }

  lemma KickIs(env: Env, v0x: real, contact: Vector)
    requires contact != ZERO
    ensures Mag(env.root, contact) > 0.0 && Kick(env, v0x, contact) * Mag(env.root, contact) == 0.01 * v0x * contact.y
  {
    MagPositive(env.root, contact);
    Ratio(MU_BALL * v0x * contact.y, Mag(env.root, contact));
  }

  lemma KickSign(q: real, m: real, x: real, y: real)
    requires m > 0.0 && q * m == 0.01 * x * y
    ensures x == 0.0 || y == 0.0 <==> q == 0.0
    ensures (x > 0.0 && y > 0.0) || (x < 0.0 && y < 0.0) <==> q > 0.0
  {
    if x > 0.0 && y > 0.0 {
      var p := Product(x, y);
    } else if x < 0.0 && y < 0.0 {
      var p := Product(-x, -y);
    } else if x < 0.0 && y > 0.0 {
      var p := Product(-x, y);
    } else if x > 0.0 && y < 0.0 {
      var p := Product(x, -y);
    }
    if q > 0.0 {
      var p := Product(q, m);
    } else if q < 0.0 {
      var p := Product(-q, m);
    }
  }

  /** Spin given to a ball hit at rest, and taken from the other: about the vertical against the rubbing
      across, about the axis across with the rubbing upwards. A travelling ball keeps its spin about the
      vertical. */
  lemma CollisionSpins(env: Env, b1: Ball, b2: Ball)
    requires Exact(env) && b1.InPlay() && b2.InPlay()
    requires CollideBalls(env, b1, b2).0.Travelling() && CollideBalls(env, b1, b2).1.Travelling()
    ensures var phi := env.angle(b1.r, b2.r);
      var v1, v2, hit := RotateDeg(env, b1.v, -phi), RotateDeg(env, b2.v, -phi), CollideBalls(env, b1, b2);
      var w1, w2 := RotateDeg(env, b1.w, -phi), RotateDeg(env, b2.w, -phi);
      var x1, x2 := RotateDeg(env, hit.0.w, -phi), RotateDeg(env, hit.1.w, -phi);
      var c := Rubbing(v1, v2, w1, w2);
      if b2.Travelling() then x1.z == w1.z && x2.z == w2.z
      else c != ZERO ==>
        && x1.Plus(x2) == w1.Plus(w2) && x2.x == w2.x
        && (x2.y - w2.y) * (Mag(env.root, c) * (BALL_RADIUS * 1.000575)) == 0.025 * (v1.x * c.z)
        && (x2.z - w2.z) * (Mag(env.root, c) * (BALL_RADIUS * 1.000575)) == -0.025 * (v1.x * c.y)
  {
    hide Struck, ContactVelocity, Kick, Spur, Vector.Rotate, Mag;
    var phi := env.angle(b1.r, b2.r);
    var v1, v2 := RotateDeg(env, b1.v, -phi), RotateDeg(env, b2.v, -phi);
    var w1, w2 := RotateDeg(env, b1.w, -phi), RotateDeg(env, b2.w, -phi);
    FlatTurned(b1.v, env.cos(-phi), env.sin(-phi));
    FlatTurned(b2.v, env.cos(-phi), env.sin(-phi));
    RubbingIs(v1, v2, w1, w2);
    var c := ContactVelocity(v1, v2, w1, w2);
    var u := Exchange(v1, v2, Kick(env, v1.x, c));
    var x := ContactSpin(env, b2, w1, w2, u.0, u.1, c, v1.x);
    StruckSpin(env, b1, u.0, x.0, phi);
    StruckSpin(env, b2, u.1, x.1, phi);
    TurnedBack(env, x.0, phi);
    TurnedBack(env, x.1, phi);
    if !b2.Travelling() && c != ZERO {
      SpurIs(env, v1.x, c);
      SpunBy(w1, w2, c, Spur(env, v1.x, c), Mag(env.root, c) * (BALL_RADIUS * 1.000575), v1.x);
    }
  }

  /** A ball left travelling has exactly the spin it was given. */
  lemma StruckSpin(env: Env, b: Ball, u: Vector, x: Vector, phi: real)
    requires Exact(env) && b.InPlay() && u.z == 0.0
    ensures Struck(env, b, u, x, phi).Travelling() ==> Struck(env, b, u, x, phi).w == RotateDeg(env, x, phi)
  {
    hide Mag, Vector.Rotate;
    MagZeroIff(env, RotateDeg(env, u, phi));
  }

  lemma SpurIs(env: Env, v0x: real, contact: Vector)
    requires contact != ZERO
    ensures Spur(env, v0x, contact) * (Mag(env.root, contact) * (BALL_RADIUS * 1.000575)) == -0.025 * v0x
  {
    hide Mag;
    MagPositive(env.root, contact);
    var m, x := Mag(env.root, contact), -2.5 * MU_BALL * v0x;
    var q := x / m;
    Ratio(x, m);
    assert Spur(env, v0x, contact) * (BALL_RADIUS * 1.000575) == q;
    assert Spur(env, v0x, contact) * (m * (BALL_RADIUS * 1.000575)) == q * m;
  }

  lemma SpunBy(w1: Vector, w2: Vector, c: Vector, k: real, n: real, v: real)
    requires k * n == -0.025 * v
    ensures var added := ALONG.Cross(c).Times(k);
      var x1, x2 := w1.Plus(added.Times(-1.0)), w2.Plus(added);
      && x1.Plus(x2) == w1.Plus(w2) && x2.x == w2.x
      && (x2.y - w2.y) * n == 0.025 * (v * c.z) && (x2.z - w2.z) * n == -0.025 * (v * c.y)
  {
    assert ALONG.Cross(c) == Vector(0.0, -c.z, c.y);
    SpunPart(c.z, k, n, v);
    SpunPart(c.y, k, n, v);
  }

  lemma SpunPart(c: real, k: real, n: real, v: real)
    requires k * n == -0.025 * v
    ensures (c * k) * n == -0.025 * (v * c) && (-c * k) * n == 0.025 * (v * c)
  {
    assert (c * k) * n == c * (k * n);
  }

  /** Velocity `u` with the spin of a ball that rolls along with it. */
  lemma RollingSpin(u: Vector, z: real)
    requires u.z == 0.0
    ensures SlipOf(u, Vector(-u.y / BALL_RADIUS, u.x / BALL_RADIUS, z)) == ZERO
  {
    Ratio(u.x, BALL_RADIUS);
    Ratio(-u.y, BALL_RADIUS);
    var w := Vector(-u.y / BALL_RADIUS, u.x / BALL_RADIUS, z);
    assert w.x * BALL_RADIUS == -u.y && w.y * BALL_RADIUS == u.x;
  }

  /** A ball that slips nowhere is left rolling, or without velocity. */
  lemma StruckRolls(env: Env, b: Ball, u: Vector, z: real, phi: real)
    requires Exact(env) && b.InPlay() && u.z == 0.0
    ensures !Struck(env, b, u, Vector(-u.y / BALL_RADIUS, u.x / BALL_RADIUS, z), phi).state.Sliding?
  {
    hide Mag, Vector.Rotate;
    var x := Vector(-u.y / BALL_RADIUS, u.x / BALL_RADIUS, z);
    RollingSpin(u, z);
    var c, s := env.cos(phi), env.sin(phi);
    TurnedSlip(u, x, c, s);
    var turned := b.(v := RotateDeg(env, u, phi), w := RotateDeg(env, x, phi));
    assert turned.Slip() == ZERO;
    MagZeroIff(env, turned.v);
    UpdateStateExact(env, turned);
  }

  lemma TurnedSlip(u: Vector, x: Vector, c: real, s: real)
    requires u.z == 0.0 && SlipOf(u, x) == ZERO
    ensures u.Rotate(c, s).z == 0.0 && SlipOf(u.Rotate(c, s), x.Rotate(c, s)) == ZERO
  {
    assert SlipOf(u.Rotate(c, s), x.Rotate(c, s)) == SlipOf(u, x).Rotate(c, s);
  }

  /** After hitting a ball that was itself travelling, neither of the two slides. */
  lemma CollisionRolls(env: Env, b1: Ball, b2: Ball)
    requires Exact(env) && b1.InPlay() && b2.Travelling()
    ensures var hit := CollideBalls(env, b1, b2); !hit.0.state.Sliding? && !hit.1.state.Sliding?
  {
    hide Struck, ContactVelocity, Kick, Vector.Rotate;
    var phi := env.angle(b1.r, b2.r);
    var v1, v2 := RotateDeg(env, b1.v, -phi), RotateDeg(env, b2.v, -phi);
    var w1, w2 := RotateDeg(env, b1.w, -phi), RotateDeg(env, b2.w, -phi);
    var u := Exchange(v1, v2, Kick(env, v1.x, ContactVelocity(v1, v2, w1, w2)));
    StruckRolls(env, b1, u.0, w1.z, phi);
    StruckRolls(env, b2, u.1, w2.z, phi);
  }

  lemma StruckTravels(env: Env, b: Ball, u: Vector, x: Vector, phi: real)
    requires Exact(env) && b.InPlay() && u.z == 0.0
    ensures Struck(env, b, u, x, phi).Travelling() <==> u != ZERO
  {
    hide Mag, Vector.Rotate, Struck;
    StruckVelocity(env, b, u, x, phi);
    TurnedZero(u, env.cos(phi), env.sin(phi));
    MagZeroIff(env, Struck(env, b, u, x, phi).v);
  }

  lemma TurnedZero(u: Vector, c: real, s: real)
    requires c * c + s * s == 1.0
    ensures u.Rotate(c, s) == ZERO <==> u == ZERO
  {
    RotateBack(u, c, -s);
    assert ZERO.Rotate(c, -s) == ZERO && ZERO.Rotate(c, s) == ZERO;
  }

  /** The hitting ball is left without travel exactly if the other has no velocity along the line of
      centres and friction takes all of its own across it: follow and draw play no part, because the
      velocity is tested before the slip. So a ball that hits a resting one full, without side, stops
      dead however it spins. */
  lemma FullHitStops(env: Env, b1: Ball, b2: Ball)
    requires Exact(env) && b1.InPlay()
    ensures var phi := env.angle(b1.r, b2.r);
      var v1, v2 := RotateDeg(env, b1.v, -phi), RotateDeg(env, b2.v, -phi);
      var q := Kick(env, v1.x, ContactVelocity(v1, v2, RotateDeg(env, b1.w, -phi), RotateDeg(env, b2.w, -phi)));
      var stops := !CollideBalls(env, b1, b2).0.Travelling();
      && (stops <==> v2.x == 0.0 && v1.y == q)
      && (b2.v == ZERO && v1.x != 0.0 && v1.y == 0.0 && b1.w.z + b2.w.z == 0.0 ==> stops)
  {
    hide Struck, ContactSpin, Vector.Rotate;
    var phi := env.angle(b1.r, b2.r);
    var v1, v2 := RotateDeg(env, b1.v, -phi), RotateDeg(env, b2.v, -phi);
    var w1, w2 := RotateDeg(env, b1.w, -phi), RotateDeg(env, b2.w, -phi);
    var contact := ContactVelocity(v1, v2, w1, w2);
    var q := Kick(env, v1.x, contact);
    var u := Exchange(v1, v2, q);
    StruckTravels(env, b1, u.0, ContactSpin(env, b2, w1, w2, u.0, u.1, contact, v1.x).0, phi);
    if b2.v == ZERO && v1.x != 0.0 && v1.y == 0.0 && b1.w.z + b2.w.z == 0.0 {
      RestTurned(env, phi);
      SpinTurned(b1.w, env.cos(-phi), env.sin(-phi));
      SpinTurned(b2.w, env.cos(-phi), env.sin(-phi));
      assert contact.x == v1.x && contact.y == 0.0;
      NoKick(env, v1.x, contact);
    }
  }

  lemma RestTurned(env: Env, phi: real)
    ensures RotateDeg(env, ZERO, -phi) == ZERO
  {
  }

  lemma SpinTurned(w: Vector, c: real, s: real)
    ensures w.Rotate(c, s).z == w.z
  {
  }

  lemma NoKick(env: Env, v0x: real, contact: Vector)
    requires contact.y == 0.0 && contact != ZERO
    ensures Kick(env, v0x, contact) == 0.0
  {
    MagPositive(env.root, contact);
    QuotientIs(0.0, Mag(env.root, contact), 0.0);
  }

  // ---------------------------------------------------------------- rails and cue

  /** A cushion keeps nine tenths of the velocity along it, turns six tenths of that towards it back, and
      so leaves the ball with at most nine tenths of its speed; if it still travels it keeps a tenth of
      its spin. */
  lemma BounceSlows(env: Env, b: Ball, rail: Rail)
    requires env.velocityEpsilon == 0.0 && b.InPlay()
    ensures var r := BounceOffRail(env, b, rail);
      var end := rail.North? || rail.South?;
      var (along, towards) := if end then (b.v.x, b.v.y) else (b.v.y, b.v.x);
      && (if end then r.v == Vector(0.9 * along, -0.6 * towards, 0.0) else r.v == Vector(-0.6 * towards, 0.9 * along, 0.0))
      && r.v.Dot(r.v) <= 0.81 * b.v.Dot(b.v)
      && (r.Travelling() <==> b.v != ZERO)
      && (r.Travelling() ==> r.w == Vector(0.1 * b.w.x, 0.1 * b.w.y, 0.1 * b.w.z))
  {
    hide Vector.Times, Vector.Dot, Bounced, Classify;
    BouncedSlower(b.v, rail);
    BouncedIs(b.v, rail);
    VelocityKept(env, b.(v := Bounced(b.v, rail), w := b.w.Times(0.1)));
    TenthOf(b.w);
    assert b.v == Vector(b.v.x, b.v.y, 0.0);
  }

  lemma BouncedIs(v: Vector, rail: Rail)
    ensures Bounced(v, rail) ==
      if rail.North? || rail.South? then Vector(0.9 * v.x, -0.6 * v.y, 0.0) else Vector(-0.6 * v.x, 0.9 * v.y, 0.0)
    ensures v.z == 0.0 ==> (Bounced(v, rail) == ZERO <==> v == ZERO)
  {
    assert v == Vector(v.x, v.y, v.z);
  }

  lemma TenthOf(w: Vector)
    ensures w.Times(0.1) == Vector(0.1 * w.x, 0.1 * w.y, 0.1 * w.z)
  {
  }

  lemma BouncedSlower(v: Vector, rail: Rail)
    requires v.z == 0.0
    ensures var u := Bounced(v, rail); u.z == 0.0 && u.Dot(u) <= 0.81 * v.Dot(v)
  {
    hide Vector.Dot;
    var u := Bounced(v, rail);
    DotFlat(u);
    DotFlat(v);
    Damped(v.x, v.y);
    Damped(v.y, v.x);
  }

  lemma DotFlat(v: Vector)
    requires v.z == 0.0
    ensures v.Dot(v) == v.x * v.x + v.y * v.y
  {
  }

  /** With exact thresholds classification keeps the velocity. */
  lemma VelocityKept(env: Env, b: BallData)
    requires env.velocityEpsilon == 0.0 && b.v.z == 0.0 && b.InPlay()
    ensures var r := Classify(env, b); r.v == b.v && (b.v != ZERO <==> r.Travelling()) && (r.Travelling() ==> r.w == b.w)
  {
    hide Mag;
    MagZeroIff(env, b.v);
  }

  lemma Damped(x: real, y: real)
    ensures (0.9 * x) * (0.9 * x) + (-0.6 * y) * (-0.6 * y) <= 0.81 * (x * x + y * y)
  {
    var q := Square(y);
    assert (0.9 * x) * (0.9 * x) == 0.81 * (x * x) && (-0.6 * y) * (-0.6 * y) == 0.36 * (y * y);
  }

  /** A strike at positive speed with the cue not upright sets the cue ball in motion, at the
      speed of the strike whatever its direction. */
  lemma StrikeMoves(env: Env, b: Ball, sp: ShotParams)
    requires Exact(env) && b.InPlay() && sp.v > 0.0 && env.cos(sp.theta) != 0.0
    ensures var r := StrikeBall(env, b, sp);
      r.Travelling() && r.v.Dot(r.v) == StrikeSpeed(env, sp) * StrikeSpeed(env, sp) && StrikeSpeed(env, sp) != 0.0
  {
    StrikeFast(env, sp);
    hide StrikeSpeed, StrikeSpin, Classify, Vector.Dot;
    var k := StrikeSpeed(env, sp);
    TurnedSquare(env, k, sp.phi + 90.0);
    VelocityKept(env, b.(v := StrikeVelocity(env, sp), w := StrikeSpin(env, sp)));
  }

  /** Where the cue meets the ball, from its middle: to the side, back along the cue, and up. */
  function Grip(env: Env, sp: ShotParams): Vector { Vector(sp.a, StrikeDepth(env, sp), sp.b) }

  /** Unit vector of the push, in the same frame. */
  function Thrust(env: Env, sp: ShotParams): Vector { Vector(0.0, -env.cos(sp.theta), -env.sin(sp.theta)) }

  /** What the impulse has to overcome: the masses, and the ball's inertia at this arm. */
  function Resistance(arm: Vector): real {
    1.0 + BALL_MASS / CUE_MASS + 0.999425 * (2.5 / (BALL_RADIUS * BALL_RADIUS)) * arm.Dot(arm)
  }

  /** The cue meets the ball on its surface. The impulse `f` of the strike makes up for the masses of ball
      and cue and for the arm of the push; it gives the ball its level part as velocity and its torque as
      spin, both in the frame of the shot. */
  lemma StrikeLaw(env: Env, b: Ball, sp: ShotParams) returns (f: real)
    requires Exact(env) && b.InPlay() && sp.v > 0.0 && env.cos(sp.theta) != 0.0
    ensures sp.a * sp.a + sp.b * sp.b <= BALL_RADIUS * BALL_RADIUS ==> Grip(env, sp).Dot(Grip(env, sp)) == BALL_RADIUS * BALL_RADIUS
    ensures f > 0.0 && f * Resistance(Grip(env, sp).Cross(Thrust(env, sp))) == 2.0 * BALL_MASS * sp.v
    ensures var r, turn := StrikeBall(env, b, sp), -(sp.phi + 90.0);
      && RotateDeg(env, r.v, turn) == Vector(0.0, Thrust(env, sp).y * f / BALL_MASS, 0.0)
      && RotateDeg(env, r.w, turn) == Grip(env, sp).Cross(Thrust(env, sp)).Times(f / INERTIA)
  {
    hide StrikeForce, StrikeDepth, Resistance, StrikeBall, RotateDeg, Vector.Dot, Vector.Times, Vector.Cross;
    f := StrikeForce(sp, StrikeDepth(env, sp), env.cos(sp.theta), env.sin(sp.theta));
    ForcePositive(sp, StrikeDepth(env, sp), env.cos(sp.theta), env.sin(sp.theta));
    ForceIs(env, sp, StrikeDepth(env, sp), env.cos(sp.theta), env.sin(sp.theta), Grip(env, sp).Cross(Thrust(env, sp)));
    StrikeGives(env, b, sp);
    GripOnBall(env, sp);
  }

  lemma StrikeGives(env: Env, b: Ball, sp: ShotParams)
    requires Exact(env) && b.InPlay() && sp.v > 0.0 && env.cos(sp.theta) != 0.0
    ensures var f := StrikeForce(sp, StrikeDepth(env, sp), env.cos(sp.theta), env.sin(sp.theta));
      var r, turn := StrikeBall(env, b, sp), -(sp.phi + 90.0);
      && RotateDeg(env, r.v, turn) == Vector(0.0, Thrust(env, sp).y * f / BALL_MASS, 0.0)
      && RotateDeg(env, r.w, turn) == Grip(env, sp).Cross(Thrust(env, sp)).Times(f / INERTIA)
  {
    hide StrikeForce, StrikeDepth, StrikeBall, RotateDeg, Launched, Spun, Vector.Times, Vector.Cross;
    var cos, sin, c := env.cos(sp.theta), env.sin(sp.theta), StrikeDepth(env, sp);
    var f := StrikeForce(sp, c, cos, sin);
    StruckParts(env, b, sp);
    SpunIs(sp.a, sp.b, c, cos, sin, f);
    LaunchedIs(f, cos);
    TurnedBack(env, Vector(0.0, StrikeSpeed(env, sp), 0.0), sp.phi + 90.0);
    TurnedBack(env, Spun(sp.a, sp.b, c, cos, sin, f), sp.phi + 90.0);
  }

  lemma LaunchedIs(f: real, cos: real)
    ensures Launched(f, cos) == -cos * f / BALL_MASS
  {
  }

  lemma GripOnBall(env: Env, sp: ShotParams)
    requires ExactRoot(env.root)
    ensures sp.a * sp.a + sp.b * sp.b <= BALL_RADIUS * BALL_RADIUS ==> Grip(env, sp).Dot(Grip(env, sp)) == BALL_RADIUS * BALL_RADIUS
  {
    assert IsRoot(env.root);
    var x := BALL_RADIUS * BALL_RADIUS - sp.a * sp.a - sp.b * sp.b;
    assert x >= 0.0 ==> env.root(x) * env.root(x) == x;
  }

  lemma StruckParts(env: Env, b: Ball, sp: ShotParams)
    requires Exact(env) && b.InPlay() && sp.v > 0.0 && env.cos(sp.theta) != 0.0
    ensures StrikeBall(env, b, sp).v == RotateDeg(env, Vector(0.0, StrikeSpeed(env, sp), 0.0), sp.phi + 90.0)
    ensures StrikeBall(env, b, sp).w == StrikeSpin(env, sp)
  {
    StrikeFast(env, sp);
    hide StrikeSpeed, StrikeSpin, Classify, Vector.Dot, Vector.Rotate;
    TurnedSquare(env, StrikeSpeed(env, sp), sp.phi + 90.0);
    VelocityKept(env, b.(v := StrikeVelocity(env, sp), w := StrikeSpin(env, sp)));
  }

  lemma ArmIs(a: real, b: real, c: real, cos: real, sin: real)
    ensures Vector(a, c, b).Cross(Vector(0.0, -cos, -sin)) == Vector(b * cos - c * sin, a * sin, -(a * cos))
  {
  }

  lemma SpunIs(a: real, b: real, c: real, cos: real, sin: real, f: real)
    ensures Spun(a, b, c, cos, sin, f) == Vector(a, c, b).Cross(Vector(0.0, -cos, -sin)).Times(f / INERTIA)
  {
    var k := f / INERTIA;
    assert k == f * (1.0 / INERTIA);
    ArmIs(a, b, c, cos, sin);
  }

  lemma ForceIs(env: Env, sp: ShotParams, c: real, cos: real, sin: real, arm: Vector)
    requires cos == env.cos(sp.theta) && sin == env.sin(sp.theta) && arm == Vector(sp.a, c, sp.b).Cross(Vector(0.0, -cos, -sin))
    ensures StrikeForce(sp, c, cos, sin) * Resistance(arm) == 2.0 * BALL_MASS * sp.v
  {
    assert cos * cos + sin * sin == 1.0;
    var offset := ForceBy(sp, c, cos, sin);
    ArmIs(sp.a, sp.b, c, cos, sin);
    var square := ArmSquare(sp.a, sp.b, c, cos, sin);
    hide StrikeForce, Vector.Cross;
    assert arm.Dot(arm) == square;
    assert Resistance(arm) == 1.0 + BALL_MASS / CUE_MASS + 0.999425 * (2.5 / (BALL_RADIUS * BALL_RADIUS)) * offset;
  }

  lemma ForceBy(sp: ShotParams, c: real, cos: real, sin: real) returns (offset: real)
    ensures offset == sp.a * sp.a + sp.b * sp.b * cos * cos + c * c * sin * sin - 2.0 * sp.b * c * cos * sin
    ensures StrikeForce(sp, c, cos, sin) * (1.0 + BALL_MASS / CUE_MASS + 0.999425 * (2.5 / (BALL_RADIUS * BALL_RADIUS)) * offset) == 2.0 * BALL_MASS * sp.v
  {
    StrikePositive(sp.a, sp.b, c, cos, sin);
    offset := sp.a * sp.a + sp.b * sp.b * cos * cos + c * c * sin * sin - 2.0 * sp.b * c * cos * sin;
    var k := 0.999425 * (5.0 / (2.0 * BALL_RADIUS * BALL_RADIUS));
    var p := Product(k, offset);
    Ratio(2.0 * BALL_MASS * sp.v, 1.0 + BALL_MASS / CUE_MASS + k * offset);
  }

  lemma ArmSquare(a: real, b: real, c: real, cos: real, sin: real) returns (square: real)
    requires cos * cos + sin * sin == 1.0
    ensures square == a * a + b * b * cos * cos + c * c * sin * sin - 2.0 * b * c * cos * sin
    ensures var arm := Vector(b * cos - c * sin, a * sin, -(a * cos)); arm.Dot(arm) == square
  {
    assert (a * sin) * (a * sin) + (a * cos) * (a * cos) == (a * a) * (cos * cos + sin * sin);
    assert (b * cos - c * sin) * (b * cos - c * sin) == b * b * cos * cos + c * c * sin * sin - 2.0 * b * c * cos * sin;
    square := a * a + b * b * cos * cos + c * c * sin * sin - 2.0 * b * c * cos * sin;
  }

  lemma StrikeFast(env: Env, sp: ShotParams)
    requires sp.v > 0.0 && env.cos(sp.theta) != 0.0
    ensures StrikeSpeed(env, sp) != 0.0
  {
    hide StrikeForce, StrikeDepth;
    var cos, sin, c := env.cos(sp.theta), env.sin(sp.theta), StrikeDepth(env, sp);
    ForcePositive(sp, c, cos, sin);
    NotZero(StrikeForce(sp, c, cos, sin), cos);
  }

  /** Turning keeps the length of a velocity. */
  lemma TurnedSquare(env: Env, k: real, phi: real)
    requires k != 0.0
    ensures var v := RotateDeg(env, Vector(0.0, k, 0.0), phi); v.Dot(v) == k * k && v != ZERO
  {
    hide Vector.Dot, Vector.Rotate;
    assert env.cos(phi) * env.cos(phi) + env.sin(phi) * env.sin(phi) == 1.0;
    TurnedPlain(k, env.cos(phi), env.sin(phi));
  }

  lemma TurnedPlain(k: real, p: real, q: real)
    requires p * p + q * q == 1.0 && k != 0.0
    ensures var v := Vector(0.0, k, 0.0).Rotate(p, q); v.Dot(v) == k * k && v != ZERO
  {
    var x, y := 0.0 * p - k * q, 0.0 * q + k * p;
    var s := Square(k);
    assert x * x == (k * k) * (q * q) && y * y == (k * k) * (p * p);
    assert (k * k) * (q * q) + (k * k) * (p * p) == (k * k) * (p * p + q * q);
    assert x * x + y * y == k * k;
  }

  lemma NotZero(f: real, cos: real)
    requires f > 0.0 && cos != 0.0
    ensures -f * cos / BALL_MASS != 0.0
  {
    if cos > 0.0 {
      var p := Product(f, cos);
    } else {
      var p := Product(f, -cos);
    }
  }

  lemma ForcePositive(sp: ShotParams, c: real, cos: real, sin: real)
    requires sp.v > 0.0
    ensures StrikeForce(sp, c, cos, sin) > 0.0
  {
    StrikePositive(sp.a, sp.b, c, cos, sin);
    var offset := sp.a * sp.a + sp.b * sp.b * cos * cos + c * c * sin * sin - 2.0 * sp.b * c * cos * sin;
    var k := 0.999425 * (5.0 / (2.0 * BALL_RADIUS * BALL_RADIUS));
    var p := Product(k, offset);
    Positive(2.0 * BALL_MASS * sp.v, 1.0 + BALL_MASS / CUE_MASS + k * offset);
  }
}
