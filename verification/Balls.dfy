/** Balls, their identifiers and their states of motion (`Ball`, `Table::Pocket`). */
module Balls {
  import opened Vectors

  /** `Ball::Type`: the code orders and increments these, so they stay numbers. */
  type BallId = n: nat | n <= 16

  const CUE: BallId := 0
  const ONE: BallId := 1
  const EIGHT: BallId := 8
  const NINE: BallId := 9
  const UNKNOWN_ID: BallId := 16

  /** `Table::Pocket`. */
  type Pocket = n: nat | n <= 6

  const SW: Pocket := 0
  const W: Pocket := 1
  const NW: Pocket := 2
  const NE: Pocket := 3
  const E: Pocket := 4
  const SE: Pocket := 5
  const UNKNOWN_POCKET: Pocket := 6

  const BALL_RADIUS: real := 0.028575

  /** `Ball::State`; the two mixed states no code ever assigns are left out. */
  datatype Motion =
    | NotInPlay
    | Stationary
    | Spinning
    | Sliding
    | Rolling
    | InPocket(pocket: Pocket)
    | UnknownState

  datatype BallData = BallData(id: BallId, state: Motion, r: Point, v: Vector, w: Vector)
  {
    predicate InPlay() { state.Stationary? || state.Spinning? || state.Sliding? || state.Rolling? }

    predicate IsPocketed() { state.InPocket? && state.pocket < UNKNOWN_POCKET }

    predicate Moving() { state.Spinning? || state.Sliding? || state.Rolling? }

    /** The two states with translational motion. */
    predicate Travelling() { state.Sliding? || state.Rolling? }

    /** Velocity of the contact point with the cloth. */
    function Slip(): Vector { v.Plus(UP.Cross(w).Times(BALL_RADIUS)) }

    /** SLIDING > ROLLING > SPINNING > everything at rest. */
    function Rank(): nat {
      if state.Sliding? then 3 else if state.Rolling? then 2 else if state.Spinning? then 1 else 0
    }
  }

  /** The directions the equations of motion divide by exist. */
  predicate Settled(b: BallData) {
    && b.v.z == 0.0
    && (b.Travelling() ==> b.v != ZERO)
    && (b.state.Sliding? ==> b.Slip() != ZERO)
  }

  /** A ball between two calls of the simulator: `updateState` ends every change of motion. */
  type Ball = b: BallData | Settled(b)
    witness BallData(CUE, NotInPlay, Point(0.0, 0.0), ZERO, ZERO)

  /** The ball `TableState::getBall` appends when it is asked for a missing one. */
  function NewBall(id: BallId): Ball {
    BallData(id, NotInPlay, Point(0.0, 0.0), ZERO, ZERO)
  }

  /** Position of the first ball called `id`, or `|balls|`. */
  function Find(balls: seq<Ball>, id: BallId): (i: nat)
    ensures i <= |balls|
    ensures i < |balls| ==> balls[i].id == id
    ensures forall k :: 0 <= k < i ==> balls[k].id != id
  {
    if balls == [] || balls[0].id == id then 0 else 1 + Find(balls[1..], id)
  }

  /** What `getBall` leaves behind: the table, extended if the ball was missing. */
  function Ensure(balls: seq<Ball>, id: BallId): (r: seq<Ball>)
    ensures Find(balls, id) < |r| && r[Find(balls, id)].id == id
    ensures Find(balls, id) < |balls| ==> r == balls
    ensures balls <= r
  {
    if Find(balls, id) < |balls| then balls else balls + [NewBall(id)]
  }

  function Get(balls: seq<Ball>, id: BallId): (b: Ball)
    ensures b.id == id
  {
    Ensure(balls, id)[Find(balls, id)]
  }

  ghost predicate UniqueIds(balls: seq<Ball>) {
    forall i, j :: 0 <= i < j < |balls| ==> balls[i].id != balls[j].id
  }

  /** The vectors the simulator is started on name each real ball at most once. */
  ghost predicate RealIds(balls: seq<Ball>) {
    UniqueIds(balls) && forall i :: 0 <= i < |balls| ==> balls[i].id < UNKNOWN_ID
  }

  ghost predicate OnTable(balls: seq<Ball>, id: BallId) {
    exists i :: 0 <= i < |balls| && balls[i].id == id && balls[i].InPlay()
  }

  lemma FindAt(balls: seq<Ball>, i: nat)
    requires UniqueIds(balls) && i < |balls|
    ensures Find(balls, balls[i].id) == i && Get(balls, balls[i].id) == balls[i]
  {
    assert Find(balls, balls[i].id) <= i;
  }

  /** Two tables with the same balls in the same slots. */
  ghost predicate SameIds(a: seq<Ball>, b: seq<Ball>) {
    |a| == |b| && forall i :: 0 <= i < |a| ==> b[i].id == a[i].id
  }

  lemma SameIdsFind(a: seq<Ball>, b: seq<Ball>, id: BallId)
    requires SameIds(a, b)
    ensures Find(a, id) == Find(b, id)
  {
  }
}
