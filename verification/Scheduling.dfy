/** The discrete-event scheduler of `Shot::simulateShot`, over any physics.
    The functions here say what the loop computes; `Shots` runs it in place. */
module Scheduling {
  import opened Wrappers
  import opened Balls
  import opened Events

  /** Outcome of `TableState::fixOverlap`: normal return, POOLFIZ_ERROR, or the string
      `Vector::norm` throws. Whatever happens, the balls are left where they were moved. */
  datatype Separation =
    | Separated(balls: seq<Ball>)
    | StillOverlapping(balls: seq<Ball>)
    | Concentric(balls: seq<Ball>)

  /** Everything the scheduler asks of the physics. */
  datatype World = World(
    possible: (seq<Ball>, ShotParams) -> bool,
    move: (Ball, real, real) -> Ball,
    separate: seq<Ball> -> Separation,
    act: (Ball, Event) -> Ball,
    collide: (Ball, Ball) -> (Ball, Ball),
    transition: (Ball, real) -> Option<Event>,
    boundary: (Ball, real) -> seq<Event>,
    collision: (Ball, Ball, real) -> Option<Event>)

  const NEAR_FUTURE_EPSILON: real := 0.00000001

  /** The simulator between two iterations. */
  datatype Sim = Sim(balls: seq<Ball>, now: real, queue: seq<Event>, log: seq<Record>)

  /** `min_element`: the first of the earliest events. */
  function MinIndex(q: seq<Event>): (m: nat)
    requires q != []
    ensures m < |q|
    ensures forall k :: 0 <= k < |q| ==> q[m].time <= q[k].time
    ensures forall k :: 0 <= k < m ==> q[m].time < q[k].time
  {
    if |q| == 1 then 0 else
      var m := MinIndex(q[1..]);
      if q[0].time <= q[1..][m].time then 0 else m + 1
  }

  function MoveAll(w: World, balls: seq<Ball>, t0: real, t1: real): seq<Ball> {
    seq<Ball>(|balls|, i requires 0 <= i < |balls| => w.move(balls[i], t0, t1))
  }

  /** `updateTime`, once its time check has passed. */
  function Advance(w: World, balls: seq<Ball>, t0: real, t1: real): Separation {
    w.separate(MoveAll(w, balls, t0, t1))
  }

  /** `Event::doHandle`: only the balls the event names are written. */
  function Handle(w: World, balls: seq<Ball>, e: Event): seq<Ball> {
    var one := Ensure(balls, e.ball1);
    var i := Find(balls, e.ball1);
    if e.kind.BallCollision? then
      var two := Ensure(one, e.kind.ball2);
      var j := Find(one, e.kind.ball2);
      var hit := w.collide(two[i], two[j]);
      two[i := hit.0][j := hit.1]
    else
      one[i := w.act(one[i], e)]
  }

  /** `removeRelatedEvents`. */
  function RemoveRelated(q: seq<Event>, last: Event): (r: seq<Event>)
    ensures forall e :: e in r <==> e in q && !last.RelatedTo(e)
  {
    if q == [] then [] else
      (if last.RelatedTo(q[0]) then [] else [q[0]]) + RemoveRelated(q[1..], last)
  }

  function List(o: Option<Event>): seq<Event> { if o.Some? then [o.value] else [] }

  /** Whether a pair is examined after an event of balls `b1` and `b2`. */
  predicate Concerned(b1: BallId, b2: BallId, x: BallId, y: BallId) {
    b1 == UNKNOWN_ID || x == b1 || y == b1 || x == b2 || y == b2
  }

  /** A hit between the two balls that have just collided must lie beyond the near future. */
  predicate Retained(e: Event, now: real, b1: BallId, b2: BallId, x: BallId, y: BallId) {
    || ((b1 != x || b2 != y) && (b1 != y || b2 != x))
    || e.time - now > NEAR_FUTURE_EPSILON
  }

  /** The collision scheduled for the pair in slots `i` and `j`, if any. */
  function HitOf(w: World, balls: seq<Ball>, now: real, b1: BallId, b2: BallId, i: nat, j: nat): seq<Event>
    requires i < |balls| && j < |balls|
  {
    var x, y := balls[i].id, balls[j].id;
    if i != j && Concerned(b1, b2, x, y) then
      var e := w.collision(balls[i], balls[j], now);
      if e.Some? && Retained(e.value, now, b1, b2, x, y) then [e.value] else []
    else []
  }

  function HitsFrom(w: World, balls: seq<Ball>, now: real, b1: BallId, b2: BallId, i: nat, j: nat): seq<Event>
    requires i < |balls| && j <= |balls|
    decreases |balls| - j
  {
    if j == |balls| then [] else HitOf(w, balls, now, b1, b2, i, j) + HitsFrom(w, balls, now, b1, b2, i, j + 1)
  }

  /** What one turn of the outer loop of `addRelatedFutureEvents` appends. */
  function RowOf(w: World, balls: seq<Ball>, now: real, b1: BallId, b2: BallId, i: nat): seq<Event>
    requires i < |balls|
  {
    (if b1 == UNKNOWN_ID then List(w.transition(balls[i], now)) + w.boundary(balls[i], now) else [])
    + (if balls[i].Travelling() then HitsFrom(w, balls, now, b1, b2, i, 0) else [])
  }

  function RowsFrom(w: World, balls: seq<Ball>, now: real, b1: BallId, b2: BallId, i: nat): seq<Event>
    requires i <= |balls|
    decreases |balls| - i
  {
    if i == |balls| then [] else RowOf(w, balls, now, b1, b2, i) + RowsFrom(w, balls, now, b1, b2, i + 1)
  }

  function TransitionOf(w: World, balls: seq<Ball>, now: real, b: BallId): seq<Event> {
    if b == UNKNOWN_ID then [] else List(w.transition(Get(balls, b), now))
  }

  function BoundaryOf(w: World, balls: seq<Ball>, now: real, b: BallId): seq<Event> {
    if b == UNKNOWN_ID then [] else w.boundary(Get(balls, b), now)
  }

  /** `addRelatedFutureEvents`: what is appended to the queue. Passing UNKNOWN_ID twice
      predicts everything, as the ALL_EVENTS build does after wiping the queue. */
  function Predicted(w: World, balls: seq<Ball>, now: real, b1: BallId, b2: BallId): seq<Event> {
    TransitionOf(w, balls, now, b1)
    + (if b1 == UNKNOWN_ID then [] else TransitionOf(w, balls, now, b2))
    + RowsFrom(w, balls, now, b1, b2, 0)
    + BoundaryOf(w, balls, now, b1)
    + BoundaryOf(w, balls, now, b2)
  }

  datatype StepResult =
    | Continue(sim: Sim)
    | FirstHit(sim: Sim)
    | Broken(balls: seq<Ball>)
    | Thrown(balls: seq<Ball>)

  function Rest(q: seq<Event>): seq<Event>
    requires q != []
  {
    q[..MinIndex(q)] + q[MinIndex(q) + 1..]
  }

  /** What follows `updateTime` in one iteration: handle, prune, predict, record. */
  function React(w: World, balls: seq<Ball>, e: Event, rest: seq<Event>, log: seq<Record>): Sim {
    var handled := Handle(w, balls, e);
    Sim(handled, e.time,
        RemoveRelated(rest, e) + Predicted(w, handled, e.time, e.ball1, e.Ball2()),
        log + [Record(e, Some(Get(handled, e.ball1)))])
  }

  /** One iteration of the main loop of `simulateShot`. */
  function Step(w: World, s: Sim, fullSim: bool): StepResult
    requires s.queue != []
  {
    var e := s.queue[MinIndex(s.queue)];
    var rest := Rest(s.queue);
    if !(e.time >= s.now) then Broken(s.balls)
    else match Advance(w, s.balls, s.now, e.time)
      case Separated(balls) =>
        if !fullSim && e.kind.BallCollision? then
          FirstHit(Sim(balls, e.time, rest, s.log + [Record(e, None)]))
        else
          Continue(React(w, balls, e, rest, s.log))
      case StillOverlapping(balls) => Broken(balls)
      case Concentric(balls) => Thrown(balls)
  }

  datatype RunResult =
    | Finished(sim: Sim)
    | Failed(balls: seq<Ball>)        // POOLFIZ_ERROR in mid-simulation
    | Raised(balls: seq<Ball>)        // a string exception in mid-simulation
    | Refused                         // INVALID_CUE_PARAMS before anything moved

  /** The main loop: `counter` is `eventcounter`. */
  function Run(w: World, s: Sim, counter: nat, fullSim: bool): RunResult
    requires 0 < counter
    decreases counter
  {
    if s.queue == [] then Finished(s)
    else if counter == 1 then Failed(s.balls)
    else match Step(w, s, fullSim)
      case Continue(next) => Run(w, next, counter - 1, fullSim)
      case FirstHit(last) => Finished(last)
      case Broken(balls) => Failed(balls)
      case Thrown(balls) => Raised(balls)
  }

  const EVENT_LIMIT: nat := 5000

  /** The queue holds the cue strike alone, in metres and with the sign of `a` turned. */
  function Start(balls: seq<Ball>, sp: ShotParams): Sim {
    Sim(balls, 0.0, [Event(0.0, CUE, CueStrike(sp.(a := sp.a / -1000.0, b := sp.b / 1000.0)))], [])
  }

  /** `Shot::simulateShot`. */
  function Simulate(w: World, balls: seq<Ball>, sp: ShotParams, fullSim: bool): RunResult {
    if w.possible(balls, sp) then Run(w, Start(balls, sp), EVENT_LIMIT, fullSim) else Refused
  }
}
