/** What the rules of all games share (`GameState`): turns, decisions, clocks, racking, and the
    facts a referee reads off an event list. */
module Games {
  import opened Wrappers
  import opened Vectors
  import opened Balls
  import opened Events
  import opened Scheduling
  import opened SchedulerLaws
  import opened SchedulerInvariants
  import opened ShotStory
  import opened Spotting

  /** `TurnType`, without the unused TT_RESERVED. */
  datatype Turn =
    | Normal
    | BallInHand
    | BehindLine
    | Break
    | Win
    | FoulOnBreak
    | EightOnBreak
    | FirstShot
    | PushOut

  /** `positionRequired`: the cue ball is placed before the shot. */
  predicate PositionRequired(turn: Turn) { turn.Break? || turn.BallInHand? || turn.BehindLine? }

  datatype Decision = NoDecision | KeepShooting | Rerack | RerackOppShoot | Concede | DeclarePushOut

  /** `GameShot`; the called ball and pocket arrive as unchecked numbers. */
  datatype GameShot = GameShot(params: ShotParams, cue: Point, ball: int, pocket: int, decision: Decision, timeSpent: real)

  datatype ShotResult = Ok | OkLostTurn | BadParams | ShotImpossible | Timeout

  /** The random draws of one call of `executeShot`: what racking adds to each position, or
      nothing when no valid rack was found, and what spotting adds at each try. */
  datatype Chance = Chance(rack: Option<BallId -> Point>, spot: nat -> Point)

  /** The fields of `GameState` apart from the table. */
  datatype Game = Game(turn: Turn, timeLeft: real, timeLeftOpp: real, started: bool, switched: bool)

  /** Conversion of a double to an int and back. */
  function Truncate(x: real): real {
    if x >= 0.0 then x.Floor as real else -((-x).Floor as real)
  }

  /** `GameState::switchSides`; the clock of the player leaving the table goes through an int. */
  function SwitchSides(g: Game): Game {
    g.(timeLeft := g.timeLeftOpp, timeLeftOpp := Truncate(g.timeLeft), started := !g.started, switched := !g.switched)
  }

  /** The clock runs only when the shot took time and the player has a limit. */
  predicate Timed(g: Game, shot: GameShot) { shot.timeSpent != 0.0 && g.timeLeft != 0.0 }

  /** What `executeShot` does to the game before anything else. */
  function Charge(g: Game, shot: GameShot): Game {
    g.(switched := false, timeLeft := if Timed(g, shot) then g.timeLeft - shot.timeSpent else g.timeLeft)
  }

  predicate OutOfTime(g: Game, shot: GameShot) { Timed(g, shot) && g.timeLeft - shot.timeSpent < 0.0 }

  function Verdict(g: Game): ShotResult { if g.switched then OkLostTurn else Ok }

  /** `PreProcessCode` with the state it leaves; an exception instead when racking fails or the
      game is in a turn it does not know. */
  datatype Code = Rejected | NoExecute | Execute | PlaceCue

  datatype Prepared<S> = Prepared(code: Code, state: S) | PreThrew

  /** How a call of `executeShot` ends. `Interrupted` also answers SR_SHOT_IMPOSSIBLE, but the
      simulation was under way and the table is left half played; `Escaped` is an exception
      other than BadShotException. */
  datatype Execution<S> =
    | Executed(state: S, result: ShotResult)
    | Interrupted(state: S)
    | Escaped

  // ---------------------------------------------------------------- tables between shots

  /** A table holding the balls below `n`, each once, and no unknown one. */
  ghost predicate Full(balls: seq<Ball>, n: nat) {
    RealIds(balls) && forall id: BallId :: id < n ==> Find(balls, id) < |balls|
  }

  ghost predicate AtRest(balls: seq<Ball>) {
    forall i :: 0 <= i < |balls| && balls[i].InPlay() ==> balls[i].state.Stationary?
  }

  lemma PlaceKeeps(balls: seq<Ball>, id: BallId, r: Point, n: nat)
    requires Full(balls, n) && AtRest(balls) && id < UNKNOWN_ID
    ensures var placed := Place(balls, id, r);
      && Full(placed, n) && AtRest(placed) && OnTable(placed, id)
      && forall b: BallId :: b != id ==> (OnTable(placed, b) <==> OnTable(balls, b))
  {
    var placed := Place(balls, id, r);
    MovedKeeps(balls, placed, id, n);
  }

  /** Changing one ball of a table to a stationary one. */
  lemma MovedKeeps(a: seq<Ball>, b: seq<Ball>, id: BallId, n: nat)
    requires Full(a, n) && AtRest(a) && id < UNKNOWN_ID
    requires OnlyMoved(a, b, id) && Find(b, id) < |b| && Get(b, id).state.Stationary?
    ensures Full(b, n) && AtRest(b) && OnTable(b, id)
    ensures forall c: BallId :: c != id ==> (OnTable(b, c) <==> OnTable(a, c))
  {
    var k := Find(a, id);
    assert b[k].id == id && b[k] == Get(b, id);
    forall i | 0 <= i < |a|
      ensures b[i].id == a[i].id
    {
      if i == k {
        FindAt(a, i);
      }
    }
    assert |b| == |a| || k == |a|;
    forall i, j | 0 <= i < j < |b|
      ensures b[i].id != b[j].id
    {
      if j == |a| {
        assert a[i].id != id;
      }
    }
    forall c: BallId | c < n
      ensures Find(b, c) < |b|
    {
      assert a[Find(a, c)].id == c;
    }
    forall c: BallId | c != id
      ensures OnTable(b, c) <==> OnTable(a, c)
    {
      SameElsewhere(a, b, id, c);
    }
  }

  lemma SameElsewhere(a: seq<Ball>, b: seq<Ball>, id: BallId, c: BallId)
    requires OnlyMoved(a, b, id) && Find(b, id) < |b| && c != id
    requires forall i :: 0 <= i < |a| ==> b[i].id == a[i].id
    ensures OnTable(b, c) <==> OnTable(a, c)
  {
    var k := Find(a, id);
    assert b[k].id == id;
    if OnTable(a, c) {
      var i :| 0 <= i < |a| && a[i].id == c && a[i].InPlay();
      assert b[i] == a[i];
    }
    if OnTable(b, c) {
      var i :| 0 <= i < |b| && b[i].id == c && b[i].InPlay();
      assert i != k;
      assert b[i] == a[i];
    }
  }

  lemma OnTableGet(balls: seq<Ball>, id: BallId)
    requires UniqueIds(balls)
    ensures OnTable(balls, id) <==> Find(balls, id) < |balls| && Get(balls, id).InPlay()
  {
    if OnTable(balls, id) {
      var i :| 0 <= i < |balls| && balls[i].id == id && balls[i].InPlay();
      FindAt(balls, i);
    }
  }

  // ---------------------------------------------------------------- racking

  /** A ball and where it is racked. */
  datatype Spot = Spot(id: BallId, at: Point)

  /** A run of `setBall` calls. */
  function PlaceAll(balls: seq<Ball>, spots: seq<Spot>): seq<Ball>
    decreases |spots|
  {
    if spots == [] then balls else PlaceAll(Place(balls, spots[0].id, spots[0].at), spots[1..])
  }

  function Shaken(b: Ball, noise: Point): (r: Ball)
    ensures r.id == b.id && r.state == b.state
  {
    var r := b.(r := b.r.Plus(noise));
    assert r.Slip() == b.Slip();
    r
  }

  /** `TableState::addNoise`, given the draws it settled on. */
  function Jitter(balls: seq<Ball>, noise: BallId -> Point): seq<Ball> {
    seq<Ball>(|balls|, i requires 0 <= i < |balls| => Shaken(balls[i], noise(balls[i].id)))
  }

  /** Both `rack` methods: the balls in place, then noise. */
  function Racked(balls: seq<Ball>, spots: seq<Spot>, noise: BallId -> Point): seq<Ball> {
    Jitter(PlaceAll(balls, spots), noise)
  }

  ghost predicate Listed(spots: seq<Spot>, id: BallId) { exists k :: 0 <= k < |spots| && spots[k].id == id }

  lemma {:induction false} PlaceAllKeeps(balls: seq<Ball>, spots: seq<Spot>)
    requires RealIds(balls) && AtRest(balls) && forall k :: 0 <= k < |spots| ==> spots[k].id < UNKNOWN_ID
    ensures var placed := PlaceAll(balls, spots);
      && RealIds(placed) && AtRest(placed)
      && (forall id: BallId :: Listed(spots, id) || OnTable(balls, id) ==> OnTable(placed, id))
    decreases |spots|
  {
    hide Place;
    if spots != [] {
      var next := Place(balls, spots[0].id, spots[0].at);
      PlaceKeeps(balls, spots[0].id, spots[0].at, 0);
      PlaceAllKeeps(next, spots[1..]);
      forall id: BallId | Listed(spots, id) || OnTable(balls, id)
        ensures OnTable(PlaceAll(balls, spots), id)
      {
        if Listed(spots, id) {
          var k :| 0 <= k < |spots| && spots[k].id == id;
          assert k > 0 ==> spots[1..][k - 1].id == id;
        }
        assert Listed(spots[1..], id) || OnTable(next, id);
      }
    }
  }

  lemma JitterKeeps(balls: seq<Ball>, noise: BallId -> Point)
    requires RealIds(balls) && AtRest(balls)
    ensures RealIds(Jitter(balls, noise)) && AtRest(Jitter(balls, noise))
    ensures forall id: BallId :: OnTable(balls, id) ==> OnTable(Jitter(balls, noise), id)
  {
    hide Shaken;
    var shaken := Jitter(balls, noise);
    assert |shaken| == |balls|;
    forall i | 0 <= i < |balls|
      ensures shaken[i].id == balls[i].id && shaken[i].state == balls[i].state
    {
      assert shaken[i] == Shaken(balls[i], noise(balls[i].id));
    }
    forall id: BallId | OnTable(balls, id)
      ensures OnTable(shaken, id)
    {
      var i :| 0 <= i < |balls| && balls[i].id == id && balls[i].InPlay();
      assert shaken[i].id == id && shaken[i].InPlay();
    }
  }

  /** After racking every listed ball stands still on the table. */
  lemma RackedTable(balls: seq<Ball>, spots: seq<Spot>, noise: BallId -> Point, n: nat)
    requires RealIds(balls) && AtRest(balls) && n <= UNKNOWN_ID
    requires forall k :: 0 <= k < |spots| ==> spots[k].id < UNKNOWN_ID
    requires forall id: BallId :: id < n ==> Listed(spots, id)
    ensures var racked := Racked(balls, spots, noise);
      && Full(racked, n) && AtRest(racked) && (forall id: BallId :: id < n ==> OnTable(racked, id))
  {
    hide PlaceAll, Jitter;
    PlaceAllKeeps(balls, spots);
    JitterKeeps(PlaceAll(balls, spots), noise);
    var racked := Racked(balls, spots, noise);
    forall id: BallId | id < n
      ensures OnTable(racked, id) && Find(racked, id) < |racked|
    {
      assert OnTable(PlaceAll(balls, spots), id);
      OnTableGet(racked, id);
    }
  }

  // ---------------------------------------------------------------- reading an event list

  /** Ball `b` has a POCKETED event among the first `n` entries. */
  ghost predicate PocketedBy(log: seq<Record>, n: nat, b: BallId)
    requires n <= |log|
  {
    exists k :: 0 <= k < n && log[k].event.kind.Pocketed? && log[k].event.ball1 == b
  }

  lemma ReadPocketed(log: seq<Record>, n: nat, b: BallId)
    requires n < |log|
    ensures PocketedBy(log, n + 1, b) <==> PocketedBy(log, n, b) || (log[n].event.kind.Pocketed? && log[n].event.ball1 == b)
  {
  }

  /** Some ball was hit among the first `n` entries. */
  ghost predicate ContactBy(log: seq<Record>, n: nat)
    requires n <= |log|
  {
    exists k :: 0 <= k < n && log[k].event.kind.BallCollision?
  }

  /** A rail was reached among the first `n` entries after some ball was hit. */
  ghost predicate RailAfterContact(log: seq<Record>, n: nat)
    requires n <= |log|
  {
    exists k :: 0 <= k < n && log[k].event.kind.RailCollision? && ContactBy(log, k)
  }

  /** The object ball of the first collision, or `none`. */
  function FirstBall(log: seq<Record>, n: nat, none: BallId): BallId
    requires n <= |log|
  {
    if n == 0 then none
    else if (forall k :: 0 <= k < n - 1 ==> !log[k].event.kind.BallCollision?) && log[n - 1].event.kind.BallCollision? then log[n - 1].event.kind.ball2
    else FirstBall(log, n - 1, none)
  }

  /** The first ball hit is `b`. */
  ghost predicate HitFirst(log: seq<Record>, b: BallId) {
    exists k: nat :: FirstCollision(log, k) && log[k].event.kind.ball2 == b
  }

  /** There is one first collision if some ball is hit, and none otherwise. */
  lemma {:induction false} FirstBallIs(log: seq<Record>, n: nat, none: BallId)
    requires n <= |log|
    ensures if ContactBy(log, n) then exists k: nat :: k < n && FirstCollision(log, k) && FirstBall(log, n, none) == log[k].event.kind.ball2
            else FirstBall(log, n, none) == none
  {
    if n > 0 {
      FirstBallIs(log, n - 1, none);
      var last := log[n - 1].event;
      if last.kind.BallCollision? && !ContactBy(log, n - 1) {
        assert FirstCollision(log, n - 1);
      }
    }
  }

  lemma OneFirst(log: seq<Record>, j: nat, k: nat)
    requires FirstCollision(log, j) && FirstCollision(log, k)
    ensures j == k
  {
  }

  /** `FirstBall` names the ball of that collision. */
  lemma HitFirstIs(log: seq<Record>, none: BallId, b: BallId)
    ensures HitFirst(log, b) <==> ContactBy(log, |log|) && FirstBall(log, |log|, none) == b
  {
    FirstBallIs(log, |log|, none);
    hide FirstBall, FirstCollision;
    if ContactBy(log, |log|) {
      var k: nat :| k < |log| && FirstCollision(log, k) && FirstBall(log, |log|, none) == log[k].event.kind.ball2;
      forall j: nat | FirstCollision(log, j)
        ensures j == k
      {
        OneFirst(log, j, k);
      }
    } else {
      CollisionContact(log);
    }
  }

  lemma CollisionContact(log: seq<Record>)
    ensures (exists k: nat :: FirstCollision(log, k)) ==> ContactBy(log, |log|)
  {
  }

  /** The events a referee counts. */
  datatype Sort = AnyRail | ObjectRail | ObjectPocketed

  predicate Counts(e: Event, what: Sort) {
    match what
    case AnyRail => e.kind.RailCollision?
    case ObjectRail => e.kind.RailCollision? && e.ball1 != CUE
    case ObjectPocketed => e.kind.Pocketed? && e.ball1 != CUE
  }

  function Tally(log: seq<Record>, n: nat, what: Sort): nat
    requires n <= |log|
  {
    if n == 0 then 0 else Tally(log, n - 1, what) + (if Counts(log[n - 1].event, what) then 1 else 0)
  }

  lemma {:induction false} TallyZero(log: seq<Record>, n: nat, what: Sort)
    requires n <= |log|
    ensures Tally(log, n, what) == 0 <==> forall k :: 0 <= k < n ==> !Counts(log[k].event, what)
  {
    if n > 0 {
      TallyZero(log, n - 1, what);
    }
  }

  /** The entries counted. */
  ghost function Entries(log: seq<Record>, n: nat, what: Sort): set<int>
    requires n <= |log|
  {
    set k | 0 <= k < n && Counts(log[k].event, what)
  }

  lemma TallyStep(log: seq<Record>, n: nat, what: Sort)
    requires 0 < n <= |log|
    ensures Tally(log, n, what) == Tally(log, n - 1, what) + (if Counts(log[n - 1].event, what) then 1 else 0)
  {
  }

  lemma {:induction false} TallyIs(log: seq<Record>, n: nat, what: Sort)
    requires n <= |log|
    ensures Tally(log, n, what) == |Entries(log, n, what)|
  {
    if n > 0 {
      TallyIs(log, n - 1, what);
      var rest := Entries(log, n - 1, what);
      assert n - 1 !in rest;
      hide Counts, Tally;
      assert Tally(log, n, what) == Tally(log, n - 1, what) + (if Counts(log[n - 1].event, what) then 1 else 0) by {
        TallyStep(log, n, what);
      }
      if Counts(log[n - 1].event, what) {
        assert Entries(log, n, what) == rest + {n - 1};
      } else {
        assert Entries(log, n, what) == rest;
      }
    }
  }

  // ---------------------------------------------------------------- clocks

  /** The whole part of a time, towards zero. */
  ghost predicate WholePart(x: real, n: real) {
    n.Floor as real == n && if x >= 0.0 then n <= x < n + 1.0 else n - 1.0 < x <= n
  }

  lemma TruncateIs(x: real)
    ensures WholePart(x, Truncate(x))
  {
    var whole := if x >= 0.0 then x.Floor else -((-x).Floor);
    assert Truncate(x) == whole as real;
  }

  /** A call takes its time off the clock of the player at the table, if there is a limit. If the turn
      passes, that clock is cut to whole seconds. */
  ghost predicate ClockTold(g: Game, shot: GameShot, h: Game) {
    var left := if g.timeLeft == 0.0 then 0.0 else g.timeLeft - shot.timeSpent;
    if h.started == g.started then h.timeLeft == left && h.timeLeftOpp == g.timeLeftOpp
    else h.timeLeft == g.timeLeftOpp && WholePart(left, h.timeLeftOpp)
  }

  /** The sides of a game were switched at most once since its clock was charged. */
  ghost predicate SwitchedOnce(g: Game, h: Game) {
    && (h.switched <==> h.started != g.started)
    && if h.started == g.started then h.timeLeft == g.timeLeft && h.timeLeftOpp == g.timeLeftOpp
       else h.timeLeft == g.timeLeftOpp && h.timeLeftOpp == Truncate(g.timeLeft)
  }

  lemma NotSwitched(g: Game)
    requires !g.switched
    ensures SwitchedOnce(g, g)
  {
  }

  lemma SwitchedVerdict(g: Game, h: Game)
    requires SwitchedOnce(g, h)
    ensures Verdict(h) == if h.started != g.started then OkLostTurn else Ok
  {
    hide Truncate;
  }

  lemma ChargeTold(g: Game, shot: GameShot, h: Game)
    requires SwitchedOnce(Charge(g, shot), h)
    ensures ClockTold(g, shot, h)
  {
    TruncateIs(Charge(g, shot).timeLeft);
    hide Truncate;
  }

  /** The call comes too late. */
  predicate Late(g: Game, shot: GameShot) { g.timeLeft != 0.0 && shot.timeSpent != 0.0 && shot.timeSpent > g.timeLeft }

  lemma LateIs(g: Game, shot: GameShot)
    ensures OutOfTime(g, shot) <==> Late(g, shot)
  {
  }

  /** A limit of 0 is no limit: a player whose turn ends with less than a second left plays on without one. */
  lemma LastSecondUnlimited(g: Game, shot: GameShot)
    requires 0.0 < g.timeLeft < 1.0
    ensures var again := SwitchSides(SwitchSides(g));
      again.started == g.started && again.timeLeft == 0.0 && !Late(again, shot) && !OutOfTime(again, shot)
  {
    TruncateIs(g.timeLeft);
    hide Truncate;
    assert Truncate(g.timeLeft).Floor == 0;
  }

  // ---------------------------------------------------------------- from the physics

  /** Which balls a complete shot leaves on the table. */
  lemma OnTableAfter(before: seq<Ball>, after: seq<Ball>, log: seq<Record>, b: BallId)
    requires Told(before, after, log) && RealIds(before) && Find(before, b) < |before|
    ensures Find(after, b) == Find(before, b)
    ensures OnTable(before, b) <==> OnTable(after, b) || PocketedBy(log, |log|, b)
    ensures !(OnTable(after, b) && PocketedBy(log, |log|, b))
    ensures Get(after, b).IsPocketed() && !PocketedBy(log, |log|, b) <==> Get(before, b).IsPocketed()
  {
    var i := Find(before, b);
    SameIdsFind(before, after, b);
    PocketCountZero(log, b);
    OnTableGet(before, b);
    OnTableGet(after, b);
    assert Settles(before[i], PocketCount(log, before[i].id), after[i]);
  }

  /** A complete shot leaves a full table at rest. */
  lemma TableAfter(w: World, balls: seq<Ball>, sp: ShotParams, n: nat)
    requires Lawful(w) && Full(balls, n) && AtRest(balls) && OnTable(balls, CUE)
    requires Simulate(w, balls, sp, true).Finished?
    ensures var end := Simulate(w, balls, sp, true).sim;
      Told(balls, end.balls, end.log) && Full(end.balls, n) && AtRest(end.balls)
  {
    hide Simulate, Lawful;
    ShotTold(w, balls, sp);
    var after := Simulate(w, balls, sp, true).sim.balls;
    forall id: BallId | id < n
      ensures Find(after, id) < |after|
    {
      SameIdsFind(balls, after, id);
    }
  }

  /** The table a shot is played on. */
  function Aimed(balls: seq<Ball>, code: Code, shot: GameShot): seq<Ball> {
    if code.PlaceCue? then Place(balls, CUE, shot.cue) else balls
  }

  lemma AimedReady(balls: seq<Ball>, code: Code, shot: GameShot, n: nat)
    requires Full(balls, n) && AtRest(balls) && (!code.PlaceCue? ==> OnTable(balls, CUE))
    ensures var aimed := Aimed(balls, code, shot);
      && Full(aimed, n) && AtRest(aimed) && Ready(aimed)
      && forall id: BallId :: id != CUE ==> (OnTable(aimed, id) <==> OnTable(balls, id))
  {
    hide Place;
    PlaceKeeps(balls, CUE, shot.cue, n);
  }

  /** A call of `executeShot` and the draws it met with. */
  datatype Move = Move(shot: GameShot, chance: Chance)

  /** What a call of `executeShot` gives its caller: an answer, or an exception. */
  datatype Outcome = Returned(result: ShotResult) | Threw

  /** An execution seen by the caller. */
  ghost predicate Answers<S>(e: Execution<S>, outcome: Outcome, after: S) {
    match e
    case Executed(t, r) => outcome == Returned(r) && after == t
    case Interrupted(t) => outcome == Returned(ShotImpossible) && after == t
    case Escaped => outcome.Threw?
  }

  lemma StrikeLeads(before: seq<Ball>, after: seq<Ball>, log: seq<Record>)
    requires Told(before, after, log)
    ensures log != [] && log[0].event.kind.CueStrike?
  {
    hide Accounted;
  }
}
