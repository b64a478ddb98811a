/** The rules of nine-ball (`NineBallState`) as functions of the state, and what they keep over
    whole games. `NineBallStates` runs them in place. */
module NineBall {
  import opened Wrappers
  import opened Vectors
  import opened Balls
  import opened Events
  import opened Kinematics
  import opened Scheduling
  import opened SchedulerLaws
  import opened SchedulerInvariants
  import opened ShotStory
  import opened Overlapping
  import opened Spotting
  import opened Games

  datatype Nine = Nine(balls: seq<Ball>, game: Game, fouls: int, oppFouls: int)

  const BALLS: nat := 10

  function SwitchNine(s: Nine): Nine { s.(game := SwitchSides(s.game), fouls := s.oppFouls, oppFouls := s.fouls) }

  function Turned(s: Nine, turn: Turn): Nine { s.(game := s.game.(turn := turn)) }

  function At(id: BallId, x: real, y: real): Spot { Spot(id, Point(x, y)) }

  /** The diamond of `NineBallState::rack`. */
  function NineSpots(env: Env): seq<Spot> {
    var x, y := env.table.FootSpot().x, env.table.FootSpot().y;
    var dy := BALL_RADIUS * env.root(3.0) * 1.00005;
    var dx := BALL_RADIUS * 1.00005;
    [At(CUE, env.table.width / 2.0, env.table.HeadString()), At(1, x, y),
     At(2, x - dx, y - dy), At(3, x + dx, y - dy),
     At(4, x - dx * 2.0, y - dy * 2.0), At(9, x, y - dy * 2.0), At(5, x + dx * 2.0, y - dy * 2.0),
     At(6, x + dx, y - dy * 3.0), At(7, x - dx, y - dy * 3.0),
     At(8, x, y - dy * 4.0)]
  }

  /** The constructor. */
  function NewNine(env: Env, timeLeft: real, timeLeftOpp: real, noise: BallId -> Point): Nine {
    Nine(Racked([], NineSpots(env), noise), Game(Break, timeLeft, timeLeftOpp, true, false), 0, 0)
  }

  /** `NineBallState::preProcess`. It throws for a turn no nine-ball game is in. */
  function PreNine(env: Env, s: Nine, shot: GameShot): Prepared<Nine> {
    if shot.decision.Concede? then Prepared(NoExecute, Turned(SwitchNine(s), Win))
    else match s.game.turn
      case PushOut =>
        if shot.decision.KeepShooting? then Prepared(NoExecute, Turned(s, Normal))
        else if shot.decision.DeclarePushOut? then Prepared(NoExecute, Turned(SwitchNine(s), Normal))
        else Prepared(Rejected, s)
      case Break =>
        Prepared(if shot.cue.y < env.table.HeadString() || !shot.decision.NoDecision? then Rejected else PlaceCue, s)
      case BallInHand => Prepared(if shot.decision.NoDecision? then PlaceCue else Rejected, s)
      case Normal => Prepared(if shot.decision.NoDecision? then Execute else Rejected, s)
      case FirstShot => Prepared(Execute, s)
      case _ => PreThrew
  }

  // ---------------------------------------------------------------- judging a shot

  /** The first ball of ONE to EIGHT, from `b` on, that is in play; NINE if there is none. */
  function LowestFrom(balls: seq<Ball>, b: BallId): BallId
    requires 1 <= b <= NINE
    decreases NINE - b
  {
    if b == NINE || Get(balls, b).InPlay() then b else LowestFrom(balls, b + 1)
  }

  function LowestInPlay(balls: seq<Ball>): BallId { LowestFrom(balls, ONE) }

  /** The lowest of `start` and the object balls pocketed by entry `n`. */
  function LowestPocketed(log: seq<Record>, n: nat, start: BallId): BallId
    requires n <= |log|
  {
    if n == 0 then start
    else
      var least := LowestPocketed(log, n - 1, start);
      var e := log[n - 1].event;
      if e.kind.Pocketed? && e.ball1 != CUE && e.ball1 < least then e.ball1 else least
  }

  /** The object ball of the first collision by entry `n`, or UNKNOWN_ID. */
  function FirstObject(log: seq<Record>, n: nat): BallId
    requires n <= |log|
  {
    if n == 0 then UNKNOWN_ID
    else if FirstObject(log, n - 1) == UNKNOWN_ID then log[n - 1].event.Ball2() else FirstObject(log, n - 1)
  }

  /** Rails that count for the shot: of object balls on the break, else after the first contact. */
  predicate RailCounts(s: Nine, log: seq<Record>, k: nat)
    requires k < |log|
  {
    var e := log[k].event;
    e.kind.RailCollision? && if s.game.turn.Break? then e.ball1 != CUE else FirstObject(log, k) != UNKNOWN_ID
  }

  function Rails(s: Nine, log: seq<Record>, n: nat): nat
    requires n <= |log|
  {
    if n == 0 then 0 else Rails(s, log, n - 1) + (if RailCounts(s, log, n - 1) then 1 else 0)
  }

  /** Balls pocketed to the shooter's credit; none on a push out. */
  function Credit(log: seq<Record>, shot: GameShot): nat {
    if shot.decision.DeclarePushOut? then 0 else Tally(log, |log|, ObjectPocketed)
  }

  /** The referee's decision, `lowest` being the ball that had to be hit first. */
  ghost predicate FoulNine(s: Nine, log: seq<Record>, shot: GameShot, lowest: BallId) {
    || PocketedBy(log, |log|, CUE)
    || (!shot.decision.DeclarePushOut?
        && (FirstObject(log, |log|) != lowest
            || (Rails(s, log, |log|) < (if s.game.turn.Break? then 4 else 1) && Credit(log, shot) == 0)))
  }

  /** The lowest ball as the code finds it: from the table after the shot and the events. */
  function LowestBall(s: Nine, log: seq<Record>): BallId { LowestPocketed(log, |log|, LowestInPlay(s.balls)) }

  /** The state when the sides and the foul counters have been settled. */
  ghost function Settle(s: Nine, log: seq<Record>, shot: GameShot): Nine {
    var foul := FoulNine(s, log, shot, LowestBall(s, log));
    var counted := if foul then s else s.(fouls := 0);
    if Credit(log, shot) > 0 && !foul then counted else SwitchNine(counted)
  }

  /** The turn that follows, once the nine has been spotted if it must be. */
  ghost function NextTurn(s: Nine, t: Nine, log: seq<Record>, shot: GameShot): Nine {
    if FoulNine(s, log, shot, LowestBall(s, log)) then
      Turned(t.(oppFouls := t.oppFouls + 1), if t.oppFouls + 1 == 3 then Win else BallInHand)
    else if PocketedBy(log, |log|, NINE) && Credit(log, shot) > 0 then Turned(t, Win)
    else if s.game.turn.Break? then Turned(t, FirstShot)
    else if shot.decision.DeclarePushOut? then Turned(t, PushOut)
    else Turned(t, Normal)
  }

  /** `processShot`; none when `spotBall` does not return normally. */
  ghost function JudgeNine(env: Env, s: Nine, log: seq<Record>, shot: GameShot, chance: Chance): Option<Nine> {
    var t := Settle(s, log, shot);
    var keep := Credit(log, shot) > 0 && !FoulNine(s, log, shot, LowestBall(s, log));
    if PocketedBy(log, |log|, NINE) && !keep then
      var spotted := Spotting.Spot(env, s.balls, NINE, chance.spot);
      if spotted.Spotted? then Some(NextTurn(s, t.(balls := spotted.balls), log, shot)) else None
    else Some(NextTurn(s, t, log, shot))
  }

  // ---------------------------------------------------------------- executing a shot

  ghost function PlayNine(env: Env, w: World, s: Nine, code: Code, shot: GameShot, chance: Chance): Execution<Nine> {
    var aimed := Aimed(s.balls, code, shot);
    match Simulate(w, aimed, shot.params, true)
    case Refused => Executed(s.(balls := aimed), ShotImpossible)
    case Failed(balls) => Interrupted(s.(balls := balls))
    case Raised(_) => Escaped
    case Finished(sim) =>
      if sim.log == [] then Escaped
      else if !sim.log[0].event.kind.CueStrike? then Interrupted(s.(balls := sim.balls))
      else
        var judged := JudgeNine(env, s.(balls := sim.balls), sim.log, shot, chance);
        if judged.None? then Escaped else Executed(judged.value, Verdict(judged.value.game))
  }

  /** `GameState::executeShot` of a nine-ball game. */
  ghost function ExecuteNine(env: Env, w: World, s: Nine, shot: GameShot, chance: Chance): Execution<Nine> {
    var charged := s.(game := Charge(s.game, shot));
    if OutOfTime(s.game, shot) then Executed(charged, Timeout)
    else
      match PreNine(env, charged, shot)
      case PreThrew => Escaped
      case Prepared(code, t) =>
        if code.Rejected? then Executed(t, BadParams)
        else if code.NoExecute? then Executed(t, Verdict(t.game))
        else PlayNine(env, w, t, code, shot, chance)
  }

  // ---------------------------------------------------------------- what every game keeps

  predicate NineTurn(turn: Turn) {
    turn.Normal? || turn.BallInHand? || turn.Break? || turn.Win? || turn.FirstShot? || turn.PushOut?
  }

  ghost predicate NineInv(s: Nine) {
    && NineTurn(s.game.turn)
    && Full(s.balls, BALLS) && AtRest(s.balls)
    && (s.game.turn.Normal? || s.game.turn.FirstShot? || s.game.turn.PushOut? ==> OnTable(s.balls, CUE))
    && (!s.game.turn.Win? ==> OnTable(s.balls, NINE) && 0 <= s.fouls <= 2 && 0 <= s.oppFouls <= 2)
  }

  /** `NineBallState::shotRequired`. */
  predicate ShotRequired(turn: Turn) { !turn.Win? && !turn.PushOut? }

  /** What the header's predicates announce is what `preProcess` does: the cue ball is placed exactly
      where a position is required, and only where no shot is required does a decision suffice. */
  lemma NineAnnounced(env: Env, s: Nine, shot: GameShot)
    requires NineTurn(s.game.turn) && !s.game.turn.Win? && PreNine(env, s, shot).Prepared?
    ensures var code := PreNine(env, s, shot).code;
      && (code.PlaceCue? ==> PositionRequired(s.game.turn) && ShotRequired(s.game.turn))
      && (code.Execute? ==> !PositionRequired(s.game.turn) && ShotRequired(s.game.turn))
      && (code.NoExecute? ==> !ShotRequired(s.game.turn) || shot.decision.Concede?)
  {
    hide Truncate;
  }

  predicate ShotTurn(turn: Turn) { turn.Break? || turn.Normal? || turn.BallInHand? || turn.FirstShot? }

  lemma NineRacked(env: Env, noise: BallId -> Point)
    ensures var racked := Racked([], NineSpots(env), noise);
      Full(racked, BALLS) && AtRest(racked) && OnTable(racked, CUE) && OnTable(racked, NINE)
  {
    hide Racked;
    var spots := NineSpots(env);
    var order := [0, 1, 2, 3, 4, 9, 5, 6, 7, 8];
    assert forall k :: 0 <= k < |spots| ==> spots[k].id == order[k];
    forall id: BallId | id < BALLS
      ensures Listed(spots, id)
    {
      var k := if id == 9 then 5 else if id >= 5 then id + 1 else id;
      assert spots[k].id == id;
    }
    RackedTable([], spots, noise, BALLS);
  }

  lemma NewNineInv(env: Env, timeLeft: real, timeLeftOpp: real, noise: BallId -> Point)
    ensures NineInv(NewNine(env, timeLeft, timeLeftOpp, noise))
  {
    hide Racked, NineSpots;
    NineRacked(env, noise);
  }

  /** Whatever the player decides or asks for keeps the invariant, and a shot that gets to the
      physics is one of a shot turn. */
  lemma PreNineKeeps(env: Env, s: Nine, shot: GameShot)
    requires NineInv(s) && PreNine(env, s, shot).Prepared?
    ensures var p := PreNine(env, s, shot);
      && NineInv(p.state)
      && (p.code.Rejected? ==> p.state == s)
      && (p.code.Execute? || p.code.PlaceCue? ==>
            p.state == s && ShotTurn(s.game.turn) && (!p.code.PlaceCue? ==> OnTable(s.balls, CUE)))
  {
    hide Full, AtRest, OnTable, Truncate;
  }

  /** What the referee finds. */
  ghost predicate Played(s: Nine, log: seq<Record>) {
    && Full(s.balls, BALLS) && AtRest(s.balls)
    && (OnTable(s.balls, CUE) <==> !PocketedBy(log, |log|, CUE))
    && (OnTable(s.balls, NINE) <==> !PocketedBy(log, |log|, NINE))
  }

  lemma SpottedNine(env: Env, s: Nine, chance: Chance)
    requires Full(s.balls, BALLS) && AtRest(s.balls) && Spotting.Spot(env, s.balls, NINE, chance.spot).Spotted?
    ensures var balls := Spotting.Spot(env, s.balls, NINE, chance.spot).balls;
      && Full(balls, BALLS) && AtRest(balls) && OnTable(balls, NINE)
      && (OnTable(balls, CUE) <==> OnTable(s.balls, CUE))
  {
    hide Spotting.Spot, Overlaps;
    SpotClear(env, s.balls, NINE, chance.spot);
    MovedKeeps(s.balls, Spotting.Spot(env, s.balls, NINE, chance.spot).balls, NINE, BALLS);
  }

  lemma JudgeKeeps(env: Env, s: Nine, log: seq<Record>, shot: GameShot, chance: Chance)
    requires Played(s, log) && 0 <= s.fouls <= 2 && 0 <= s.oppFouls <= 2
    requires JudgeNine(env, s, log, shot, chance).Some?
    ensures NineInv(JudgeNine(env, s, log, shot, chance).value)
  {
    hide Full, AtRest, OnTable, PocketedBy, Spotting.Spot, Truncate, FirstObject, Rails, LowestBall, Credit;
    if Spotting.Spot(env, s.balls, NINE, chance.spot).Spotted? {
      SpottedNine(env, s, chance);
    }
  }

  /** A shot that returns from the physics is judged in a state the referee can rely on. */
  lemma PlayFinished(env: Env, w: World, s: Nine, code: Code, shot: GameShot, chance: Chance)
    requires Lawful(w) && NineInv(s) && ShotTurn(s.game.turn) && (!code.PlaceCue? ==> OnTable(s.balls, CUE))
    requires Simulate(w, Aimed(s.balls, code, shot), shot.params, true).Finished?
    ensures var aimed := Aimed(s.balls, code, shot);
      var sim := Simulate(w, aimed, shot.params, true).sim;
      && Full(aimed, BALLS) && Told(aimed, sim.balls, sim.log) && Played(s.(balls := sim.balls), sim.log)
      && PlayNine(env, w, s, code, shot, chance)
         == var judged := JudgeNine(env, s.(balls := sim.balls), sim.log, shot, chance);
            if judged.None? then Escaped else Executed(judged.value, Verdict(judged.value.game))
  {
    AimedReady(s.balls, code, shot, BALLS);
    var aimed := Aimed(s.balls, code, shot);
    assert OnTable(aimed, CUE) && OnTable(aimed, NINE);
    hide Simulate, Lawful, Aimed, JudgeNine, Ready, NineInv;
    Witnessed(w, s, aimed, shot.params);
    hide Told, Played, Full, AtRest, OnTable;
  }

  lemma Witnessed(w: World, s: Nine, aimed: seq<Ball>, sp: ShotParams)
    requires Lawful(w) && Full(aimed, BALLS) && AtRest(aimed) && OnTable(aimed, CUE) && OnTable(aimed, NINE)
    requires Simulate(w, aimed, sp, true).Finished?
    ensures var sim := Simulate(w, aimed, sp, true).sim;
      && Told(aimed, sim.balls, sim.log)
      && sim.log != [] && sim.log[0].event.kind.CueStrike?
      && Played(s.(balls := sim.balls), sim.log)
  {
    TableAfter(w, aimed, sp, BALLS);
    hide Simulate, Lawful;
    var sim := Simulate(w, aimed, sp, true).sim;
    OnTableAfter(aimed, sim.balls, sim.log, CUE);
    OnTableAfter(aimed, sim.balls, sim.log, NINE);
  }

  /** A refused shot leaves the cue ball where it was placed. */
  lemma PlayRefused(env: Env, w: World, s: Nine, code: Code, shot: GameShot, chance: Chance)
    requires !Simulate(w, Aimed(s.balls, code, shot), shot.params, true).Finished?
    ensures var aimed := Aimed(s.balls, code, shot);
      var r := Simulate(w, aimed, shot.params, true);
      && (r.Refused? ==> PlayNine(env, w, s, code, shot, chance) == Executed(s.(balls := aimed), ShotImpossible))
      && (!r.Refused? ==> !PlayNine(env, w, s, code, shot, chance).Executed?)
  {
    hide Simulate, Aimed, JudgeNine;
  }

  /** A shot keeps the invariant, whether it is played or refused. */
  lemma PlayKeeps(env: Env, w: World, s: Nine, code: Code, shot: GameShot, chance: Chance)
    requires Lawful(w) && NineInv(s) && ShotTurn(s.game.turn) && (!code.PlaceCue? ==> OnTable(s.balls, CUE))
    requires PlayNine(env, w, s, code, shot, chance).Executed?
    ensures NineInv(PlayNine(env, w, s, code, shot, chance).state)
  {
    AimedReady(s.balls, code, shot, BALLS);
    hide Simulate, Lawful, Aimed, JudgeNine, PlayNine, Full, AtRest, OnTable, Told, Ready, Played;
    var sim := Simulate(w, Aimed(s.balls, code, shot), shot.params, true);
    if !sim.Finished? {
      PlayRefused(env, w, s, code, shot, chance);
    } else {
      PlayFinished(env, w, s, code, shot, chance);
      JudgeKeeps(env, s.(balls := sim.sim.balls), sim.sim.log, shot, chance);
    }
  }

  /** The physics is called in exactly these cases. */
  ghost predicate Shoots(env: Env, s: Nine, shot: GameShot) {
    && !OutOfTime(s.game, shot)
    && var p := PreNine(env, s.(game := Charge(s.game, shot)), shot);
       p.Prepared? && (p.code.Execute? || p.code.PlaceCue?)
  }

  /** The table it is called on. */
  ghost function ShotTable(env: Env, s: Nine, shot: GameShot): seq<Ball>
    requires Shoots(env, s, shot)
  {
    Aimed(s.balls, PreNine(env, s.(game := Charge(s.game, shot)), shot).code, shot)
  }

  lemma ChargedInv(s: Nine, shot: GameShot)
    requires NineInv(s)
    ensures NineInv(s.(game := Charge(s.game, shot)))
  {
    hide Full, AtRest, OnTable;
  }

  /** One call of `executeShot` in a game that is not over keeps the invariant, and calls the
      physics only on tables it accepts. */
  lemma NineStep(env: Env, w: World, s: Nine, shot: GameShot, chance: Chance)
    requires Lawful(w) && NineInv(s) && !s.game.turn.Win?
    ensures Shoots(env, s, shot) ==> Ready(ShotTable(env, s, shot))
    ensures ExecuteNine(env, w, s, shot, chance).Executed? ==> NineInv(ExecuteNine(env, w, s, shot, chance).state)
  {
    ChargedInv(s, shot);
    var charged := s.(game := Charge(s.game, shot));
    hide Lawful, NineInv, PlayNine, PreNine, Aimed, Ready;
    if PreNine(env, charged, shot).Prepared? {
      PreNineKeeps(env, charged, shot);
      var p := PreNine(env, charged, shot);
      if p.code.Execute? || p.code.PlaceCue? {
        AimedReady(charged.balls, p.code, shot, BALLS);
        if PlayNine(env, w, charged, p.code, shot, chance).Executed? {
          PlayKeeps(env, w, charged, p.code, shot, chance);
        }
      }
    }
  }
}
