/** The rules of eight-ball (`EightBallState`) as functions of the state, and what they keep over
    whole games. `EightBallGames` runs them in place. */
module EightBall {
  import opened Wrappers
  import opened Vectors
  import opened Balls
  import opened Events
  import opened Kinematics
  import opened Scheduling
  import opened SchedulerLaws
  import opened SchedulerInvariants
  import opened ShotStory
  import opened Overlapping
  import opened Spotting
  import opened Games

  datatype Eight = Eight(balls: seq<Ball>, game: Game, openTable: bool, solids: bool)

  const BALLS: nat := 16

  function SwitchEight(s: Eight): Eight { s.(game := SwitchSides(s.game), solids := !s.solids) }

  function Turned(s: Eight, turn: Turn): Eight { s.(game := s.game.(turn := turn)) }

  function At(id: BallId, x: real, y: real): Spot { Spot(id, Point(x, y)) }

  /** The triangle of `EightBallState::rack`. */
  function EightSpots(env: Env): seq<Spot> {
    var x, y := env.table.FootSpot().x, env.table.FootSpot().y;
    var dy := BALL_RADIUS * env.root(3.0) * 1.00005;
    var dx := BALL_RADIUS * 1.00005;
    [At(CUE, env.table.width / 2.0, env.table.HeadString()), At(1, x, y),
     At(2, x - dx, y - dy), At(3, x + dx, y - dy),
     At(4, x - dx * 2.0, y - dy * 2.0), At(5, x, y - dy * 2.0), At(6, x + dx * 2.0, y - dy * 2.0),
     At(7, x - dx * 3.0, y - dy * 3.0), At(8, x - dx, y - dy * 3.0), At(9, x + dx, y - dy * 3.0), At(10, x + dx * 3.0, y - dy * 3.0),
     At(11, x - dx * 4.0, y - dy * 4.0), At(12, x - dx * 2.0, y - dy * 4.0), At(13, x, y - dy * 4.0),
     At(14, x + dx * 2.0, y - dy * 4.0), At(15, x + dx * 4.0, y - dy * 4.0)]
  }

  /** A re-rack for the break, or the exception of `addNoise`. */
  function RerackEight(env: Env, s: Eight, chance: Chance): Prepared<Eight> {
    if chance.rack.None? then PreThrew
    else Prepared(NoExecute, Turned(s.(balls := Racked(s.balls, EightSpots(env), chance.rack.value)), Break))
  }

  /** The constructor. */
  function NewEight(env: Env, timeLeft: real, timeLeftOpp: real, noise: BallId -> Point): Eight {
    Eight(Racked([], EightSpots(env), noise), Game(Break, timeLeft, timeLeftOpp, true, false), true, true)
  }

  /** The checks on the call of a shot. */
  predicate CallInRange(shot: GameShot) { CUE <= shot.ball <= UNKNOWN_ID && SW <= shot.pocket <= UNKNOWN_POCKET }

  /** `EightBallState::preProcess`. It throws for a turn no eight-ball game is in. */
  function PreEight(env: Env, s: Eight, shot: GameShot, chance: Chance): Prepared<Eight> {
    if shot.decision.Concede? then Prepared(NoExecute, Turned(SwitchEight(s), Win))
    else match s.game.turn
      case FoulOnBreak =>
        if shot.decision.RerackOppShoot? then RerackEight(env, SwitchEight(s), chance)
        else if shot.decision.Rerack? then RerackEight(env, s, chance)
        else if shot.decision.KeepShooting? then Prepared(NoExecute, Turned(s, BehindLine))
        else Prepared(Rejected, s)
      case EightOnBreak =>
        if shot.decision.Rerack? then RerackEight(env, s, chance)
        else if shot.decision.KeepShooting? then
          Prepared(NoExecute, Turned(s, if Get(s.balls, CUE).InPlay() then Normal else BehindLine))
        else Prepared(Rejected, s)
      case Break =>
        Prepared(if shot.cue.y < env.table.HeadString() then Rejected else PlaceCue, s)
      case BehindLine =>
        Prepared(if shot.cue.y < env.table.HeadString() || !CallInRange(shot) then Rejected else PlaceCue, s)
      case BallInHand => Prepared(if CallInRange(shot) then PlaceCue else Rejected, s)
      case Normal => Prepared(if CallInRange(shot) then Execute else Rejected, s)
      case _ => PreThrew
  }

  // ---------------------------------------------------------------- judging a shot

  /** The seven balls of a group. */
  predicate InGroup(solids: bool, id: int) { if solids then 1 <= id <= 7 else 9 <= id <= 15 }

  ghost predicate GroupDown(balls: seq<Ball>, solids: bool) {
    forall id: BallId :: InGroup(solids, id) ==> Get(balls, id).IsPocketed()
  }

  ghost predicate GroupPocketed(log: seq<Record>, n: nat, solids: bool)
    requires n <= |log|
  {
    exists k :: 0 <= k < n && log[k].event.kind.Pocketed? && InGroup(solids, log[k].event.ball1)
  }

  /** The called ball falls into the called pocket. */
  predicate Called(e: Event, shot: GameShot) { e.kind.Pocketed? && e.ball1 == shot.ball && e.kind.pocket == shot.pocket }

  /** All seven of the shooter's balls were down by entry `n`, as the code reckons it. */
  ghost predicate AllSunk(s: Eight, log: seq<Record>, n: nat)
    requires n <= |log|
  {
    !s.openTable && GroupDown(s.balls, s.solids) && !GroupPocketed(log, n, s.solids)
  }

  ghost predicate LegalAt(s: Eight, log: seq<Record>, k: nat, shot: GameShot)
    requires k < |log|
  {
    var e := log[k].event;
    && Called(e, shot)
    && (InGroup(s.solids, e.ball1) || (s.openTable && InGroup(!s.solids, e.ball1)) || (e.ball1 == EIGHT && AllSunk(s, log, k)))
  }

  ghost predicate LegalBy(s: Eight, log: seq<Record>, n: nat, shot: GameShot)
    requires n <= |log|
  {
    exists k :: 0 <= k < n && LegalAt(s, log, k, shot)
  }

  /** After this event its first ball lies past the head string. */
  predicate Beyond(env: Env, r: Record) { r.data1.Some? && r.data1.value.r.y > env.table.HeadString() }

  /** Some ball got past the head string no later than the first contact. */
  ghost predicate PastHeadString(env: Env, log: seq<Record>, n: nat)
    requires n <= |log|
  {
    exists k :: 1 <= k < n && !ContactBy(log, k) && Beyond(env, log[k])
  }

  /** The fouls other than pocketing the cue ball. */
  ghost predicate FoulPlay(env: Env, s: Eight, log: seq<Record>, shot: GameShot) {
    var n := |log|;
    var first := FirstBall(log, n, CUE);
    || !ContactBy(log, n)
    || (!RailAfterContact(log, n) && !LegalBy(s, log, n, shot))
    || (s.game.turn.BehindLine? && !PastHeadString(env, log, n))
    || (!s.openTable && !AllSunk(s, log, n) && !InGroup(s.solids, first))
    || (AllSunk(s, log, n) && first != EIGHT)
  }

  /** `processShot` on any shot but the break; `s` is the state with the table after the shot. */
  ghost function JudgeShot(env: Env, s: Eight, log: seq<Record>, shot: GameShot): Eight {
    var n := |log|;
    var scratch := PocketedBy(log, n, CUE);
    var foul := FoulPlay(env, s, log, shot);
    if PocketedBy(log, n, EIGHT) then
      Turned(if !AllSunk(s, log, n) || scratch || foul then SwitchEight(s) else s, Win)
    else if scratch || foul then Turned(SwitchEight(s), BallInHand)
    else if LegalBy(s, log, n, shot) then
      Turned(if s.openTable then s.(openTable := false, solids := shot.ball < EIGHT) else s, Normal)
    else Turned(SwitchEight(s), Normal)
  }

  /** `processShot` on the break; none when `spotBall` does not return normally. */
  ghost function JudgeBreak(env: Env, s: Eight, log: seq<Record>, chance: Chance): Option<Eight> {
    var n := |log|;
    var open := s.(openTable := true);
    var scratch := PocketedBy(log, n, CUE);
    if PocketedBy(log, n, EIGHT) then
      var spotted := Spotting.Spot(env, s.balls, EIGHT, chance.spot);
      if spotted.Spotted? then Some(Turned((if scratch then SwitchEight(open) else open).(balls := spotted.balls), EightOnBreak)) else None
    else if scratch then Some(Turned(SwitchEight(open), BehindLine))
    else if Tally(log, n, AnyRail) > 3 || Tally(log, n, ObjectPocketed) > 0 then Some(Turned(open, Normal))
    else Some(Turned(SwitchEight(open), FoulOnBreak))
  }

  ghost function ProcessEight(env: Env, s: Eight, log: seq<Record>, shot: GameShot, chance: Chance): Option<Eight> {
    match s.game.turn
    case Break => JudgeBreak(env, s, log, chance)
    case Normal => Some(JudgeShot(env, s, log, shot))
    case BallInHand => Some(JudgeShot(env, s, log, shot))
    case BehindLine => Some(JudgeShot(env, s, log, shot))
    case _ => None
  }

  // ---------------------------------------------------------------- executing a shot

  ghost function PlayEight(env: Env, w: World, s: Eight, code: Code, shot: GameShot, chance: Chance): Execution<Eight> {
    var aimed := Aimed(s.balls, code, shot);
    match Simulate(w, aimed, shot.params, true)
    case Refused => Executed(s.(balls := aimed), ShotImpossible)
    case Failed(balls) => Interrupted(s.(balls := balls))
    case Raised(_) => Escaped
    case Finished(sim) =>
      if sim.log == [] then Escaped
      else if !sim.log[0].event.kind.CueStrike? then Interrupted(s.(balls := sim.balls))
      else
        var judged := ProcessEight(env, s.(balls := sim.balls), sim.log, shot, chance);
        if judged.None? then Escaped else Executed(judged.value, Verdict(judged.value.game))
  }

  /** `GameState::executeShot` of an eight-ball game. */
  ghost function ExecuteEight(env: Env, w: World, s: Eight, shot: GameShot, chance: Chance): Execution<Eight> {
    var charged := s.(game := Charge(s.game, shot));
    if OutOfTime(s.game, shot) then Executed(charged, Timeout)
    else
      match PreEight(env, charged, shot, chance)
      case PreThrew => Escaped
      case Prepared(code, t) =>
        if code.Rejected? then Executed(t, BadParams)
        else if code.NoExecute? then Executed(t, Verdict(t.game))
        else PlayEight(env, w, t, code, shot, chance)
  }

  // ---------------------------------------------------------------- what every game keeps

  /** The turns an eight-ball game can be in; the decision after the break, and the break, need
      an open table. */
  ghost predicate EightTurn(s: Eight) {
    && !s.game.turn.FirstShot? && !s.game.turn.PushOut?
    && (s.game.turn.Break? || s.game.turn.FoulOnBreak? || s.game.turn.EightOnBreak? ==> s.openTable)
  }

  ghost predicate EightInv(s: Eight) {
    && EightTurn(s)
    && Full(s.balls, BALLS) && AtRest(s.balls)
    && (s.game.turn.Normal? ==> OnTable(s.balls, CUE))
    && (!s.game.turn.Win? ==> OnTable(s.balls, EIGHT))
  }

  lemma EightListed(env: Env, id: BallId)
    requires id < BALLS
    ensures Listed(EightSpots(env), id)
  {
    assert EightSpots(env)[id].id == id;
  }

  lemma EightRacked(env: Env, balls: seq<Ball>, noise: BallId -> Point)
    requires RealIds(balls) && AtRest(balls)
    ensures var racked := Racked(balls, EightSpots(env), noise);
      Full(racked, BALLS) && AtRest(racked) && OnTable(racked, CUE) && OnTable(racked, EIGHT)
  {
    hide Racked;
    forall id: BallId | id < BALLS
      ensures Listed(EightSpots(env), id)
    {
      EightListed(env, id);
    }
    var spots := EightSpots(env);
    assert forall k :: 0 <= k < |spots| ==> spots[k].id == k;
    RackedTable(balls, spots, noise, BALLS);
  }

  lemma NewEightInv(env: Env, timeLeft: real, timeLeftOpp: real, noise: BallId -> Point)
    ensures EightInv(NewEight(env, timeLeft, timeLeftOpp, noise))
  {
    hide Racked, EightSpots;
    EightRacked(env, [], noise);
  }

  lemma RerackKeeps(env: Env, s: Eight, chance: Chance)
    requires EightInv(s) && s.openTable && RerackEight(env, s, chance).Prepared?
    ensures EightInv(RerackEight(env, s, chance).state)
  {
    assert RealIds(s.balls);
    hide Racked, EightSpots, Full;
    EightRacked(env, s.balls, chance.rack.value);
  }

  /** `EightBallState::shotRequired`. */
  predicate ShotRequired(turn: Turn) { !turn.Win? && !turn.EightOnBreak? && !turn.FoulOnBreak? }

  /** What the header's predicates announce is what `preProcess` does: the cue ball is placed exactly
      where a position is required, and only where no shot is required does a decision suffice. */
  lemma EightAnnounced(env: Env, s: Eight, shot: GameShot, chance: Chance)
    requires EightTurn(s) && !s.game.turn.Win? && PreEight(env, s, shot, chance).Prepared?
    ensures var code := PreEight(env, s, shot, chance).code;
      && (code.PlaceCue? ==> PositionRequired(s.game.turn) && ShotRequired(s.game.turn))
      && (code.Execute? ==> !PositionRequired(s.game.turn) && ShotRequired(s.game.turn))
      && (code.NoExecute? ==> !ShotRequired(s.game.turn) || shot.decision.Concede?)
  {
    hide Racked, EightSpots, Truncate, Get;
  }

  predicate ShotTurn(turn: Turn) { turn.Break? || turn.Normal? || turn.BallInHand? || turn.BehindLine? }

  lemma SameTable(s: Eight, t: Eight)
    requires EightInv(s) && !s.game.turn.Win? && t.balls == s.balls && EightTurn(t)
    requires t.game.turn.Normal? ==> OnTable(s.balls, CUE)
    ensures EightInv(t)
  {
    hide Full, AtRest, OnTable;
  }

  /** Whatever the player decides or asks for keeps the invariant. */
  lemma PreEightInv(env: Env, s: Eight, shot: GameShot, chance: Chance)
    requires EightInv(s) && !s.game.turn.Win? && PreEight(env, s, shot, chance).Prepared?
    ensures EightInv(PreEight(env, s, shot, chance).state)
  {
    assert UniqueIds(s.balls);
    OnTableGet(s.balls, CUE);
    var t := PreEight(env, s, shot, chance).state;
    hide RerackEight, EightInv, OnTable, Get, Truncate;
    if shot.decision.Concede? {
      SameTable(s, t);
    } else if s.game.turn.FoulOnBreak? || s.game.turn.EightOnBreak? {
      Opened(s);
      if shot.decision.KeepShooting? {
        SameTable(s, t);
      } else {
        SameTable(s, SwitchEight(s));
        RerackCode(env, s, chance);
        RerackCode(env, SwitchEight(s), chance);
      }
    }
  }

  lemma Opened(s: Eight)
    requires EightInv(s)
    ensures s.game.turn.FoulOnBreak? || s.game.turn.EightOnBreak? ==> s.openTable && EightTurn(s)
  {
    hide Full, AtRest, OnTable;
  }

  /** A shot that gets to the physics is one of a shot turn, and leaves the state as it was. */
  lemma PreEightShoots(env: Env, s: Eight, shot: GameShot, chance: Chance)
    requires EightInv(s) && PreEight(env, s, shot, chance).Prepared?
    ensures var p := PreEight(env, s, shot, chance);
      p.code.Execute? || p.code.PlaceCue? ==>
        p.state == s && ShotTurn(s.game.turn) && (!p.code.PlaceCue? ==> OnTable(s.balls, CUE))
  {
    hide RerackEight, Full, AtRest, OnTable, Get;
    if s.game.turn.FoulOnBreak? || s.game.turn.EightOnBreak? {
      RerackCode(env, s, chance);
      SameTable(s, SwitchEight(s));
      RerackCode(env, SwitchEight(s), chance);
    }
  }

  lemma RerackCode(env: Env, s: Eight, chance: Chance)
    requires EightInv(s) && s.openTable
    ensures RerackEight(env, s, chance).Prepared? ==>
      var p := RerackEight(env, s, chance); p.code.NoExecute? && p.state.game.turn.Break? && EightInv(p.state)
  {
    hide Racked, EightSpots, EightInv;
    if chance.rack.Some? {
      RerackKeeps(env, s, chance);
    }
  }

  /** What the referee finds: the complete table after a shot and whether cue ball and eight are
      still on it. */
  ghost predicate Played(s: Eight, log: seq<Record>) {
    && Full(s.balls, BALLS) && AtRest(s.balls)
    && (OnTable(s.balls, CUE) <==> !PocketedBy(log, |log|, CUE))
    && (OnTable(s.balls, EIGHT) <==> !PocketedBy(log, |log|, EIGHT))
  }

  lemma SpottedEight(env: Env, s: Eight, chance: Chance)
    requires Full(s.balls, BALLS) && AtRest(s.balls) && Spotting.Spot(env, s.balls, EIGHT, chance.spot).Spotted?
    ensures var balls := Spotting.Spot(env, s.balls, EIGHT, chance.spot).balls;
      Full(balls, BALLS) && AtRest(balls) && OnTable(balls, EIGHT)
  {
    hide Spotting.Spot, Overlaps;
    SpotClear(env, s.balls, EIGHT, chance.spot);
    MovedKeeps(s.balls, Spotting.Spot(env, s.balls, EIGHT, chance.spot).balls, EIGHT, BALLS);
  }

  lemma BreakKeeps(env: Env, s: Eight, log: seq<Record>, chance: Chance)
    requires Played(s, log) && JudgeBreak(env, s, log, chance).Some?
    ensures EightInv(JudgeBreak(env, s, log, chance).value)
  {
    hide Full, AtRest, OnTable, PocketedBy, Spotting.Spot, Truncate, Tally;
    if PocketedBy(log, |log|, EIGHT) {
      SpottedEight(env, s, chance);
    }
  }

  lemma ShotKeeps(env: Env, s: Eight, log: seq<Record>, shot: GameShot)
    requires Played(s, log)
    ensures EightInv(JudgeShot(env, s, log, shot))
  {
    hide Full, AtRest, OnTable, PocketedBy, FoulPlay, AllSunk, LegalBy, Truncate;
  }

  lemma Witnessed(w: World, s: Eight, aimed: seq<Ball>, sp: ShotParams)
    requires Lawful(w) && Full(aimed, BALLS) && AtRest(aimed) && OnTable(aimed, CUE) && OnTable(aimed, EIGHT)
    requires Simulate(w, aimed, sp, true).Finished?
    ensures var sim := Simulate(w, aimed, sp, true).sim;
      && Told(aimed, sim.balls, sim.log)
      && sim.log != [] && sim.log[0].event.kind.CueStrike?
      && Played(s.(balls := sim.balls), sim.log)
  {
    TableAfter(w, aimed, sp, BALLS);
    hide Simulate, Lawful;
    var sim := Simulate(w, aimed, sp, true).sim;
    OnTableAfter(aimed, sim.balls, sim.log, CUE);
    OnTableAfter(aimed, sim.balls, sim.log, EIGHT);
  }

  /** A shot that returns from the physics is judged in a state the referee can rely on. */
  lemma PlayFinished(env: Env, w: World, s: Eight, code: Code, shot: GameShot, chance: Chance)
    requires Lawful(w) && EightInv(s) && ShotTurn(s.game.turn) && (!code.PlaceCue? ==> OnTable(s.balls, CUE))
    requires Simulate(w, Aimed(s.balls, code, shot), shot.params, true).Finished?
    ensures var aimed := Aimed(s.balls, code, shot);
      var sim := Simulate(w, aimed, shot.params, true).sim;
      && Told(aimed, sim.balls, sim.log) && Played(s.(balls := sim.balls), sim.log)
      && PlayEight(env, w, s, code, shot, chance)
         == var judged := ProcessEight(env, s.(balls := sim.balls), sim.log, shot, chance);
            if judged.None? then Escaped else Executed(judged.value, Verdict(judged.value.game))
  {
    AimedReady(s.balls, code, shot, BALLS);
    var aimed := Aimed(s.balls, code, shot);
    assert OnTable(aimed, CUE) && OnTable(aimed, EIGHT);
    hide Simulate, Lawful, Aimed, ProcessEight, Ready, Told, Played, Full, AtRest, OnTable, EightInv;
    Witnessed(w, s, aimed, shot.params);
  }

  /** A refused shot leaves the cue ball where it was placed. */
  lemma PlayRefused(env: Env, w: World, s: Eight, code: Code, shot: GameShot, chance: Chance)
    requires !Simulate(w, Aimed(s.balls, code, shot), shot.params, true).Finished?
    ensures var aimed := Aimed(s.balls, code, shot);
      var r := Simulate(w, aimed, shot.params, true);
      && (r.Refused? ==> PlayEight(env, w, s, code, shot, chance) == Executed(s.(balls := aimed), ShotImpossible))
      && (!r.Refused? ==> !PlayEight(env, w, s, code, shot, chance).Executed?)
  {
    hide Simulate, Aimed, ProcessEight;
  }

  /** A shot keeps the invariant, whether it is played or refused. */
  lemma PlayKeeps(env: Env, w: World, s: Eight, code: Code, shot: GameShot, chance: Chance)
    requires Lawful(w) && EightInv(s) && ShotTurn(s.game.turn) && (!code.PlaceCue? ==> OnTable(s.balls, CUE))
    requires PlayEight(env, w, s, code, shot, chance).Executed?
    ensures EightInv(PlayEight(env, w, s, code, shot, chance).state)
  {
    AimedReady(s.balls, code, shot, BALLS);
    hide Simulate, Lawful, Aimed, JudgeBreak, JudgeShot, PlayEight, Full, AtRest, OnTable, Told, Ready, Played;
    var sim := Simulate(w, Aimed(s.balls, code, shot), shot.params, true);
    if !sim.Finished? {
      PlayRefused(env, w, s, code, shot, chance);
    } else {
      PlayFinished(env, w, s, code, shot, chance);
      var played := s.(balls := sim.sim.balls);
      if s.game.turn.Break? {
        BreakKeeps(env, played, sim.sim.log, chance);
      } else {
        ShotKeeps(env, played, sim.sim.log, shot);
      }
    }
  }

  /** The physics is called in exactly these cases. */
  ghost predicate Shoots(env: Env, s: Eight, shot: GameShot, chance: Chance) {
    && !OutOfTime(s.game, shot)
    && var p := PreEight(env, s.(game := Charge(s.game, shot)), shot, chance);
       p.Prepared? && (p.code.Execute? || p.code.PlaceCue?)
  }

  /** The table it is called on. */
  ghost function ShotTable(env: Env, s: Eight, shot: GameShot, chance: Chance): seq<Ball>
    requires Shoots(env, s, shot, chance)
  {
    Aimed(s.balls, PreEight(env, s.(game := Charge(s.game, shot)), shot, chance).code, shot)
  }

  lemma ChargedInv(s: Eight, shot: GameShot)
    requires EightInv(s)
    ensures EightInv(s.(game := Charge(s.game, shot)))
  {
    hide Full, AtRest, OnTable;
  }

  /** One call of `executeShot` in a game that is not over keeps the invariant, and calls the
      physics only on tables it accepts. */
  lemma EightStep(env: Env, w: World, s: Eight, shot: GameShot, chance: Chance)
    requires Lawful(w) && EightInv(s) && !s.game.turn.Win?
    ensures Shoots(env, s, shot, chance) ==> Ready(ShotTable(env, s, shot, chance))
    ensures ExecuteEight(env, w, s, shot, chance).Executed? ==> EightInv(ExecuteEight(env, w, s, shot, chance).state)
  {
    ChargedInv(s, shot);
    var charged := s.(game := Charge(s.game, shot));
    hide Lawful, EightInv, PlayEight, PreEight, Aimed, Ready;
    if PreEight(env, charged, shot, chance).Prepared? {
      PreEightInv(env, charged, shot, chance);
      PreEightShoots(env, charged, shot, chance);
      var p := PreEight(env, charged, shot, chance);
      if p.code.Execute? || p.code.PlaceCue? {
        AimedReady(charged.balls, p.code, shot, BALLS);
        if PlayEight(env, w, charged, p.code, shot, chance).Executed? {
          PlayKeeps(env, w, charged, p.code, shot, chance);
        }
      }
    }
  }
}
