/** Whole games of nine-ball: the lowest ball before each shot, the foul counters against the
    history of fouls, the order of the phases, and who wins. */
module NineBallGames {
  import opened Balls
  import opened Events
  import opened Kinematics
  import opened Scheduling
  import opened SchedulerLaws
  import opened SchedulerInvariants
  import opened ShotStory
  import opened Games
  import opened NineBall

  // ---------------------------------------------------------------- pre-shot facts

  /** The lowest object ball in play; NINE if no lower one is. */
  ghost predicate IsLowest(balls: seq<Ball>, b: BallId, from: BallId) {
    && from <= b <= NINE
    && (b < NINE ==> OnTable(balls, b))
    && forall id: BallId :: from <= id < b ==> !OnTable(balls, id)
  }

  lemma {:induction false} LowestIs(balls: seq<Ball>, b: BallId)
    requires 1 <= b <= NINE && forall id: BallId :: id < BALLS ==> (OnTable(balls, id) <==> Get(balls, id).InPlay())
    ensures IsLowest(balls, LowestFrom(balls, b), b)
    decreases NINE - b
  {
    hide Get, OnTable;
    assert OnTable(balls, b) <==> Get(balls, b).InPlay();
    if b < NINE && !Get(balls, b).InPlay() {
      LowestIs(balls, b + 1);
    }
  }

  lemma LowestOf(balls: seq<Ball>)
    requires Full(balls, BALLS)
    ensures IsLowest(balls, LowestInPlay(balls), ONE)
  {
    hide Get, OnTable, LowestFrom, IsLowest;
    forall id: BallId | id < BALLS
      ensures OnTable(balls, id) <==> Get(balls, id).InPlay()
    {
      OnTableGet(balls, id);
    }
    LowestIs(balls, ONE);
  }

  lemma OneLowest(balls: seq<Ball>, a: BallId, b: BallId)
    requires IsLowest(balls, a, ONE) && IsLowest(balls, b, ONE)
    ensures a == b
  {
    hide OnTable;
  }

  lemma {:induction false} LeastPocketed(log: seq<Record>, n: nat, start: BallId)
    requires n <= |log| && 1 <= start
    ensures var least := LowestPocketed(log, n, start);
      && 1 <= least <= start
      && (least == start || PocketedBy(log, n, least))
      && forall id: BallId :: 1 <= id < least ==> !PocketedBy(log, n, id)
  {
    hide PocketedBy;
    if n == 0 {
      forall id: BallId
        ensures !PocketedBy(log, 0, id)
      {
        NonePocketed(log, id);
      }
    } else {
      LeastPocketed(log, n - 1, start);
      forall id: BallId
        ensures PocketedBy(log, n, id) <==> PocketedBy(log, n - 1, id) || (log[n - 1].event.kind.Pocketed? && log[n - 1].event.ball1 == id)
      {
        ReadPocketed(log, n - 1, id);
      }
    }
  }

  lemma NonePocketed(log: seq<Record>, id: BallId)
    ensures !PocketedBy(log, 0, id)
  {
  }

  /** The ball the code takes for the lowest, from the table after the shot and its events, is the
      lowest object ball that was in play before it, or NINE if none lower was. */
  lemma LowestBefore(s: Nine, before: seq<Ball>, log: seq<Record>)
    requires Told(before, s.balls, log) && Full(before, BALLS) && Full(s.balls, BALLS)
    ensures LowestBall(s, log) == LowestInPlay(before) && IsLowest(before, LowestBall(s, log), ONE)
  {
    hide OnTable, PocketedBy, LowestFrom, LowestPocketed, Told;
    LowestOf(before);
    LowestOf(s.balls);
    LeastPocketed(log, |log|, LowestInPlay(s.balls));
    forall id: BallId | id < BALLS
      ensures OnTable(before, id) <==> OnTable(s.balls, id) || PocketedBy(log, |log|, id)
    {
      OnTableAfter(before, s.balls, log, id);
    }
    hide Full;
    assert IsLowest(before, LowestBall(s, log), ONE);
    OneLowest(before, LowestBall(s, log), LowestInPlay(before));
  }

  // ---------------------------------------------------------------- fouls

  /** The foul counter of the player who did, or did not, break first. */
  function CounterOf(s: Nine, starter: bool): int { if s.game.started == starter then s.fouls else s.oppFouls }

  /** What one judged shot does: whose turn it is, and both counters. A third foul in a row gives
      the game to the opponent. */
  lemma JudgeCounts(env: Env, s: Nine, log: seq<Record>, shot: GameShot, chance: Chance)
    requires JudgeNine(env, s, log, shot, chance).Some?
    ensures var t := JudgeNine(env, s, log, shot, chance).value;
      var foul := FoulNine(s, log, shot, LowestBall(s, log));
      && CounterOf(t, s.game.started) == (if foul then s.fouls + 1 else 0)
      && CounterOf(t, !s.game.started) == s.oppFouls
      && (foul ==> t.game.started != s.game.started && (t.game.turn.Win? <==> s.fouls + 1 == 3))
      && (s.game.switched == t.game.switched <==> s.game.started == t.game.started)
  {
    hide FoulNine, PocketedBy, Credit, LowestBall, Spotting.Spot, Truncate;
  }

  /** Who wins by a shot: the shooter by pocketing the nine without a foul, on a push out never;
      the opponent by the shooter's third foul in a row. */
  lemma JudgeDecides(env: Env, s: Nine, before: seq<Ball>, log: seq<Record>, shot: GameShot, chance: Chance)
    requires Told(before, s.balls, log) && Full(before, BALLS) && Full(s.balls, BALLS)
    requires JudgeNine(env, s, log, shot, chance).Some?
    ensures var t := JudgeNine(env, s, log, shot, chance).value;
      var foul := FoulNine(s, log, shot, LowestInPlay(before));
      && (t.game.turn.Win? && t.game.started == s.game.started <==>
            PocketedBy(log, |log|, NINE) && !foul && !shot.decision.DeclarePushOut?)
      && (t.game.turn.Win? && t.game.started != s.game.started <==> foul && s.fouls == 2)
  {
    LowestBefore(s, before, log);
    PocketedCredit(log, shot);
    hide JudgeNine, Told, Full, FoulNine, PocketedBy, Credit, LowestBall, LowestInPlay;
    JudgeWins(env, s, log, shot, chance);
  }

  lemma JudgeWins(env: Env, s: Nine, log: seq<Record>, shot: GameShot, chance: Chance)
    requires JudgeNine(env, s, log, shot, chance).Some?
    ensures var t := JudgeNine(env, s, log, shot, chance).value;
      var foul := FoulNine(s, log, shot, LowestBall(s, log));
      && (t.game.turn.Win? && t.game.started == s.game.started <==> PocketedBy(log, |log|, NINE) && !foul && Credit(log, shot) > 0)
      && (t.game.turn.Win? && t.game.started != s.game.started <==> foul && s.fouls == 2)
  {
    hide FoulNine, PocketedBy, Credit, LowestBall, Spotting.Spot, Truncate;
  }

  /** A pocketed nine is to the shooter's credit, except on a push out. */
  lemma PocketedCredit(log: seq<Record>, shot: GameShot)
    ensures PocketedBy(log, |log|, NINE) && !shot.decision.DeclarePushOut? ==> Credit(log, shot) > 0
    ensures shot.decision.DeclarePushOut? ==> Credit(log, shot) == 0
  {
    TallyZero(log, |log|, ObjectPocketed);
  }

  // ---------------------------------------------------------------- phases

  /** How far a game has got: the break, the shot after it, the answer to a push out, the rest. */
  function Phase(turn: Turn): nat {
    match turn
    case Break => 0
    case FirstShot => 1
    case PushOut => 2
    case _ => 3
  }

  /** A phase is never entered again, and only the first shot leads to the push-out decision. */
  ghost predicate PhasesAdvance(s: Nine, t: Nine) {
    && Phase(s.game.turn) <= Phase(t.game.turn)
    && (t.game.turn.PushOut? ==> s.game.turn.FirstShot? || s.game.turn.PushOut?)
  }

  /** The decisions that can reach the referee. */
  lemma PushOutOnlyFirst(env: Env, s: Nine, shot: GameShot)
    requires PreNine(env, s, shot).Prepared? && (PreNine(env, s, shot).code.Execute? || PreNine(env, s, shot).code.PlaceCue?)
    ensures shot.decision.DeclarePushOut? ==> s.game.turn.FirstShot?
  {
  }

  lemma JudgePhases(env: Env, s: Nine, log: seq<Record>, shot: GameShot, chance: Chance)
    requires ShotTurn(s.game.turn) && (shot.decision.DeclarePushOut? ==> s.game.turn.FirstShot?)
    requires JudgeNine(env, s, log, shot, chance).Some?
    ensures PhasesAdvance(s, JudgeNine(env, s, log, shot, chance).value)
  {
    hide FoulNine, PocketedBy, Credit, LowestBall, Spotting.Spot, Truncate;
  }

  // ---------------------------------------------------------------- one step

  /** The shot was played out and judged. */
  ghost predicate PlayedOut(env: Env, w: World, s: Nine, shot: GameShot) {
    Shoots(env, s, shot) && Simulate(w, ShotTable(env, s, shot), shot.params, true).Finished?
  }

  ghost function ShotLog(env: Env, w: World, s: Nine, shot: GameShot): seq<Record>
    requires PlayedOut(env, w, s, shot)
  {
    Simulate(w, ShotTable(env, s, shot), shot.params, true).sim.log
  }

  /** The foul of a played shot, by the lowest ball in play before it. */
  ghost predicate Fouled(env: Env, w: World, s: Nine, shot: GameShot)
    requires PlayedOut(env, w, s, shot)
  {
    FoulNine(s, ShotLog(env, w, s, shot), shot, LowestInPlay(ShotTable(env, s, shot)))
  }

  /** What one call of `executeShot` does to the counters, the winner and the phase. */
  ghost predicate StepTold(env: Env, w: World, s: Nine, shot: GameShot, t: Nine, r: ShotResult) {
    && (r.OkLostTurn? <==> t.game.started != s.game.started)
    && PhasesAdvance(s, t)
    && if PlayedOut(env, w, s, shot) then
         var foul := Fouled(env, w, s, shot);
         var log := ShotLog(env, w, s, shot);
         && CounterOf(t, s.game.started) == (if foul then CounterOf(s, s.game.started) + 1 else 0)
         && CounterOf(t, !s.game.started) == CounterOf(s, !s.game.started)
         && (t.game.turn.Win? && t.game.started == s.game.started <==>
               PocketedBy(log, |log|, NINE) && !foul && !shot.decision.DeclarePushOut?)
         && (t.game.turn.Win? && t.game.started != s.game.started <==> foul && CounterOf(s, s.game.started) == 2)
       else
         && CounterOf(t, true) == CounterOf(s, true) && CounterOf(t, false) == CounterOf(s, false)
         && (t.game.turn.Win? ==> shot.decision.Concede? && t.game.started != s.game.started)
  }

  lemma PreTold(env: Env, w: World, s: Nine, shot: GameShot)
    requires NineInv(s) && !s.game.turn.Win? && PreNine(env, s, shot).Prepared? && PreNine(env, s, shot).code.NoExecute?
    ensures var t := PreNine(env, s, shot).state;
      && (s.game.switched == t.game.switched <==> s.game.started == t.game.started)
      && PhasesAdvance(s, t)
      && CounterOf(t, true) == CounterOf(s, true) && CounterOf(t, false) == CounterOf(s, false)
      && (t.game.turn.Win? ==> shot.decision.Concede? && t.game.started != s.game.started)
  {
    hide Full, AtRest, OnTable, Truncate;
  }

  lemma PlayTold(env: Env, w: World, s: Nine, code: Code, shot: GameShot, chance: Chance)
    requires Lawful(w) && NineInv(s) && ShotTurn(s.game.turn) && !s.game.switched && (!code.PlaceCue? ==> OnTable(s.balls, CUE))
    requires shot.decision.DeclarePushOut? ==> s.game.turn.FirstShot?
    requires Simulate(w, Aimed(s.balls, code, shot), shot.params, true).Finished? && PlayNine(env, w, s, code, shot, chance).Executed?
    ensures var e := PlayNine(env, w, s, code, shot, chance);
      var t := e.state;
      var before := Aimed(s.balls, code, shot);
      var log := Simulate(w, before, shot.params, true).sim.log;
      var foul := FoulNine(s, log, shot, LowestInPlay(before));
      && (e.result.OkLostTurn? <==> t.game.started != s.game.started)
      && PhasesAdvance(s, t)
      && CounterOf(t, s.game.started) == (if foul then s.fouls + 1 else 0)
      && CounterOf(t, !s.game.started) == s.oppFouls
      && (t.game.turn.Win? && t.game.started == s.game.started <==>
            PocketedBy(log, |log|, NINE) && !foul && !shot.decision.DeclarePushOut?)
      && (t.game.turn.Win? && t.game.started != s.game.started <==> foul && s.fouls == 2)
  {
    PlayFinished(env, w, s, code, shot, chance);
    var before := Aimed(s.balls, code, shot);
    var sim := Simulate(w, before, shot.params, true).sim;
    var played := s.(balls := sim.balls);
    PlayedFull(played, sim.log);
    hide Simulate, Lawful, Aimed, JudgeNine, PlayNine, NineInv, Told, Played, FoulNine, LowestInPlay, LowestBall, Full, OnTable;
    LowestBefore(played, before, sim.log);
    FoulSame(s, played, sim.log, shot, LowestInPlay(before));
    JudgeCounts(env, played, sim.log, shot, chance);
    JudgeDecides(env, played, before, sim.log, shot, chance);
    JudgePhases(env, played, sim.log, shot, chance);
  }

  lemma PlayedFull(s: Nine, log: seq<Record>)
    requires Played(s, log)
    ensures Full(s.balls, BALLS)
  {
  }

  /** A foul does not depend on the table after the shot, nor on the clocks. */
  lemma FoulSame(s: Nine, t: Nine, log: seq<Record>, shot: GameShot, lowest: BallId)
    requires t.game.turn == s.game.turn
    ensures FoulNine(s, log, shot, lowest) <==> FoulNine(t, log, shot, lowest)
  {
    RailsSame(s, t, log, |log|);
  }

  lemma {:induction false} RailsSame(s: Nine, t: Nine, log: seq<Record>, n: nat)
    requires t.game.turn == s.game.turn && n <= |log|
    ensures Rails(s, log, n) == Rails(t, log, n)
  {
    if n > 0 {
      RailsSame(s, t, log, n - 1);
    }
  }

  /** A shot that was played out, in the terms of the state with the clock charged. */
  lemma PlayedMeans(env: Env, w: World, s: Nine, shot: GameShot)
    requires NineInv(s) && !s.game.turn.Win? && PlayedOut(env, w, s, shot)
    ensures var charged := s.(game := Charge(s.game, shot));
      var code := PreNine(env, charged, shot).code;
      var played := Simulate(w, Aimed(s.balls, code, shot), shot.params, true);
      && PreNine(env, charged, shot) == Prepared(code, charged) && (code.Execute? || code.PlaceCue?)
      && (!code.PlaceCue? ==> OnTable(s.balls, CUE)) && ShotTurn(s.game.turn)
      && (shot.decision.DeclarePushOut? ==> s.game.turn.FirstShot?)
      && played.Finished? && ShotLog(env, w, s, shot) == played.sim.log
      && (Fouled(env, w, s, shot) <==> FoulNine(charged, played.sim.log, shot, LowestInPlay(Aimed(s.balls, code, shot))))
  {
    ChargedInv(s, shot);
    var charged := s.(game := Charge(s.game, shot));
    hide NineInv, PreNine, Simulate, Aimed, FoulNine, LowestInPlay, OnTable;
    PreNineKeeps(env, charged, shot);
    PushOutOnlyFirst(env, charged, shot);
    var before := Aimed(charged.balls, PreNine(env, charged, shot).code, shot);
    FoulSame(s, charged, Simulate(w, before, shot.params, true).sim.log, shot, LowestInPlay(before));
  }

  /** Such a call ends as the shot does. */
  lemma ExecutesShot(env: Env, w: World, s: Nine, shot: GameShot, chance: Chance)
    requires NineInv(s) && !s.game.turn.Win? && PlayedOut(env, w, s, shot)
    ensures var charged := s.(game := Charge(s.game, shot));
      ExecuteNine(env, w, s, shot, chance) == PlayNine(env, w, charged, PreNine(env, charged, shot).code, shot, chance)
  {
    assert !OutOfTime(s.game, shot);
    hide NineInv, PlayNine, PreNine, PlayedOut, ShotLog, Fouled;
    PlayedMeans(env, w, s, shot);
  }

  lemma PlayedTold(env: Env, w: World, s: Nine, shot: GameShot, chance: Chance)
    requires Lawful(w) && NineInv(s) && !s.game.turn.Win? && ExecuteNine(env, w, s, shot, chance).Executed?
    requires PlayedOut(env, w, s, shot)
    ensures var e := ExecuteNine(env, w, s, shot, chance); StepTold(env, w, s, shot, e.state, e.result)
  {
    ChargedInv(s, shot);
    var charged := s.(game := Charge(s.game, shot));
    ExecutesShot(env, w, s, shot, chance);
    hide Lawful, NineInv, PlayNine, PreNine, Simulate, Aimed, FoulNine, LowestInPlay, OnTable, PlayedOut, ShotLog, Fouled;
    hide ExecuteNine, PhasesAdvance, PocketedBy;
    PlayedMeans(env, w, s, shot);
    PlayTold(env, w, charged, PreNine(env, charged, shot).code, shot, chance);
    var t := ExecuteNine(env, w, s, shot, chance).state;
    assert PhasesAdvance(charged, t) <==> PhasesAdvance(s, t) by {
      SamePhases(charged, s, t);
    }
  }

  lemma SamePhases(s: Nine, t: Nine, u: Nine)
    requires s.game.turn == t.game.turn
    ensures PhasesAdvance(s, u) <==> PhasesAdvance(t, u)
  {
  }

  lemma IdleTold(env: Env, w: World, s: Nine, shot: GameShot, chance: Chance)
    requires Lawful(w) && NineInv(s) && !s.game.turn.Win? && ExecuteNine(env, w, s, shot, chance).Executed?
    requires !PlayedOut(env, w, s, shot)
    ensures var e := ExecuteNine(env, w, s, shot, chance); StepTold(env, w, s, shot, e.state, e.result)
  {
    ChargedInv(s, shot);
    var charged := s.(game := Charge(s.game, shot));
    hide Lawful, NineInv, PlayNine, PreNine, Simulate, Aimed, FoulNine, LowestInPlay, OnTable;
    if !OutOfTime(s.game, shot) {
      PreNineKeeps(env, charged, shot);
      var pre := PreNine(env, charged, shot);
      if pre.code.NoExecute? {
        PreTold(env, w, charged, shot);
      } else if pre.code.Execute? || pre.code.PlaceCue? {
        PlayRefused(env, w, charged, pre.code, shot, chance);
      }
    }
  }

  /** One call of `executeShot`. */
  lemma NineTold(env: Env, w: World, s: Nine, shot: GameShot, chance: Chance)
    requires Lawful(w) && NineInv(s) && !s.game.turn.Win? && ExecuteNine(env, w, s, shot, chance).Executed?
    ensures var e := ExecuteNine(env, w, s, shot, chance); StepTold(env, w, s, shot, e.state, e.result)
  {
    hide Lawful, NineInv, ExecuteNine, StepTold, PlayedOut;
    if PlayedOut(env, w, s, shot) {
      PlayedTold(env, w, s, shot, chance);
    } else {
      IdleTold(env, w, s, shot, chance);
    }
  }

  // ---------------------------------------------------------------- whole games

  /** A game from the rack on: each call returns, none is made once the game is won, and no
      simulation breaks off half way. */
  ghost predicate IsNineGame(env: Env, w: World, ss: seq<Nine>, moves: seq<Move>, results: seq<ShotResult>) {
    && |ss| == |moves| + 1 && |results| == |moves|
    && (exists timeLeft, timeLeftOpp, noise :: ss[0] == NewNine(env, timeLeft, timeLeftOpp, noise))
    && forall j, k :: 0 <= j < |moves| && k == j + 1 ==>
         !ss[j].game.turn.Win? && ExecuteNine(env, w, ss[j], moves[j].shot, moves[j].chance) == Executed(ss[k], results[j])
  }

  lemma NineGameStep(env: Env, w: World, ss: seq<Nine>, moves: seq<Move>, results: seq<ShotResult>, j: nat, k: nat)
    requires IsNineGame(env, w, ss, moves, results) && j < |moves| && k == j + 1
    ensures !ss[j].game.turn.Win? && ExecuteNine(env, w, ss[j], moves[j].shot, moves[j].chance) == Executed(ss[k], results[j])
  {
    hide ExecuteNine;
  }

  lemma NineGameStart(env: Env, w: World, ss: seq<Nine>, moves: seq<Move>, results: seq<ShotResult>)
    requires IsNineGame(env, w, ss, moves, results)
    ensures NineInv(ss[0]) && ss[0].fouls == 0 && ss[0].oppFouls == 0 && ss[0].game.turn.Break?
  {
    hide ExecuteNine, NineInv;
    var timeLeft, timeLeftOpp, noise :| ss[0] == NewNine(env, timeLeft, timeLeftOpp, noise);
    NewNineInv(env, timeLeft, timeLeftOpp, noise);
  }

  /** In every state of every game the table is full and at rest, the cue ball is on it unless
      the next shot places it, the nine is on it and no foul counter exceeds two until the game
      is won, and every call of the physics meets the simulator's demands. */
  lemma {:induction false} NineHandshake(env: Env, w: World, ss: seq<Nine>, moves: seq<Move>, results: seq<ShotResult>, k: nat)
    requires Lawful(w) && IsNineGame(env, w, ss, moves, results) && k < |ss|
    ensures NineInv(ss[k])
    ensures k < |moves| && Shoots(env, ss[k], moves[k].shot) ==> Ready(ShotTable(env, ss[k], moves[k].shot))
  {
    hide Lawful, NineInv, ExecuteNine, NewNine, Shoots, ShotTable, Ready;
    if k == 0 {
      NineGameStart(env, w, ss, moves, results);
    } else {
      NineHandshake(env, w, ss, moves, results, k - 1);
      NineGameStep(env, w, ss, moves, results, k - 1, k);
      NineStep(env, w, ss[k - 1], moves[k - 1].shot, moves[k - 1].chance);
    }
    if k < |moves| {
      NineGameStep(env, w, ss, moves, results, k, k + 1);
      NineStep(env, w, ss[k], moves[k].shot, moves[k].chance);
    }
  }

  /** Step `k` of any game, told. */
  lemma NineGameTold(env: Env, w: World, ss: seq<Nine>, moves: seq<Move>, results: seq<ShotResult>, k: nat)
    requires Lawful(w) && IsNineGame(env, w, ss, moves, results) && k < |moves|
    ensures StepTold(env, w, ss[k], moves[k].shot, ss[k + 1], results[k])
  {
    hide Lawful, NineInv, ExecuteNine, StepTold;
    NineHandshake(env, w, ss, moves, results, k);
    NineGameStep(env, w, ss, moves, results, k, k + 1);
    NineTold(env, w, ss[k], moves[k].shot, moves[k].chance);
  }

  /** How many of the latest shots a player has played out were fouls, without interruption. */
  ghost function TrailingFouls(env: Env, w: World, ss: seq<Nine>, moves: seq<Move>, k: nat, starter: bool): nat
    requires |ss| == |moves| + 1 && k <= |moves|
  {
    if k == 0 then 0
    else if PlayedOut(env, w, ss[k - 1], moves[k - 1].shot) && ss[k - 1].game.started == starter then
      if Fouled(env, w, ss[k - 1], moves[k - 1].shot) then TrailingFouls(env, w, ss, moves, k - 1, starter) + 1 else 0
    else TrailingFouls(env, w, ss, moves, k - 1, starter)
  }

  /** One call and one player's counter. */
  lemma CounterStep(env: Env, w: World, s: Nine, shot: GameShot, t: Nine, r: ShotResult, starter: bool)
    requires StepTold(env, w, s, shot, t, r)
    ensures CounterOf(t, starter) ==
      if PlayedOut(env, w, s, shot) && s.game.started == starter then if Fouled(env, w, s, shot) then CounterOf(s, starter) + 1 else 0
      else CounterOf(s, starter)
  {
    hide PlayedOut, Fouled, ShotLog, PhasesAdvance, CounterOf;
  }

  /** Each player's counter is the length of the trailing run of fouls in that player's own shots. */
  lemma {:induction false} CountersTrail(env: Env, w: World, ss: seq<Nine>, moves: seq<Move>, results: seq<ShotResult>, k: nat, starter: bool)
    requires Lawful(w) && IsNineGame(env, w, ss, moves, results) && k < |ss|
    ensures CounterOf(ss[k], starter) == TrailingFouls(env, w, ss, moves, k, starter)
  {
    hide Lawful, ExecuteNine, IsNineGame, PlayedOut, Fouled, ShotLog, PhasesAdvance, NineInv, StepTold;
    NineGameStart(env, w, ss, moves, results);
    NineGameLengths(env, w, ss, moves, results);
    if k > 0 {
      CountersTrail(env, w, ss, moves, results, k - 1, starter);
      NineGameTold(env, w, ss, moves, results, k - 1);
      CounterStep(env, w, ss[k - 1], moves[k - 1].shot, ss[k], results[k - 1], starter);
    }
  }

  /** Fouling three times in a row loses the game at once, and nothing but that, the nine, or a
      concession ends it. */
  lemma ThirdFoul(env: Env, w: World, ss: seq<Nine>, moves: seq<Move>, results: seq<ShotResult>, k: nat)
    requires Lawful(w) && IsNineGame(env, w, ss, moves, results) && k < |moves|
    ensures var shooter := ss[k].game.started;
      var won := ss[k + 1].game.turn.Win?;
      && (forall p: bool :: TrailingFouls(env, w, ss, moves, k, p) <= 2)
      && (PlayedOut(env, w, ss[k], moves[k].shot) ==>
            && (won && ss[k + 1].game.started != shooter <==> TrailingFouls(env, w, ss, moves, k + 1, shooter) == 3)
            && (won && ss[k + 1].game.started == shooter <==>
                  && !Fouled(env, w, ss[k], moves[k].shot) && !moves[k].shot.decision.DeclarePushOut?
                  && var log := ShotLog(env, w, ss[k], moves[k].shot); PocketedBy(log, |log|, NINE)))
      && (!PlayedOut(env, w, ss[k], moves[k].shot) && won ==> moves[k].shot.decision.Concede?)
  {
    NineHandshake(env, w, ss, moves, results, k);
    assert 0 <= ss[k].fouls <= 2 && 0 <= ss[k].oppFouls <= 2 by {
      NineGameStep(env, w, ss, moves, results, k, k + 1);
    }
    hide Lawful, ExecuteNine, IsNineGame, PlayedOut, Fouled, ShotLog, PhasesAdvance, NineInv, PocketedBy;
    CountersTrail(env, w, ss, moves, results, k, true);
    CountersTrail(env, w, ss, moves, results, k, false);
    NineGameTold(env, w, ss, moves, results, k);
  }

  /** The phases of a game follow one another and none comes back: the push-out decision, once
      left, is never entered again. */
  lemma PushOutOnce(env: Env, w: World, ss: seq<Nine>, moves: seq<Move>, results: seq<ShotResult>, i: nat, k: nat)
    requires Lawful(w) && IsNineGame(env, w, ss, moves, results) && i <= k < |ss|
    ensures Phase(ss[i].game.turn) <= Phase(ss[k].game.turn)
    ensures ss[i].game.turn.PushOut? && !ss[k].game.turn.PushOut? ==>
              forall l :: k <= l < |ss| ==> !ss[l].game.turn.PushOut?
    decreases k - i, |ss| - k
  {
    hide Lawful, ExecuteNine, IsNineGame, StepTold;
    PhasesGrow(env, w, ss, moves, results, i, k);
    if ss[i].game.turn.PushOut? && !ss[k].game.turn.PushOut? {
      forall l | k <= l < |ss|
        ensures !ss[l].game.turn.PushOut?
      {
        PhasesGrow(env, w, ss, moves, results, k, l);
      }
    }
  }

  lemma NineGameLengths(env: Env, w: World, ss: seq<Nine>, moves: seq<Move>, results: seq<ShotResult>)
    requires IsNineGame(env, w, ss, moves, results)
    ensures |ss| == |moves| + 1 && |results| == |moves|
  {
    hide ExecuteNine, NewNine;
  }

  lemma StepPhases(env: Env, w: World, s: Nine, shot: GameShot, t: Nine, r: ShotResult)
    requires StepTold(env, w, s, shot, t, r)
    ensures PhasesAdvance(s, t)
  {
    hide PlayedOut, Fouled, ShotLog, CounterOf, PhasesAdvance;
  }

  lemma {:induction false} PhasesGrow(env: Env, w: World, ss: seq<Nine>, moves: seq<Move>, results: seq<ShotResult>, i: nat, k: nat)
    requires Lawful(w) && IsNineGame(env, w, ss, moves, results) && i <= k < |ss|
    ensures Phase(ss[i].game.turn) <= Phase(ss[k].game.turn)
    decreases k
  {
    hide Lawful, ExecuteNine, IsNineGame, StepTold, Phase;
    NineGameLengths(env, w, ss, moves, results);
    if i < k {
      PhasesGrow(env, w, ss, moves, results, i, k - 1);
      NineGameTold(env, w, ss, moves, results, k - 1);
      StepPhases(env, w, ss[k - 1], moves[k - 1].shot, ss[k], results[k - 1]);
    }
  }
}
