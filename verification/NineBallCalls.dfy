/** One call of `executeShot` in nine-ball, told by what the player asks for, the table before the shot and
    the event list: who shoots next and how, what counts as a foul, and who has won. */
module NineBallCalls {
  import opened Wrappers
  import opened Vectors
  import opened Balls
  import opened Events
  import opened Kinematics
  import opened Scheduling
  import opened SchedulerLaws
  import opened SchedulerInvariants
  import opened ShotStory
  import opened Spotting
  import opened Games
  import opened NineBall
  import opened NineBallGames

  // ---------------------------------------------------------------- what a shot comes to

  /** Some object ball fell. */
  ghost predicate Made(log: seq<Record>) { exists b: BallId :: b != CUE && PocketedBy(log, |log|, b) }

  /** Enough balls were driven to rails: four object balls on the break, else any after the first contact. */
  ghost predicate Driven(breaking: bool, log: seq<Record>) {
    if breaking then |Entries(log, |log|, ObjectRail)| >= 4 else RailAfterContact(log, |log|)
  }

  /** The lowest ball on the table was hit first. */
  ghost predicate LowestFirst(before: seq<Ball>, log: seq<Record>) { exists b: BallId :: IsLowest(before, b, ONE) && HitFirst(log, b) }

  /** The fouls: the cue ball pocketed; and, unless a push out is declared, a ball other than the lowest hit
      first, or none driven to a rail and none made. */
  ghost predicate Fouls(breaking: bool, before: seq<Ball>, log: seq<Record>, pushing: bool) {
    || PocketedBy(log, |log|, CUE)
    || (!pushing && (!LowestFirst(before, log) || (!Driven(breaking, log) && !Made(log))))
  }

  /** What a shot comes to. The player stays at the table after a ball made without foul and without push
      out; the third foul in a row loses, any other gives the opponent ball in hand; the nine made so wins. */
  ghost predicate ShotTold(s: Nine, before: seq<Ball>, log: seq<Record>, shot: GameShot, t: Nine) {
    var pushing := shot.decision.DeclarePushOut?;
    var foul := Fouls(s.game.turn.Break?, before, log, pushing);
    var stays := !foul && !pushing && Made(log);
    && (t.game.started == s.game.started <==> stays)
    && t.game.turn == (if foul then if s.fouls == 2 then Win else BallInHand
                       else if stays && PocketedBy(log, |log|, NINE) then Win
                       else if s.game.turn.Break? then FirstShot
                       else if pushing then PushOut
                       else Normal)
    && CounterOf(t, s.game.started) == (if foul then s.fouls + 1 else 0)
    && CounterOf(t, !s.game.started) == s.oppFouls
  }

  // ---------------------------------------------------------------- judging

  /** `FirstObject` names the ball of the first collision. */
  lemma {:induction false} FirstObjectIs(log: seq<Record>, n: nat)
    requires n <= |log| && (forall k: nat :: FirstCollision(log, k) ==> log[k].event.kind.ball2 != UNKNOWN_ID)
    ensures FirstObject(log, n) == FirstBall(log, n, UNKNOWN_ID)
  {
    if n > 0 {
      FirstObjectIs(log, n - 1);
      FirstBallIs(log, n - 1, UNKNOWN_ID);
      var last := log[n - 1].event;
      if last.kind.BallCollision? && !ContactBy(log, n - 1) {
        assert FirstCollision(log, n - 1);
      }
    }
  }

  /** The rails counted on the break are those of object balls. */
  lemma {:induction false} BreakRails(s: Nine, log: seq<Record>, n: nat)
    requires n <= |log| && s.game.turn.Break?
    ensures Rails(s, log, n) == Tally(log, n, ObjectRail)
  {
    if n > 0 {
      BreakRails(s, log, n - 1);
    }
  }

  /** Otherwise one counts if it comes after the first contact. */
  lemma {:induction false} OtherRails(s: Nine, log: seq<Record>, n: nat)
    requires n <= |log| && !s.game.turn.Break? && (forall k: nat :: FirstCollision(log, k) ==> log[k].event.kind.ball2 != UNKNOWN_ID)
    ensures Rails(s, log, n) > 0 <==> RailAfterContact(log, n)
  {
    if n > 0 {
      OtherRails(s, log, n - 1);
      FirstObjectIs(log, n - 1);
      FirstBallIs(log, n - 1, UNKNOWN_ID);
    }
  }

  lemma CreditIs(log: seq<Record>, shot: GameShot)
    ensures Credit(log, shot) > 0 <==> !shot.decision.DeclarePushOut? && Made(log)
  {
    TallyZero(log, |log|, ObjectPocketed);
    hide Tally;
    if Tally(log, |log|, ObjectPocketed) > 0 {
      var k :| 0 <= k < |log| && Counts(log[k].event, ObjectPocketed);
      assert PocketedBy(log, |log|, log[k].event.ball1);
    }
  }

  lemma LowestFirstIs(before: seq<Ball>, log: seq<Record>)
    requires Full(before, BALLS) && (forall k: nat :: FirstCollision(log, k) ==> log[k].event.kind.ball2 != UNKNOWN_ID)
    ensures LowestFirst(before, log) <==> FirstObject(log, |log|) == LowestInPlay(before)
  {
    hide FirstCollision, FirstObject, FirstBall, HitFirst, ContactBy, IsLowest, LowestInPlay, Full;
    LowestOf(before);
    var low := LowestInPlay(before);
    LowestReal(before, low);
    FirstObjectIs(log, |log|);
    HitFirstIs(log, UNKNOWN_ID, low);
    NoFirst(log);
    if LowestFirst(before, log) {
      var b: BallId :| IsLowest(before, b, ONE) && HitFirst(log, b);
      OneLowest(before, b, low);
    }
  }

  lemma LowestReal(balls: seq<Ball>, b: BallId)
    requires IsLowest(balls, b, ONE)
    ensures b != UNKNOWN_ID
  {
  }

  lemma NoFirst(log: seq<Record>)
    ensures !ContactBy(log, |log|) ==> FirstBall(log, |log|, UNKNOWN_ID) == UNKNOWN_ID
  {
    FirstBallIs(log, |log|, UNKNOWN_ID);
  }

  lemma HitsReal(before: seq<Ball>, after: seq<Ball>, log: seq<Record>)
    requires Told(before, after, log)
    ensures forall k: nat :: FirstCollision(log, k) ==> log[k].event.kind.ball2 != UNKNOWN_ID
  {
    hide Accounted, FirstCollision;
  }

  /** The referee's foul is the one told. */
  lemma FoulIs(s: Nine, before: seq<Ball>, log: seq<Record>, shot: GameShot)
    requires Full(before, BALLS) && Told(before, s.balls, log)
    ensures FoulNine(s, log, shot, LowestInPlay(before)) <==> Fouls(s.game.turn.Break?, before, log, shot.decision.DeclarePushOut?)
  {
    hide Told, Full, PocketedBy, LowestInPlay, FirstObject, FirstCollision, Rails, Tally, Entries,
      RailAfterContact, Made, Credit, LowestFirst;
    HitsReal(before, s.balls, log);
    LowestFirstIs(before, log);
    CreditIs(log, shot);
    if s.game.turn.Break? {
      BreakRails(s, log, |log|);
      TallyIs(log, |log|, ObjectRail);
    } else {
      OtherRails(s, log, |log|);
    }
  }

  /** So the fouls counted over a game are these. */
  lemma FouledIs(env: Env, w: World, s: Nine, shot: GameShot)
    requires Lawful(w) && NineInv(s) && !s.game.turn.Win? && PlayedOut(env, w, s, shot)
    ensures Fouled(env, w, s, shot) <==>
      Fouls(s.game.turn.Break?, ShotTable(env, s, shot), ShotLog(env, w, s, shot), shot.decision.DeclarePushOut?)
  {
    hide Lawful, Simulate, PreNine, FoulNine, Fouls, Told, Full, OnTable, AtRest, Aimed, LowestInPlay, PlayNine, Played;
    PlayedMeans(env, w, s, shot);
    ChargedInv(s, shot);
    var charged := s.(game := Charge(s.game, shot));
    var code := PreNine(env, charged, shot).code;
    var before := Aimed(s.balls, code, shot);
    var sim := Simulate(w, before, shot.params, true).sim;
    PlayFinished(env, w, charged, code, shot, Chance(None, (n: nat) => Point(0.0, 0.0)));
    var played := s.(balls := sim.balls);
    FoulIs(played, before, sim.log, shot);
    FoulSame(played, charged, sim.log, shot, LowestInPlay(before));
  }

  /** A shot is judged by what the table was before it. */
  lemma JudgeTold(env: Env, s: Nine, before: seq<Ball>, log: seq<Record>, shot: GameShot, chance: Chance)
    requires Told(before, s.balls, log) && Full(before, BALLS) && Full(s.balls, BALLS) && !s.game.switched
    requires JudgeNine(env, s, log, shot, chance).Some?
    ensures var t := JudgeNine(env, s, log, shot, chance).value;
      && ShotTold(s, before, log, shot, t) && SwitchedOnce(s.game, t.game)
      && t.balls == if PocketedBy(log, |log|, NINE) && !(t.game.turn.Win? && t.game.started == s.game.started)
                    then Spotting.Spot(env, s.balls, NINE, chance.spot).balls else s.balls
  {
    hide Told, Full, PocketedBy, LowestInPlay, LowestBall, FoulNine, Fouls, Made, Credit, Spotting.Spot, Truncate;
    LowestBefore(s, before, log);
    FoulIs(s, before, log, shot);
    CreditIs(log, shot);
  }

  // ---------------------------------------------------------------- asking

  /** Turn, player at the table and counters are as before. */
  predicate Same(s: Nine, t: Nine) {
    t.game.turn == s.game.turn && t.game.started == s.game.started && t.fouls == s.fouls && t.oppFouls == s.oppFouls
  }

  /** The call asks for a shot the rules allow: no decision but on the first shot after the break, and a cue
      ball placed behind the head string for the break. */
  predicate Allowed(env: Env, s: Nine, shot: GameShot) {
    && (s.game.turn.Break? ==> shot.cue.y >= 0.75 * env.table.length)
    && (!s.game.turn.FirstShot? ==> shot.decision.NoDecision?)
  }

  /** The table a shot is played on. */
  function Before(s: Nine, shot: GameShot): seq<Ball> {
    if s.game.turn.Break? || s.game.turn.BallInHand? then Place(s.balls, CUE, shot.cue) else s.balls
  }

  /** The answer to a push out: shoot, or have the other player shoot. */
  ghost predicate DecisionTold(s: Nine, shot: GameShot, t: Nine, r: ShotResult) {
    t.balls == s.balls &&
    if shot.decision.KeepShooting? || shot.decision.DeclarePushOut? then
      && t.game.turn.Normal? && (t.game.started != s.game.started <==> shot.decision.DeclarePushOut?)
      && CounterOf(t, true) == CounterOf(s, true) && CounterOf(t, false) == CounterOf(s, false)
    else r.BadParams? && Same(s, t)
  }

  /** What a shot played from here comes to, if it is accepted and the simulation ends. A nine that fell
      without winning is spotted. */
  ghost predicate PlayTold(env: Env, w: World, s: Nine, shot: GameShot, chance: Chance, t: Nine, r: ShotResult) {
    match Simulate(w, Before(s, shot), shot.params, true)
    case Refused => r.ShotImpossible? && Same(s, t) && t.balls == Before(s, shot)
    case Finished(sim) =>
      && !r.ShotImpossible? && !r.BadParams? && !r.Timeout?
      && Told(Before(s, shot), sim.balls, sim.log) && ShotTold(s, Before(s, shot), sim.log, shot, t)
      && t.balls == if PocketedBy(sim.log, |sim.log|, NINE) && !(t.game.turn.Win? && t.game.started == s.game.started)
                    then Spotting.Spot(env, sim.balls, NINE, chance.spot).balls else sim.balls
    case _ => false
  }

  /** One call of `executeShot` that gives an answer. */
  ghost predicate CallTold(env: Env, w: World, s: Nine, shot: GameShot, chance: Chance, t: Nine, r: ShotResult) {
    && ClockTold(s.game, shot, t.game)
    && (r.OkLostTurn? <==> t.game.started != s.game.started)
    && if Late(s.game, shot) then r.Timeout? && Same(s, t) && t.balls == s.balls
       else if shot.decision.Concede? then
         && t.game.turn.Win? && t.game.started != s.game.started && t.balls == s.balls
         && CounterOf(t, true) == CounterOf(s, true) && CounterOf(t, false) == CounterOf(s, false)
       else if s.game.turn.PushOut? then DecisionTold(s, shot, t, r)
       else if !Allowed(env, s, shot) then r.BadParams? && Same(s, t) && t.balls == s.balls
       else PlayTold(env, w, s, shot, chance, t, r)
  }

  lemma AllowedIs(env: Env, s: Nine, shot: GameShot)
    requires ShotTurn(s.game.turn) && !shot.decision.Concede?
    ensures PreNine(env, s, shot) ==
      Prepared(if !Allowed(env, s, shot) then Rejected else if s.game.turn.Break? || s.game.turn.BallInHand? then PlaceCue else Execute, s)
  {
    hide Truncate;
  }

  lemma DecisionIs(env: Env, s: Nine, shot: GameShot)
    requires s.game.turn.PushOut? && !s.game.switched && !shot.decision.Concede?
    ensures PreNine(env, s, shot).Prepared?
    ensures var p := PreNine(env, s, shot);
      && (p.code.Rejected? || p.code.NoExecute?) && SwitchedOnce(s.game, p.state.game)
      && DecisionTold(s, shot, p.state, if p.code.Rejected? then BadParams else Verdict(p.state.game))
  {
    hide Truncate;
  }

  lemma ShotStarts(s: Nine, code: Code, shot: GameShot)
    requires NineInv(s) && ShotTurn(s.game.turn) && code == if s.game.turn.Break? || s.game.turn.BallInHand? then PlaceCue else Execute
    ensures var before := Before(s, shot);
      Aimed(s.balls, code, shot) == before && Full(before, BALLS) && (!code.PlaceCue? ==> OnTable(s.balls, CUE))
  {
    hide Place, OnTable, AtRest;
    AimedReady(s.balls, code, shot, BALLS);
  }

  lemma ShotPlayed(env: Env, w: World, s: Nine, code: Code, shot: GameShot, chance: Chance)
    requires Lawful(w) && NineInv(s) && ShotTurn(s.game.turn) && !s.game.switched
    requires code == if s.game.turn.Break? || s.game.turn.BallInHand? then PlaceCue else Execute
    requires PlayNine(env, w, s, code, shot, chance).Executed?
    ensures var e := PlayNine(env, w, s, code, shot, chance);
      && PlayTold(env, w, s, shot, chance, e.state, e.result)
      && SwitchedOnce(s.game, e.state.game) && (e.result.OkLostTurn? <==> e.state.game.started != s.game.started)
  {
    hide Simulate, Lawful, Aimed, Before, JudgeNine, PlayNine, Full, AtRest, OnTable, Told, Ready, Played, ShotTold, NineInv, SwitchedOnce;
    hide PocketedBy, Spotting.Spot, Verdict;
    ShotStarts(s, code, shot);
    var before := Before(s, shot);
    var run := Simulate(w, before, shot.params, true);
    if !run.Finished? {
      PlayRefused(env, w, s, code, shot, chance);
      NotSwitched(s.game);
    } else {
      PlayFinished(env, w, s, code, shot, chance);
      var played := s.(balls := run.sim.balls);
      PlayedFull(played, run.sim.log);
      if JudgeNine(env, played, run.sim.log, shot, chance).Some? {
        JudgeTold(env, played, before, run.sim.log, shot, chance);
        var t := JudgeNine(env, played, run.sim.log, shot, chance).value;
        ShotSame(s, played, before, run.sim.log, shot, t);
        SwitchedVerdict(s.game, t.game);
      }
    }
  }

  /** What is told of a shot does not depend on the balls of the state, nor on the clocks. */
  lemma ShotSame(s: Nine, u: Nine, before: seq<Ball>, log: seq<Record>, shot: GameShot, t: Nine)
    requires Same(s, u)
    ensures ShotTold(u, before, log, shot, t) <==> ShotTold(s, before, log, shot, t)
  {
    hide Fouls, Made, PocketedBy;
  }

  lemma PlaySame(env: Env, w: World, s: Nine, u: Nine, shot: GameShot, chance: Chance, t: Nine, r: ShotResult)
    requires Same(s, u) && u.balls == s.balls
    ensures PlayTold(env, w, u, shot, chance, t, r) <==> PlayTold(env, w, s, shot, chance, t, r)
  {
    hide Simulate, Told, ShotTold, PocketedBy, Spotting.Spot, Place;
    var run := Simulate(w, Before(s, shot), shot.params, true);
    if run.Finished? {
      ShotSame(s, u, Before(s, shot), run.sim.log, shot, t);
    }
  }

  lemma NineTurns(s: Nine)
    requires NineInv(s) && !s.game.turn.Win?
    ensures ShotTurn(s.game.turn) || s.game.turn.PushOut?
  {
    hide Full, AtRest, OnTable;
  }

  lemma Conceded(env: Env, s: Nine, shot: GameShot)
    requires shot.decision.Concede? && !s.game.switched
    ensures var p := PreNine(env, s, shot);
      && p.Prepared? && p.code.NoExecute? && SwitchedOnce(s.game, p.state.game) && Verdict(p.state.game).OkLostTurn?
      && p.state.game.turn.Win? && p.state.game.started != s.game.started && p.state.balls == s.balls
      && CounterOf(p.state, true) == CounterOf(s, true) && CounterOf(p.state, false) == CounterOf(s, false)
  {
    hide Truncate;
  }

  lemma CallSwitches(env: Env, w: World, s: Nine, shot: GameShot, chance: Chance)
    requires Lawful(w) && NineInv(s) && !s.game.turn.Win? && ExecuteNine(env, w, s, shot, chance).Executed?
    ensures SwitchedOnce(Charge(s.game, shot), ExecuteNine(env, w, s, shot, chance).state.game)
  {
    var charged := s.(game := Charge(s.game, shot));
    ChargedInv(s, shot);
    hide Lawful, NineInv, PlayNine, PreNine, PlayTold, DecisionTold, SwitchedOnce, Simulate, Truncate;
    NineTurns(s);
    NotSwitched(charged.game);
    if OutOfTime(s.game, shot) {
    } else if shot.decision.Concede? {
      Conceded(env, charged, shot);
    } else if s.game.turn.PushOut? {
      DecisionIs(env, charged, shot);
    } else {
      AllowedIs(env, charged, shot);
      if Allowed(env, charged, shot) {
        ShotPlayed(env, w, charged, PreNine(env, charged, shot).code, shot, chance);
      }
    }
  }

  /** One call of `executeShot`, told in full. */
  lemma NineCall(env: Env, w: World, s: Nine, shot: GameShot, chance: Chance)
    requires Lawful(w) && NineInv(s) && !s.game.turn.Win? && ExecuteNine(env, w, s, shot, chance).Executed?
    ensures var e := ExecuteNine(env, w, s, shot, chance); CallTold(env, w, s, shot, chance, e.state, e.result)
  {
    var charged := s.(game := Charge(s.game, shot));
    ChargedInv(s, shot);
    LateIs(s.game, shot);
    hide Lawful, NineInv, PlayNine, PreNine, PlayTold, SwitchedOnce, Simulate, Truncate;
    NineTurns(s);
    var e := ExecuteNine(env, w, s, shot, chance);
    assert SwitchedOnce(charged.game, e.state.game) by {
      CallSwitches(env, w, s, shot, chance);
    }
    ChargeTold(s.game, shot, e.state.game);
    hide ClockTold;
    if Late(s.game, shot) {
    } else if shot.decision.Concede? {
      Conceded(env, charged, shot);
    } else if s.game.turn.PushOut? {
      DecisionIs(env, charged, shot);
      SwitchedVerdict(charged.game, PreNine(env, charged, shot).state.game);
    } else {
      AllowedIs(env, charged, shot);
      if Allowed(env, s, shot) {
        ShotPlayed(env, w, charged, PreNine(env, charged, shot).code, shot, chance);
        PlaySame(env, w, s, charged, shot, chance, e.state, e.result);
      }
    }
  }

  /** So with every call of every game. */
  lemma NineGameCall(env: Env, w: World, ss: seq<Nine>, moves: seq<Move>, results: seq<ShotResult>, k: nat)
    requires Lawful(w) && IsNineGame(env, w, ss, moves, results) && k < |moves|
    ensures |ss| == |moves| + 1 && |results| == |moves|
    ensures CallTold(env, w, ss[k], moves[k].shot, moves[k].chance, ss[k + 1], results[k])
  {
    hide Lawful, NineInv, ExecuteNine, IsNineGame, CallTold;
    NineGameLengths(env, w, ss, moves, results);
    NineHandshake(env, w, ss, moves, results, k);
    NineGameStep(env, w, ss, moves, results, k, k + 1);
    NineCall(env, w, ss[k], moves[k].shot, moves[k].chance);
  }
}
