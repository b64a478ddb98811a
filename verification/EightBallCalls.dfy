/** One call of `executeShot` in eight-ball, told by what the player asks for, the table before the shot
    and the event list: who shoots next and how, who owns which group, and who has won. */
module EightBallCalls {
  import opened Balls
  import opened Events
  import opened Kinematics
  import opened Scheduling
  import opened SchedulerLaws
  import opened SchedulerInvariants
  import opened ShotStory
  import opened Spotting
  import opened Games
  import opened EightBall
  import opened EightBallGames

  // ---------------------------------------------------------------- what a shot comes to

  /** The called ball fell into the called pocket. */
  ghost predicate FellAsCalled(log: seq<Record>, shot: GameShot) {
    exists k :: 0 <= k < |log| && log[k].event.kind.Pocketed? && log[k].event.ball1 == shot.ball && log[k].event.kind.pocket == shot.pocket
  }

  /** A ball the player may call: of the own group, or of either while the table is open. */
  predicate Own(s: Eight, ball: int) {
    if s.openTable then 1 <= ball <= 7 || 9 <= ball <= 15 else if s.solids then 1 <= ball <= 7 else 9 <= ball <= 15
  }

  ghost predicate Makes(s: Eight, log: seq<Record>, shot: GameShot) { Own(s, shot.ball) && FellAsCalled(log, shot) }

  /** After some event up to the first contact the cue ball is still behind the head string. */
  ghost predicate LeavesLate(env: Env, log: seq<Record>) {
    exists j: nat, k: nat :: 1 <= j <= k && FirstCollision(log, k) && StillBehind(env, log[j])
  }

  /** The fouls: the cue ball pocketed; nothing hit; no ball made and none driven to a rail; from behind the
      line, the area left too early; on a closed table, a ball hit first that is neither of the own group
      nor, with that group gone, the eight. */
  ghost predicate Fouls(env: Env, s: Eight, before: seq<Ball>, log: seq<Record>, shot: GameShot) {
    || PocketedBy(log, |log|, CUE)
    || !ContactBy(log, |log|)
    || (!RailAfterContact(log, |log|) && !Makes(s, log, shot))
    || (s.game.turn.BehindLine? && !LeavesLate(env, log))
    || (!s.openTable &&
        if GroupGone(before, s.solids) then !HitFirst(log, EIGHT)
        else !exists b: BallId :: InGroup(s.solids, b) && HitFirst(log, b))
  }

  /** The eight went down in a shot that wins. */
  ghost predicate Finishes(env: Env, s: Eight, before: seq<Ball>, log: seq<Record>, shot: GameShot) {
    && !s.openTable && GroupGone(before, s.solids) && HitFirst(log, EIGHT)
    && !PocketedBy(log, |log|, CUE)
    && (RailAfterContact(log, |log|) || (shot.ball == EIGHT && FellAsCalled(log, shot)))
    && (s.game.turn.BehindLine? ==> LeavesLate(env, log))
  }

  /** What a shot other than the break comes to. The player stays at the table after a ball made without
      foul, which closes an open table in favour of its group; a foul gives the opponent ball in hand;
      anything else gives the opponent the turn; the eight ends the game. */
  ghost predicate ShotTold(env: Env, s: Eight, before: seq<Ball>, log: seq<Record>, shot: GameShot, t: Eight) {
    var over, foul := PocketedBy(log, |log|, EIGHT), Fouls(env, s, before, log, shot);
    var stays := if over then Finishes(env, s, before, log, shot) else !foul && Makes(s, log, shot);
    && (t.game.started == s.game.started <==> stays)
    && t.game.turn == (if over then Win else if foul then BallInHand else Normal)
    && (t.openTable <==> s.openTable && (over || !stays))
    && (if s.openTable && !t.openTable then t.solids == (shot.ball < 8) else StarterSolids(t) == StarterSolids(s))
  }

  /** What the break comes to: a ball pocketed or four rails, or the opponent decides. */
  ghost predicate BreakTold(s: Eight, log: seq<Record>, t: Eight) {
    var eight, scratch := PocketedBy(log, |log|, EIGHT), PocketedBy(log, |log|, CUE);
    var fair := |Entries(log, |log|, AnyRail)| >= 4 || exists b: BallId :: b != CUE && PocketedBy(log, |log|, b);
    && t.openTable && StarterSolids(t) == StarterSolids(s)
    && t.game.turn == (if eight then EightOnBreak else if scratch then BehindLine else if fair then Normal else FoulOnBreak)
    && (t.game.started == s.game.started <==> !scratch && (eight || fair))
  }

  // ---------------------------------------------------------------- judging

  /** As long as the eight stays up, the legal balls are the called ones of the own group. */
  lemma LegalMakes(s: Eight, log: seq<Record>, shot: GameShot)
    requires !PocketedBy(log, |log|, EIGHT)
    ensures LegalBy(s, log, |log|, shot) <==> Makes(s, log, shot)
  {
    hide AllSunk;
    if Makes(s, log, shot) {
      var k :| 0 <= k < |log| && log[k].event.kind.Pocketed? && log[k].event.ball1 == shot.ball && log[k].event.kind.pocket == shot.pocket;
      assert LegalAt(s, log, k, shot);
    }
  }

  /** The head string test, in the words of `LeavesLate`. */
  lemma LateIff(env: Env, s: Eight, before: seq<Ball>, log: seq<Record>, shot: GameShot)
    requires Told(before, s.balls, log) && s.game.turn.BehindLine? && ContactBy(log, |log|)
    ensures PastHeadString(env, log, |log|) <==> LeavesLate(env, log)
  {
    FirstBallIs(log, |log|, CUE);
    hide Told, FirstBall, FirstCollision, PastHeadString, StillBehind, FoulPlay;
    var k: nat :| k < |log| && FirstCollision(log, k);
    BehindLineInverted(env, s, before, log, shot, k);
    forall i: nat | FirstCollision(log, i)
      ensures i == k
    {
      OneFirst(log, i, k);
    }
  }

  lemma FoulsIs(env: Env, s: Eight, before: seq<Ball>, log: seq<Record>, shot: GameShot)
    requires Told(before, s.balls, log) && Full(before, BALLS) && !PocketedBy(log, |log|, EIGHT)
    ensures Fouls(env, s, before, log, shot) <==> PocketedBy(log, |log|, CUE) || FoulPlay(env, s, log, shot)
  {
    LegalMakes(s, log, shot);
    AllSunkBefore(s, before, log);
    hide Told, Full, PocketedBy, ContactBy, RailAfterContact, LegalBy, Makes, AllSunk, GroupGone,
      HitFirst, FirstBall, PastHeadString, LeavesLate;
    if ContactBy(log, |log|) {
      if s.game.turn.BehindLine? {
        LateIff(env, s, before, log, shot);
      }
      HitFirstIs(log, CUE, EIGHT);
      forall b: BallId
        ensures HitFirst(log, b) <==> FirstBall(log, |log|, CUE) == b
      {
        HitFirstIs(log, CUE, b);
      }
    }
  }

  lemma FinishesIs(env: Env, s: Eight, before: seq<Ball>, log: seq<Record>, shot: GameShot)
    requires Told(before, s.balls, log)
    ensures Finishes(env, s, before, log, shot) <==> CleanFinish(env, s, before, log, shot)
  {
    HitFirstIs(log, CUE, EIGHT);
    CalledEight(log, shot);
    hide Told, PocketedBy, ContactBy, RailAfterContact, EightCalled, FellAsCalled, GroupGone,
      HitFirst, FirstBall, PastHeadString, LeavesLate;
    if ContactBy(log, |log|) && s.game.turn.BehindLine? {
      LateIff(env, s, before, log, shot);
    }
  }

  lemma CalledEight(log: seq<Record>, shot: GameShot)
    ensures EightCalled(log, shot) <==> shot.ball == EIGHT && FellAsCalled(log, shot)
  {
    if EightCalled(log, shot) {
      var k :| 0 <= k < |log| && log[k].event.ball1 == EIGHT && Called(log[k].event, shot);
      assert log[k].event.kind.Pocketed?;
    }
    if shot.ball == EIGHT && FellAsCalled(log, shot) {
      var k :| 0 <= k < |log| && log[k].event.kind.Pocketed? && log[k].event.ball1 == shot.ball && log[k].event.kind.pocket == shot.pocket;
      assert Called(log[k].event, shot);
    }
  }

  /** Every shot but the break is judged by what the table was before it. */
  lemma JudgeTold(env: Env, s: Eight, before: seq<Ball>, log: seq<Record>, shot: GameShot)
    requires Told(before, s.balls, log) && Full(before, BALLS)
    ensures ShotTold(env, s, before, log, shot, JudgeShot(env, s, log, shot)) && JudgeShot(env, s, log, shot).balls == s.balls
    ensures !s.game.switched ==> SwitchedOnce(s.game, JudgeShot(env, s, log, shot).game)
  {
    hide Told, Full, PocketedBy, FoulPlay, LegalBy, AllSunk, Fouls, Makes, Finishes, CleanFinish, Truncate;
    if PocketedBy(log, |log|, EIGHT) {
      EightDecides(env, s, before, log, shot);
      FinishesIs(env, s, before, log, shot);
    } else {
      FoulsIs(env, s, before, log, shot);
      LegalMakes(s, log, shot);
    }
  }

  lemma BreakJudged(env: Env, s: Eight, log: seq<Record>, chance: Chance)
    requires JudgeBreak(env, s, log, chance).Some? && !s.game.switched
    ensures var t := JudgeBreak(env, s, log, chance).value;
      && BreakTold(s, log, t) && SwitchedOnce(s.game, t.game)
      && t.balls == if PocketedBy(log, |log|, EIGHT) then Spotting.Spot(env, s.balls, EIGHT, chance.spot).balls else s.balls
  {
    hide PocketedBy, Tally, Entries, Spotting.Spot, Truncate;
    TallyIs(log, |log|, AnyRail);
    AnyFell(log);
  }

  lemma AnyFell(log: seq<Record>)
    ensures Tally(log, |log|, ObjectPocketed) > 0 <==> exists b: BallId :: b != CUE && PocketedBy(log, |log|, b)
  {
    TallyZero(log, |log|, ObjectPocketed);
    hide Tally;
    if Tally(log, |log|, ObjectPocketed) > 0 {
      var k :| 0 <= k < |log| && Counts(log[k].event, ObjectPocketed);
      assert PocketedBy(log, |log|, log[k].event.ball1);
    }
  }

  // ---------------------------------------------------------------- asking

  /** Turn, player at the table and groups are as before. */
  predicate Same(s: Eight, t: Eight) {
    t.game.turn == s.game.turn && t.game.started == s.game.started && t.openTable == s.openTable && t.solids == s.solids
  }

  /** The call asks for a shot the rules allow: with a cue ball placed behind the head string where it must
      be, and a ball and a pocket that exist unless it is the break. */
  predicate Allowed(env: Env, s: Eight, shot: GameShot) {
    && (s.game.turn.Break? || s.game.turn.BehindLine? ==> shot.cue.y >= 0.75 * env.table.length)
    && (!s.game.turn.Break? ==> 0 <= shot.ball <= 16 && 0 <= shot.pocket <= 6)
  }

  /** The table a shot is played on: the cue ball is placed first unless it lies where it came to rest. */
  function Before(s: Eight, shot: GameShot): seq<Ball> { if s.game.turn.Normal? then s.balls else Place(s.balls, CUE, shot.cue) }

  /** What a decision leads to: after a foul on the break, the same player or the other one breaks again or
      the same one shoots from behind the line; after an eight on the break, the same player breaks again
      or goes on. The balls are racked for a new break. */
  ghost predicate DecisionTold(env: Env, s: Eight, shot: GameShot, chance: Chance, t: Eight, r: ShotResult) {
    var foul, d := s.game.turn.FoulOnBreak?, shot.decision;
    var again := d.Rerack? || (foul && d.RerackOppShoot?);
    if again then
      && t.game.turn.Break? && (t.game.started != s.game.started <==> d.RerackOppShoot?)
      && t.openTable == s.openTable && StarterSolids(t) == StarterSolids(s)
      && chance.rack.Some? && t.balls == Racked(s.balls, EightSpots(env), chance.rack.value)
    else if d.KeepShooting? then
      && t.game.turn == (if !foul && OnTable(s.balls, CUE) then Normal else BehindLine)
      && t.game.started == s.game.started && t.openTable == s.openTable && t.solids == s.solids && t.balls == s.balls
    else r.BadParams? && Same(s, t) && t.balls == s.balls
  }

  /** What a shot played from here comes to, if it is accepted and the simulation ends. */
  ghost predicate PlayTold(env: Env, w: World, s: Eight, shot: GameShot, chance: Chance, t: Eight, r: ShotResult) {
    match Simulate(w, Before(s, shot), shot.params, true)
    case Refused => r.ShotImpossible? && Same(s, t) && t.balls == Before(s, shot)
    case Finished(sim) =>
      && !r.ShotImpossible? && !r.BadParams? && !r.Timeout?
      && Told(Before(s, shot), sim.balls, sim.log)
      && if s.game.turn.Break? then
           && BreakTold(s, sim.log, t)
           && t.balls == if PocketedBy(sim.log, |sim.log|, EIGHT)
                         then Spotting.Spot(env, sim.balls, EIGHT, chance.spot).balls else sim.balls
         else ShotTold(env, s, Before(s, shot), sim.log, shot, t) && t.balls == sim.balls
    case _ => false
  }

  /** One call of `executeShot` that gives an answer. */
  ghost predicate CallTold(env: Env, w: World, s: Eight, shot: GameShot, chance: Chance, t: Eight, r: ShotResult) {
    && ClockTold(s.game, shot, t.game)
    && (r.OkLostTurn? <==> t.game.started != s.game.started)
    && if Late(s.game, shot) then r.Timeout? && Same(s, t) && t.balls == s.balls
       else if shot.decision.Concede? then
         && t.game.turn.Win? && t.game.started != s.game.started
         && t.openTable == s.openTable && StarterSolids(t) == StarterSolids(s) && t.balls == s.balls
       else if s.game.turn.FoulOnBreak? || s.game.turn.EightOnBreak? then DecisionTold(env, s, shot, chance, t, r)
       else if !Allowed(env, s, shot) then r.BadParams? && Same(s, t) && t.balls == s.balls
       else PlayTold(env, w, s, shot, chance, t, r)
  }

  lemma AllowedIs(env: Env, s: Eight, shot: GameShot, chance: Chance)
    requires ShotTurn(s.game.turn) && !shot.decision.Concede?
    ensures PreEight(env, s, shot, chance) ==
      Prepared(if !Allowed(env, s, shot) then Rejected else if s.game.turn.Normal? then Execute else PlaceCue, s)
  {
    hide Racked, EightSpots, Truncate, Get;
  }

  lemma DecisionIs(env: Env, s: Eight, shot: GameShot, chance: Chance)
    requires EightInv(s) && !s.game.switched && !ShotTurn(s.game.turn) && !s.game.turn.Win?
    requires !shot.decision.Concede? && PreEight(env, s, shot, chance).Prepared?
    ensures var p := PreEight(env, s, shot, chance);
      && (p.code.Rejected? || p.code.NoExecute?) && SwitchedOnce(s.game, p.state.game)
      && DecisionTold(env, s, shot, chance, p.state, if p.code.Rejected? then BadParams else Verdict(p.state.game))
  {
    hide Racked, EightSpots, Truncate, Get, OnTable, AtRest, Full;
    TurnsHold(s);
  }

  lemma TurnsHold(s: Eight)
    requires EightInv(s)
    ensures EightTurn(s) && (OnTable(s.balls, CUE) <==> Get(s.balls, CUE).InPlay())
  {
    hide Get, OnTable, AtRest;
    OnTableGet(s.balls, CUE);
  }

  lemma ShotPlayed(env: Env, w: World, s: Eight, code: Code, shot: GameShot, chance: Chance)
    requires Lawful(w) && EightInv(s) && ShotTurn(s.game.turn) && !s.game.switched
    requires code == if s.game.turn.Normal? then Execute else PlaceCue
    requires PlayEight(env, w, s, code, shot, chance).Executed?
    ensures var e := PlayEight(env, w, s, code, shot, chance);
      && PlayTold(env, w, s, shot, chance, e.state, e.result)
      && SwitchedOnce(s.game, e.state.game) && (e.result.OkLostTurn? <==> e.state.game.started != s.game.started)
  {
    hide Simulate, Lawful, Aimed, Before, JudgeBreak, JudgeShot, PlayEight, Full, AtRest, OnTable, Told, Ready, Played,
      BreakTold, ShotTold, EightInv, SwitchedOnce;
    hide PocketedBy, Spotting.Spot, Verdict;
    ShotStarts(s, code, shot);
    var before := Before(s, shot);
    var run := Simulate(w, before, shot.params, true);
    if !run.Finished? {
      PlayRefused(env, w, s, code, shot, chance);
      NotSwitched(s.game);
    } else {
      PlayFinished(env, w, s, code, shot, chance);
      var played := s.(balls := run.sim.balls);
      if s.game.turn.Break? {
        if JudgeBreak(env, played, run.sim.log, chance).Some? {
          BreakJudged(env, played, run.sim.log, chance);
          BreakSame(s, played, run.sim.log, JudgeBreak(env, played, run.sim.log, chance).value);
          SwitchedVerdict(s.game, JudgeBreak(env, played, run.sim.log, chance).value.game);
        }
      } else {
        JudgeTold(env, played, before, run.sim.log, shot);
        ShotSame(env, s, played, before, run.sim.log, shot, JudgeShot(env, played, run.sim.log, shot));
        SwitchedVerdict(s.game, JudgeShot(env, played, run.sim.log, shot).game);
      }
    }
  }

  lemma ShotStarts(s: Eight, code: Code, shot: GameShot)
    requires EightInv(s) && ShotTurn(s.game.turn) && code == if s.game.turn.Normal? then Execute else PlaceCue
    ensures var before := Before(s, shot);
      Aimed(s.balls, code, shot) == before && Full(before, BALLS) && (!code.PlaceCue? ==> OnTable(s.balls, CUE))
  {
    hide Place, OnTable, AtRest;
    AimedReady(s.balls, code, shot, BALLS);
  }

  /** Two states with the same groups, turn and player at the table. */
  predicate Alike(s: Eight, u: Eight) {
    u.openTable == s.openTable && u.solids == s.solids && u.game.turn == s.game.turn && u.game.started == s.game.started
  }

  /** What is told of a shot does not depend on the balls of the state, nor on the clocks. */
  lemma ShotSame(env: Env, s: Eight, u: Eight, before: seq<Ball>, log: seq<Record>, shot: GameShot, t: Eight)
    requires Alike(s, u)
    ensures ShotTold(env, u, before, log, shot, t) <==> ShotTold(env, s, before, log, shot, t)
  {
    hide GroupGone, HitFirst, PocketedBy, ContactBy, RailAfterContact, FellAsCalled, LeavesLate, InGroup;
  }

  lemma BreakSame(s: Eight, u: Eight, log: seq<Record>, t: Eight)
    requires Alike(s, u)
    ensures BreakTold(u, log, t) <==> BreakTold(s, log, t)
  {
    hide PocketedBy, Entries;
  }

  /** One call of `executeShot`, told in full. */
  lemma EightCall(env: Env, w: World, s: Eight, shot: GameShot, chance: Chance)
    requires Lawful(w) && EightInv(s) && !s.game.turn.Win? && ExecuteEight(env, w, s, shot, chance).Executed?
    ensures var e := ExecuteEight(env, w, s, shot, chance); CallTold(env, w, s, shot, chance, e.state, e.result)
  {
    var charged := s.(game := Charge(s.game, shot));
    ChargedInv(s, shot);
    LateIs(s.game, shot);
    hide Lawful, EightInv, PlayEight, PreEight, PlayTold, DecisionTold, SwitchedOnce, Simulate, Racked, EightSpots, Truncate;
    EightTurns(s);
    var e := ExecuteEight(env, w, s, shot, chance);
    assert SwitchedOnce(charged.game, e.state.game) by {
      CallSwitches(env, w, s, shot, chance);
    }
    ChargeTold(s.game, shot, e.state.game);
    hide ClockTold;
    if Late(s.game, shot) {
    } else if shot.decision.Concede? {
      Conceded(env, charged, shot, chance);
    } else if s.game.turn.FoulOnBreak? || s.game.turn.EightOnBreak? {
      DecisionIs(env, charged, shot, chance);
      SwitchedVerdict(charged.game, PreEight(env, charged, shot, chance).state.game);
      DecisionSame(env, s, charged, shot, chance, e.state, e.result);
    } else {
      AllowedIs(env, charged, shot, chance);
      if Allowed(env, s, shot) {
        ShotPlayed(env, w, charged, PreEight(env, charged, shot, chance).code, shot, chance);
        PlaySame(env, w, s, charged, shot, chance, e.state, e.result);
      }
    }
  }

  lemma EightTurns(s: Eight)
    requires EightInv(s) && !s.game.turn.Win?
    ensures ShotTurn(s.game.turn) || s.game.turn.FoulOnBreak? || s.game.turn.EightOnBreak?
  {
    hide Full, AtRest, OnTable;
  }

  lemma Conceded(env: Env, s: Eight, shot: GameShot, chance: Chance)
    requires shot.decision.Concede? && !s.game.switched
    ensures var p := PreEight(env, s, shot, chance);
      && p.Prepared? && p.code.NoExecute? && SwitchedOnce(s.game, p.state.game) && Verdict(p.state.game).OkLostTurn?
      && p.state.game.turn.Win? && p.state.game.started != s.game.started && p.state.openTable == s.openTable
      && StarterSolids(p.state) == StarterSolids(s) && p.state.balls == s.balls
  {
    hide Racked, EightSpots, Truncate;
  }

  lemma CallSwitches(env: Env, w: World, s: Eight, shot: GameShot, chance: Chance)
    requires Lawful(w) && EightInv(s) && !s.game.turn.Win? && ExecuteEight(env, w, s, shot, chance).Executed?
    ensures SwitchedOnce(Charge(s.game, shot), ExecuteEight(env, w, s, shot, chance).state.game)
  {
    var charged := s.(game := Charge(s.game, shot));
    ChargedInv(s, shot);
    hide Lawful, EightInv, PlayEight, PreEight, PlayTold, DecisionTold, SwitchedOnce, Simulate, Racked, EightSpots, Truncate;
    EightTurns(s);
    NotSwitched(charged.game);
    if OutOfTime(s.game, shot) {
    } else if shot.decision.Concede? {
      Conceded(env, charged, shot, chance);
    } else if s.game.turn.FoulOnBreak? || s.game.turn.EightOnBreak? {
      DecisionIs(env, charged, shot, chance);
    } else {
      AllowedIs(env, charged, shot, chance);
      if Allowed(env, charged, shot) {
        ShotPlayed(env, w, charged, PreEight(env, charged, shot, chance).code, shot, chance);
      }
    }
  }

  /** What is told of a decision or a shot does not depend on the clocks. */
  lemma DecisionSame(env: Env, s: Eight, u: Eight, shot: GameShot, chance: Chance, t: Eight, r: ShotResult)
    requires u == s.(game := u.game) && u.game.turn == s.game.turn && u.game.started == s.game.started
    ensures DecisionTold(env, u, shot, chance, t, r) <==> DecisionTold(env, s, shot, chance, t, r)
  {
    hide Racked, EightSpots, OnTable;
  }

  lemma PlaySame(env: Env, w: World, s: Eight, u: Eight, shot: GameShot, chance: Chance, t: Eight, r: ShotResult)
    requires u == s.(game := u.game) && u.game.turn == s.game.turn && u.game.started == s.game.started
    ensures PlayTold(env, w, u, shot, chance, t, r) <==> PlayTold(env, w, s, shot, chance, t, r)
  {
    hide Simulate, Told, ShotTold, BreakTold, PocketedBy, Spotting.Spot, Place;
    var run := Simulate(w, Before(s, shot), shot.params, true);
    if run.Finished? {
      ShotSame(env, s, u, Before(s, shot), run.sim.log, shot, t);
      BreakSame(s, u, run.sim.log, t);
    }
  }

  /** So with every call of every game. */
  lemma EightGameCall(env: Env, w: World, ss: seq<Eight>, moves: seq<Move>, results: seq<ShotResult>, k: nat)
    requires Lawful(w) && IsEightGame(env, w, ss, moves, results) && k < |moves|
    ensures |ss| == |moves| + 1 && |results| == |moves|
    ensures CallTold(env, w, ss[k], moves[k].shot, moves[k].chance, ss[k + 1], results[k])
  {
    hide Lawful, EightInv, ExecuteEight, IsEightGame, CallTold;
    EightGameLengths(env, w, ss, moves, results);
    EightHandshake(env, w, ss, moves, results, k);
    EightGameStep(env, w, ss, moves, results, k, k + 1);
    EightCall(env, w, ss[k], moves[k].shot, moves[k].chance);
  }
}
