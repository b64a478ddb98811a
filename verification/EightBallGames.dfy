/** Whole games of eight-ball: who owns which group, who wins, and that the referee, who sees only
    the table after the shot and the event list, judges by the table before it. */
module EightBallGames {
  import opened Balls
  import opened Events
  import opened Kinematics
  import opened Scheduling
  import opened SchedulerLaws
  import opened SchedulerInvariants
  import opened ShotStory
  import opened Games
  import opened EightBall

  // ---------------------------------------------------------------- pre-shot facts

  /** All seven balls of a group were in pockets. */
  ghost predicate GroupGone(balls: seq<Ball>, solids: bool) {
    forall id: BallId :: InGroup(solids, id) ==> Find(balls, id) < |balls| && Get(balls, id).IsPocketed()
  }

  /** What the referee takes for "all sunk" from the table after the shot and its events is that
      the table was closed and the shooter's seven balls were down before the shot. */
  lemma AllSunkBefore(s: Eight, before: seq<Ball>, log: seq<Record>)
    requires Told(before, s.balls, log) && Full(before, BALLS)
    ensures AllSunk(s, log, |log|) <==> !s.openTable && GroupGone(before, s.solids)
  {
    hide Told;
    forall id: BallId | InGroup(s.solids, id)
      ensures Find(before, id) < |before|
      ensures Get(s.balls, id).IsPocketed() && !PocketedBy(log, |log|, id) <==> Get(before, id).IsPocketed()
    {
      OnTableAfter(before, s.balls, log, id);
    }
    if GroupGone(before, s.solids) {
      forall k | 0 <= k < |log| && log[k].event.kind.Pocketed?
        ensures !InGroup(s.solids, log[k].event.ball1)
      {
        assert PocketedBy(log, |log|, log[k].event.ball1);
      }
    }
    if GroupDown(s.balls, s.solids) && !GroupPocketed(log, |log|, s.solids) {
      forall id: BallId | InGroup(s.solids, id)
        ensures Get(before, id).IsPocketed()
      {
        assert !PocketedBy(log, |log|, id);
      }
    }
  }

  /** The called eight fell into the called pocket. */
  ghost predicate EightCalled(log: seq<Record>, shot: GameShot) {
    exists k :: 0 <= k < |log| && log[k].event.ball1 == EIGHT && Called(log[k].event, shot)
  }

  /** What winning with the eight takes. */
  ghost predicate CleanFinish(env: Env, s: Eight, before: seq<Ball>, log: seq<Record>, shot: GameShot) {
    && !s.openTable && GroupGone(before, s.solids)
    && !PocketedBy(log, |log|, CUE)
    && ContactBy(log, |log|) && FirstBall(log, |log|, CUE) == EIGHT
    && (RailAfterContact(log, |log|) || EightCalled(log, shot))
    && (s.game.turn.BehindLine? ==> PastHeadString(env, log, |log|))
  }

  /** The legal ball of a shot with nothing but the eight left is the called eight. */
  lemma LegalEight(s: Eight, log: seq<Record>, shot: GameShot)
    requires AllSunk(s, log, |log|)
    ensures LegalBy(s, log, |log|, shot) <==> EightCalled(log, shot)
  {
    hide GroupDown;
    var n := |log|;
    if LegalBy(s, log, n, shot) {
      var k :| 0 <= k < n && LegalAt(s, log, k, shot);
      assert !InGroup(s.solids, log[k].event.ball1);
    }
    if EightCalled(log, shot) {
      var k :| 0 <= k < n && log[k].event.ball1 == EIGHT && Called(log[k].event, shot);
      assert LegalAt(s, log, k, shot);
    }
  }

  /** A shot other than the break ends the game exactly when it pockets the eight, and the shooter
      wins exactly with a clean finish; calling the eight is not required of a shot that drives a
      ball to a rail. */
  lemma EightDecides(env: Env, s: Eight, before: seq<Ball>, log: seq<Record>, shot: GameShot)
    requires Told(before, s.balls, log) && Full(before, BALLS)
    ensures var t := JudgeShot(env, s, log, shot);
      && (t.game.turn.Win? <==> PocketedBy(log, |log|, EIGHT))
      && (t.game.turn.Win? ==> (t.game.started == s.game.started <==> CleanFinish(env, s, before, log, shot)))
  {
    AllSunkBefore(s, before, log);
    if AllSunk(s, log, |log|) {
      LegalEight(s, log, shot);
    }
    hide Told, AllSunk, LegalBy, GroupGone, EightCalled, Truncate, ContactBy, RailAfterContact, PastHeadString, FirstBall, PocketedBy;
  }

  // ---------------------------------------------------------------- shots from behind the line

  /** After that entry the cue ball lies strictly on the side of the head string it has to be placed on. */
  ghost predicate StillBehind(env: Env, r: Record) { AboutCue(r) && r.data1.value.r.y > env.table.HeadString() }

  /** The foul of not leaving the area behind the head string is looked for on the wrong side of it: a
      shot passes if after some entry up to the first contact the cue ball still lies in that area, and
      fouls if it has left the area before the first of them. In particular hitting a ball within the
      area is allowed. */
  lemma BehindLineInverted(env: Env, s: Eight, before: seq<Ball>, log: seq<Record>, shot: GameShot, k: nat)
    requires Told(before, s.balls, log) && s.game.turn.BehindLine? && FirstCollision(log, k)
    ensures PastHeadString(env, log, |log|) <==> exists j :: 1 <= j <= k && StillBehind(env, log[j])
    ensures StillBehind(env, log[k]) ==> PastHeadString(env, log, |log|)
    ensures (forall j :: 1 <= j <= k ==> !StillBehind(env, log[j])) ==> FoulPlay(env, s, log, shot)
  {
    hide Accounted, Sorted, PocketingFinal, AllSunk, LegalBy, RailAfterContact, FirstBall, InGroup;
    assert k >= 1;
    forall j: nat | j <= k
      ensures AboutCue(log[j]) && !ContactBy(log, j)
    {
      assert forall i :: 0 <= i < j ==> log[i] == log[..k][i];
      assert NoContact(log[..j]);
    }
    forall j | k < j < |log|
      ensures ContactBy(log, j)
    {
      assert log[k].event.kind.BallCollision?;
    }
  }

  // ---------------------------------------------------------------- ownership

  /** Whether the player who broke first shoots solids. */
  predicate StarterSolids(s: Eight) { s.solids == s.game.started }

  /** Who owns which group changes only when the table is closed, and a closed table stays so. */
  ghost predicate OwnershipKept(s: Eight, t: Eight) {
    && (StarterSolids(t) != StarterSolids(s) ==> s.openTable && !t.openTable)
    && (!s.openTable ==> !t.openTable)
  }

  /** The table is closed by a legally pocketed object ball, never the eight, and its group goes
      to the shooter, who keeps the turn. */
  ghost predicate ClosedBy(s: Eight, t: Eight, shot: GameShot) {
    s.openTable && !t.openTable ==>
      && t.game.turn.Normal? && t.game.started == s.game.started
      && InGroup(t.solids, shot.ball)
  }

  lemma SwitchKeepsOwnership(s: Eight)
    ensures StarterSolids(SwitchEight(s)) == StarterSolids(s) && SwitchEight(s).openTable == s.openTable
    ensures SwitchEight(s).game.started == !s.game.started && SwitchEight(s).game.switched == !s.game.switched
  {
  }

  lemma ShotOwnership(env: Env, s: Eight, log: seq<Record>, shot: GameShot)
    ensures var t := JudgeShot(env, s, log, shot);
      && OwnershipKept(s, t) && ClosedBy(s, t, shot)
      && (s.game.switched == t.game.switched <==> s.game.started == t.game.started)
  {
    hide FoulPlay, AllSunk, PocketedBy, Truncate;
    SwitchKeepsOwnership(s);
    if s.openTable && LegalBy(s, log, |log|, shot) {
      OpenLegal(s, log, shot);
    }
    hide LegalBy;
  }

  /** On an open table a legal ball is one of either group. */
  lemma OpenLegal(s: Eight, log: seq<Record>, shot: GameShot)
    requires s.openTable && LegalBy(s, log, |log|, shot)
    ensures InGroup(shot.ball < EIGHT, shot.ball)
  {
    var k :| 0 <= k < |log| && LegalAt(s, log, k, shot);
    assert !AllSunk(s, log, k);
  }

  lemma BreakOwnership(env: Env, s: Eight, log: seq<Record>, chance: Chance)
    requires s.openTable && JudgeBreak(env, s, log, chance).Some?
    ensures var t := JudgeBreak(env, s, log, chance).value;
      && OwnershipKept(s, t) && t.openTable
      && (s.game.switched == t.game.switched <==> s.game.started == t.game.started)
  {
    hide PocketedBy, Tally, Spotting.Spot, Truncate;
  }

  lemma PreOwnership(env: Env, s: Eight, shot: GameShot, chance: Chance)
    requires PreEight(env, s, shot, chance).Prepared?
    ensures var p := PreEight(env, s, shot, chance);
      && OwnershipKept(s, p.state) && p.state.openTable == s.openTable
      && (s.game.switched == p.state.game.switched <==> s.game.started == p.state.game.started)
      && (p.code.Rejected? ==> p.state == s)
  {
    hide Truncate, Get, Racked, EightSpots;
  }

  /** One call of `executeShot`: ownership moves only as described, and SR_OK_LOST_TURN is
      answered exactly when the player at the table changes. */
  lemma EightOwnership(env: Env, w: World, s: Eight, shot: GameShot, chance: Chance)
    requires Lawful(w) && EightInv(s) && !s.game.turn.Win? && ExecuteEight(env, w, s, shot, chance).Executed?
    ensures var e := ExecuteEight(env, w, s, shot, chance);
      && OwnershipKept(s, e.state) && ClosedBy(s, e.state, shot)
      && (e.result.OkLostTurn? <==> e.state.game.started != s.game.started)
  {
    ChargedInv(s, shot);
    var charged := s.(game := Charge(s.game, shot));
    hide Lawful, EightInv, PlayEight, PreEight;
    var pre := PreEight(env, charged, shot, chance);
    if pre.Prepared? && !OutOfTime(s.game, shot) {
      PreOwnership(env, charged, shot, chance);
      PreEightShoots(env, charged, shot, chance);
      if pre.code.Execute? || pre.code.PlaceCue? {
        PlayOwnership(env, w, charged, pre.code, shot, chance);
      }
    }
  }

  lemma PlayOwnership(env: Env, w: World, s: Eight, code: Code, shot: GameShot, chance: Chance)
    requires Lawful(w) && EightInv(s) && ShotTurn(s.game.turn) && !s.game.switched && (!code.PlaceCue? ==> OnTable(s.balls, CUE))
    requires PlayEight(env, w, s, code, shot, chance).Executed?
    ensures var e := PlayEight(env, w, s, code, shot, chance);
      && OwnershipKept(s, e.state) && ClosedBy(s, e.state, shot)
      && (e.result.OkLostTurn? <==> e.state.game.started != s.game.started)
  {
    var sim := Simulate(w, Aimed(s.balls, code, shot), shot.params, true);
    assert s.game.turn.Break? ==> s.openTable;
    hide Lawful, EightInv, PlayEight, JudgeShot, JudgeBreak, Simulate, Aimed, Told, Played, OnTable;
    if !sim.Finished? {
      PlayRefused(env, w, s, code, shot, chance);
    } else {
      PlayFinished(env, w, s, code, shot, chance);
      var played := s.(balls := sim.sim.balls);
      if s.game.turn.Break? {
        if JudgeBreak(env, played, sim.sim.log, chance).Some? {
          BreakOwnership(env, played, sim.sim.log, chance);
        }
      } else {
        ShotOwnership(env, played, sim.sim.log, shot);
      }
    }
  }

  // ---------------------------------------------------------------- whole games

  /** A game from the rack on: each call returns, none is made once the game is won, and no
      simulation breaks off half way. */
  ghost predicate IsEightGame(env: Env, w: World, ss: seq<Eight>, moves: seq<Move>, results: seq<ShotResult>) {
    && |ss| == |moves| + 1 && |results| == |moves|
    && (exists timeLeft, timeLeftOpp, noise :: ss[0] == NewEight(env, timeLeft, timeLeftOpp, noise))
    && forall j, k :: 0 <= j < |moves| && k == j + 1 ==>
         !ss[j].game.turn.Win? && ExecuteEight(env, w, ss[j], moves[j].shot, moves[j].chance) == Executed(ss[k], results[j])
  }

  lemma EightGameLengths(env: Env, w: World, ss: seq<Eight>, moves: seq<Move>, results: seq<ShotResult>)
    requires IsEightGame(env, w, ss, moves, results)
    ensures |ss| == |moves| + 1 && |results| == |moves|
  {
  }

  lemma EightGameStep(env: Env, w: World, ss: seq<Eight>, moves: seq<Move>, results: seq<ShotResult>, j: nat, k: nat)
    requires IsEightGame(env, w, ss, moves, results) && j < |moves| && k == j + 1
    ensures !ss[j].game.turn.Win? && ExecuteEight(env, w, ss[j], moves[j].shot, moves[j].chance) == Executed(ss[k], results[j])
  {
    hide ExecuteEight;
  }

  /** In every state of every game the table is full and at rest, the cue ball is on it unless
      the next shot places it, the eight is on it until the game is won, and every call of the
      physics meets the simulator's demands. */
  lemma {:induction false} EightHandshake(env: Env, w: World, ss: seq<Eight>, moves: seq<Move>, results: seq<ShotResult>, k: nat)
    requires Lawful(w) && IsEightGame(env, w, ss, moves, results) && k < |ss|
    ensures EightInv(ss[k])
    ensures k < |moves| && Shoots(env, ss[k], moves[k].shot, moves[k].chance) ==>
              Ready(ShotTable(env, ss[k], moves[k].shot, moves[k].chance))
  {
    hide Lawful, EightInv, ExecuteEight, NewEight, Shoots, ShotTable, Ready;
    if k == 0 {
      var timeLeft, timeLeftOpp, noise :| ss[0] == NewEight(env, timeLeft, timeLeftOpp, noise);
      NewEightInv(env, timeLeft, timeLeftOpp, noise);
    } else {
      EightHandshake(env, w, ss, moves, results, k - 1);
      EightGameStep(env, w, ss, moves, results, k - 1, k);
      EightStep(env, w, ss[k - 1], moves[k - 1].shot, moves[k - 1].chance);
    }
    if k < |moves| {
      EightGameStep(env, w, ss, moves, results, k, k + 1);
      EightStep(env, w, ss[k], moves[k].shot, moves[k].chance);
    }
  }

  /** Step `j` closes the table. */
  predicate Closes(ss: seq<Eight>, j: nat)
    requires j + 1 < |ss|
  {
    ss[j].openTable && !ss[j + 1].openTable
  }

  /** Over a whole game the groups change owner at most at the one step that closes the table, a
      closed table never reopens, and the answer to each call tells whether the turn was lost. */
  lemma {:induction false} EightGroups(env: Env, w: World, ss: seq<Eight>, moves: seq<Move>, results: seq<ShotResult>, i: nat, k: nat)
    requires Lawful(w) && IsEightGame(env, w, ss, moves, results) && i <= k < |ss|
    ensures !ss[i].openTable ==> !ss[k].openTable
    ensures StarterSolids(ss[k]) != StarterSolids(ss[i]) ==> ss[i].openTable && !ss[k].openTable
    ensures k < |moves| ==> (results[k].OkLostTurn? <==> ss[k + 1].game.started != ss[k].game.started)
    ensures k < |moves| && Closes(ss, k) ==>
              && InGroup(ss[k + 1].solids, moves[k].shot.ball)
              && ss[k + 1].game.started == ss[k].game.started && ss[k + 1].game.turn.Normal?
    decreases k
  {
    hide Lawful, EightInv, ExecuteEight, IsEightGame;
    EightGameLengths(env, w, ss, moves, results);
    if i < k {
      EightGroups(env, w, ss, moves, results, i, k - 1);
      EightGameStep(env, w, ss, moves, results, k - 1, k);
      EightHandshake(env, w, ss, moves, results, k - 1);
      EightOwnership(env, w, ss[k - 1], moves[k - 1].shot, moves[k - 1].chance);
    }
    if k < |moves| {
      EightGameStep(env, w, ss, moves, results, k, k + 1);
      EightHandshake(env, w, ss, moves, results, k);
      EightOwnership(env, w, ss[k], moves[k].shot, moves[k].chance);
    }
  }

  /** The shot of step `k` was played out and judged. */
  ghost predicate PlayedOut(env: Env, w: World, s: Eight, move: Move) {
    && Shoots(env, s, move.shot, move.chance)
    && Simulate(w, ShotTable(env, s, move.shot, move.chance), move.shot.params, true).Finished?
  }

  /** In every game, what decides a shot with the eight is the table before it. */
  lemma EightVerdicts(env: Env, w: World, ss: seq<Eight>, moves: seq<Move>, results: seq<ShotResult>, k: nat)
    requires Lawful(w) && IsEightGame(env, w, ss, moves, results) && k < |moves|
    requires PlayedOut(env, w, ss[k], moves[k]) && !ss[k].game.turn.Break?
    ensures var before := ShotTable(env, ss[k], moves[k].shot, moves[k].chance);
      var sim := Simulate(w, before, moves[k].shot.params, true).sim;
      && Told(before, sim.balls, sim.log)
      && (ss[k + 1].game.turn.Win? <==> PocketedBy(sim.log, |sim.log|, EIGHT))
      && (ss[k + 1].game.turn.Win? ==>
            (ss[k + 1].game.started == ss[k].game.started <==> CleanFinish(env, ss[k], before, sim.log, moves[k].shot)))
  {
    EightHandshake(env, w, ss, moves, results, k);
    EightGameStep(env, w, ss, moves, results, k, k + 1);
    ShotDecides(env, w, ss[k], moves[k].shot, moves[k].chance);
  }

  lemma ShotDecides(env: Env, w: World, s: Eight, shot: GameShot, chance: Chance)
    requires Lawful(w) && EightInv(s) && !s.game.turn.Win? && !s.game.turn.Break?
    requires Shoots(env, s, shot, chance) && Simulate(w, ShotTable(env, s, shot, chance), shot.params, true).Finished?
    requires ExecuteEight(env, w, s, shot, chance).Executed?
    ensures var before := ShotTable(env, s, shot, chance);
      var sim := Simulate(w, before, shot.params, true).sim;
      var t := ExecuteEight(env, w, s, shot, chance).state;
      && Told(before, sim.balls, sim.log)
      && (t.game.turn.Win? <==> PocketedBy(sim.log, |sim.log|, EIGHT))
      && (t.game.turn.Win? ==> (t.game.started == s.game.started <==> CleanFinish(env, s, before, sim.log, shot)))
  {
    ChargedInv(s, shot);
    var charged := s.(game := Charge(s.game, shot));
    PreEightShoots(env, charged, shot, chance);
    var code := PreEight(env, charged, shot, chance).code;
    AimedReady(charged.balls, code, shot, BALLS);
    hide Lawful, EightInv, PlayEight, PreEight, Simulate, Aimed, JudgeShot, Told, Played, CleanFinish, Full;
    PlayFinished(env, w, charged, code, shot, chance);
    var before := Aimed(charged.balls, code, shot);
    var sim := Simulate(w, before, shot.params, true).sim;
    var played := charged.(balls := sim.balls);
    EightDecides(env, played, before, sim.log, shot);
    CleanSame(env, s, played, before, sim.log, shot);
  }

  /** A clean finish does not depend on the table after the shot, nor on the clocks. */
  lemma CleanSame(env: Env, s: Eight, t: Eight, before: seq<Ball>, log: seq<Record>, shot: GameShot)
    requires t.openTable == s.openTable && t.solids == s.solids && t.game.turn == s.game.turn
    ensures CleanFinish(env, s, before, log, shot) <==> CleanFinish(env, t, before, log, shot)
  {
    hide GroupGone, EightCalled;
  }
}
