/** Calls of `executeShot` that break off: a simulation that ends with an error answers
    SR_SHOT_IMPOSSIBLE like one that is refused, but leaves the table as it was at that moment. When the
    next shot may still be played on such a table, and a shot of FastFiz after which it may not. */
module HalfPlayed {
  import opened Balls
  import opened Events
  import opened Kinematics
  import opened Scheduling
  import opened SchedulerLaws
  import opened SchedulerInvariants
  import opened ShotStory
  import opened Games
  import E = EightBall
  import N = NineBall

  // ---------------------------------------------------------------- runs that fail

  /** The last state a failing run completed. */
  ghost function LastSim(w: World, s: Sim, counter: nat): Sim
    requires 0 < counter && Run(w, s, counter, true).Failed?
    decreases counter
  {
    if counter == 1 then s
    else match Step(w, s, true)
      case Continue(next) => LastSim(w, next, counter - 1)
      case _ => s
  }

  /** A table with the same balls in play. */
  ghost predicate LeftAs(a: seq<Ball>, b: seq<Ball>) {
    SameIds(a, b) && forall i :: 0 <= i < |a| ==> (a[i].InPlay() <==> b[i].InPlay())
  }

  /** Where a run breaks off its balls have moved, but none has left the table. */
  lemma StepBreaks(w: World, s: Sim)
    requires Lawful(w) && Inv(s) && s.queue != [] && Step(w, s, true).Broken?
    ensures LeftAs(s.balls, Step(w, s, true).balls)
  {
    StepInv(w, s, true);
    var e := s.queue[MinIndex(s.queue)];
    AdvanceShifts(w, s.balls, s.now, e.time);
    var moved, left := MoveAll(w, s.balls, s.now, e.time), Step(w, s, true).balls;
    forall i | 0 <= i < |s.balls|
      ensures s.balls[i].InPlay() <==> left[i].InPlay()
    {
      assert left[i] == moved[i].(r := left[i].r);
      assert moved[i] == w.move(s.balls[i], s.now, e.time);
    }
  }

  lemma {:induction false} RunBreaks(w: World, before: seq<Ball>, s: Sim, counter: nat)
    requires Lawful(w) && Story(before, s) && 0 < counter && Run(w, s, counter, true).Failed?
    ensures Story(before, LastSim(w, s, counter)) && LeftAs(LastSim(w, s, counter).balls, Run(w, s, counter, true).balls)
    decreases counter
  {
    hide Lawful, Inv, Handle, Predicted;
    if counter > 1 {
      var e := s.queue[MinIndex(s.queue)];
      var adv := Advance(w, s.balls, s.now, e.time);
      StepInv(w, s, true);
      if adv.Separated? {
        ReactStory(w, before, s, e, adv.balls);
        RunBreaks(w, before, React(w, adv.balls, e, Rest(s.queue), s.log), counter - 1);
      } else {
        StepBreaks(w, s);
      }
    }
  }

  /** The events up to the break. */
  ghost function BreakLog(w: World, balls: seq<Ball>, sp: ShotParams): seq<Record>
    requires Simulate(w, balls, sp, true).Failed?
  {
    LastSim(w, Start(balls, sp), EVENT_LIMIT).log
  }

  /** One ball that was on the table. */
  lemma StaysUnlessPocketed(before: seq<Ball>, last: seq<Ball>, left: seq<Ball>, log: seq<Record>, b: BallId)
    requires Accounted(before, log, last) && LeftAs(last, left) && UniqueIds(before) && OnTable(before, b)
    ensures OnTable(left, b) <==> !PocketedBy(log, |log|, b)
  {
    hide PocketCount;
    var i :| 0 <= i < |before| && before[i].id == b && before[i].InPlay();
    assert Settles(before[i], PocketCount(log, before[i].id), last[i]);
    PocketCountZero(log, b);
    assert left[i].id == b;
  }

  lemma FullSame(a: seq<Ball>, b: seq<Ball>, c: seq<Ball>, n: nat)
    requires Full(a, n) && SameIds(a, b) && LeftAs(b, c)
    ensures Full(c, n)
  {
    forall id: BallId | id < n
      ensures Find(c, id) < |c|
    {
      SameIdsFind(a, c, id);
    }
  }

  /** The table a broken simulation leaves: every ball still has its slot, and those on it before are
      on it after, except for the balls recorded as pocketed. */
  lemma BrokenTable(w: World, balls: seq<Ball>, sp: ShotParams, n: nat)
    requires Lawful(w) && Full(balls, n) && Ready(balls) && Simulate(w, balls, sp, true).Failed?
    ensures var left, log := Simulate(w, balls, sp, true).balls, BreakLog(w, balls, sp);
      && Full(left, n)
      && forall b: BallId :: OnTable(balls, b) ==> (OnTable(left, b) <==> !PocketedBy(log, |log|, b))
  {
    hide Lawful, Run, LastSim, Inv, OnTable, PocketedBy, LeftAs, PocketingFinal, CueAlone, ContactByCue, StrikeFirst, Sorted;
    StartStory(balls, sp);
    RunBreaks(w, balls, Start(balls, sp), EVENT_LIMIT);
    var left, last := Simulate(w, balls, sp, true).balls, LastSim(w, Start(balls, sp), EVENT_LIMIT);
    FullSame(balls, last.balls, left, n);
    forall b: BallId | OnTable(balls, b)
      ensures OnTable(left, b) <==> !PocketedBy(last.log, |last.log|, b)
    {
      StaysUnlessPocketed(balls, last.balls, left, last.log, b);
    }
  }

  // ---------------------------------------------------------------- when the game can go on

  /** A shot is interrupted exactly when its simulation breaks off. */
  lemma EightBreaks(env: Env, w: World, s: E.Eight, code: Code, shot: GameShot, chance: Chance)
    requires Lawful(w) && E.EightInv(s) && E.ShotTurn(s.game.turn) && (!code.PlaceCue? ==> OnTable(s.balls, CUE))
    requires E.PlayEight(env, w, s, code, shot, chance).Interrupted?
    ensures var r := Simulate(w, Aimed(s.balls, code, shot), shot.params, true);
      r.Failed? && E.PlayEight(env, w, s, code, shot, chance) == Interrupted(s.(balls := r.balls))
  {
    hide Lawful, E.EightInv, E.ProcessEight, Simulate, Aimed, E.Played, Told, OnTable;
    if Simulate(w, Aimed(s.balls, code, shot), shot.params, true).Finished? {
      E.PlayFinished(env, w, s, code, shot, chance);
    }
  }

  lemma NineBreaks(env: Env, w: World, s: N.Nine, code: Code, shot: GameShot, chance: Chance)
    requires Lawful(w) && N.NineInv(s) && N.ShotTurn(s.game.turn) && (!code.PlaceCue? ==> OnTable(s.balls, CUE))
    requires N.PlayNine(env, w, s, code, shot, chance).Interrupted?
    ensures var r := Simulate(w, Aimed(s.balls, code, shot), shot.params, true);
      r.Failed? && N.PlayNine(env, w, s, code, shot, chance) == Interrupted(s.(balls := r.balls))
  {
    hide Lawful, N.NineInv, N.JudgeNine, Simulate, Aimed, N.Played, Told, Full, OnTable;
    if Simulate(w, Aimed(s.balls, code, shot), shot.params, true).Finished? {
      N.PlayFinished(env, w, s, code, shot, chance);
    }
  }

  /** What the next call counts on, once balls may have been pocketed and not judged. */
  lemma EightSurvives(s: E.Eight, balls: seq<Ball>, aimed: seq<Ball>, log: seq<Record>)
    requires E.EightInv(s) && E.ShotTurn(s.game.turn) && Full(balls, E.BALLS)
    requires OnTable(aimed, CUE) && OnTable(aimed, EIGHT)
    requires forall b: BallId :: OnTable(aimed, b) ==> (OnTable(balls, b) <==> !PocketedBy(log, |log|, b))
    ensures E.EightInv(s.(balls := balls)) <==>
      AtRest(balls) && !PocketedBy(log, |log|, EIGHT) && (s.game.turn.Normal? ==> !PocketedBy(log, |log|, CUE))
  {
    hide Full, AtRest, PocketedBy, OnTable;
  }

  lemma NineSurvives(s: N.Nine, balls: seq<Ball>, aimed: seq<Ball>, log: seq<Record>)
    requires N.NineInv(s) && N.ShotTurn(s.game.turn) && Full(balls, N.BALLS)
    requires OnTable(aimed, CUE) && OnTable(aimed, NINE)
    requires forall b: BallId :: OnTable(aimed, b) ==> (OnTable(balls, b) <==> !PocketedBy(log, |log|, b))
    ensures N.NineInv(s.(balls := balls)) <==>
      AtRest(balls) && !PocketedBy(log, |log|, NINE) && (s.game.turn.Normal? || s.game.turn.FirstShot? ==> !PocketedBy(log, |log|, CUE))
  {
    hide Full, AtRest, PocketedBy, OnTable;
  }

  /** An eight-ball call that breaks off leaves a state the game can go on from if and only if no ball
      is moving, and none of the balls the next call counts on has been pocketed: the eight, and the cue
      ball unless the next shot places it. */
  lemma InterruptedEight(env: Env, w: World, s: E.Eight, shot: GameShot, chance: Chance)
    requires Lawful(w) && E.EightInv(s) && !s.game.turn.Win? && E.ExecuteEight(env, w, s, shot, chance).Interrupted?
    ensures E.Shoots(env, s, shot, chance) && Simulate(w, E.ShotTable(env, s, shot, chance), shot.params, true).Failed?
    ensures var t := E.ExecuteEight(env, w, s, shot, chance).state;
      var log := BreakLog(w, E.ShotTable(env, s, shot, chance), shot.params);
      E.EightInv(t) <==>
        AtRest(t.balls) && !PocketedBy(log, |log|, EIGHT) && (s.game.turn.Normal? ==> !PocketedBy(log, |log|, CUE))
  {
    E.ChargedInv(s, shot);
    var charged := s.(game := Charge(s.game, shot));
    E.PreEightShoots(env, charged, shot, chance);
    var code := E.PreEight(env, charged, shot, chance).code;
    AimedReady(charged.balls, code, shot, E.BALLS);
    var aimed := Aimed(charged.balls, code, shot);
    assert OnTable(aimed, CUE) && OnTable(aimed, EIGHT);
    hide Lawful, E.EightInv, E.PreEight, E.PlayEight, Simulate, Aimed, PocketedBy, BreakLog, Full, AtRest, Ready, OnTable;
    EightBreaks(env, w, charged, code, shot, chance);
    BrokenTable(w, aimed, shot.params, E.BALLS);
    var log := BreakLog(w, aimed, shot.params);
    EightSurvives(charged, Simulate(w, aimed, shot.params, true).balls, aimed, log);
  }

  /** The same of nine-ball. */
  lemma InterruptedNine(env: Env, w: World, s: N.Nine, shot: GameShot, chance: Chance)
    requires Lawful(w) && N.NineInv(s) && !s.game.turn.Win? && N.ExecuteNine(env, w, s, shot, chance).Interrupted?
    ensures N.Shoots(env, s, shot) && Simulate(w, N.ShotTable(env, s, shot), shot.params, true).Failed?
    ensures var t := N.ExecuteNine(env, w, s, shot, chance).state;
      var log := BreakLog(w, N.ShotTable(env, s, shot), shot.params);
      N.NineInv(t) <==>
        && AtRest(t.balls) && !PocketedBy(log, |log|, NINE)
        && (s.game.turn.Normal? || s.game.turn.FirstShot? ==> !PocketedBy(log, |log|, CUE))
  {
    N.ChargedInv(s, shot);
    var charged := s.(game := Charge(s.game, shot));
    N.PreNineKeeps(env, charged, shot);
    var code := N.PreNine(env, charged, shot).code;
    AimedReady(charged.balls, code, shot, N.BALLS);
    var aimed := Aimed(charged.balls, code, shot);
    assert OnTable(aimed, CUE) && OnTable(aimed, NINE);
    hide Lawful, N.NineInv, N.PreNine, N.PlayNine, Simulate, Aimed, PocketedBy, BreakLog, Full, AtRest, Ready, OnTable;
    NineBreaks(env, w, charged, code, shot, chance);
    BrokenTable(w, aimed, shot.params, N.BALLS);
    NineSurvives(charged, Simulate(w, aimed, shot.params, true).balls, aimed, BreakLog(w, aimed, shot.params));
  }

  // ---------------------------------------------------------------- nothing played

  /** If the table handed over cannot be separated, the run fails before the strike. */
  lemma FailsAtOnce(w: World, balls: seq<Ball>, sp: ShotParams)
    requires Lawful(w) && Ready(balls) && w.possible(balls, sp) && w.separate(balls).StillOverlapping?
    ensures Simulate(w, balls, sp, true) == Failed(w.separate(balls).balls) && BreakLog(w, balls, sp) == []
    ensures AtRest(w.separate(balls).balls)
  {
    StillMoved(w, balls);
    var left := w.separate(balls).balls;
    assert OnlyShifted(balls, left);
    forall i | 0 <= i < |left| && left[i].InPlay()
      ensures left[i].state.Stationary?
    {
      assert left[i] == balls[i].(r := left[i].r);
    }
    hide Lawful;
    assert Step(w, Start(balls, sp), true) == Broken(left);
  }

  /** A call that gets to the physics ends as its shot does. */
  lemma EightShoots(env: Env, w: World, s: E.Eight, shot: GameShot, chance: Chance)
    requires E.EightInv(s) && !s.game.turn.Win? && E.Shoots(env, s, shot, chance)
    ensures var charged := s.(game := Charge(s.game, shot));
      var code := E.PreEight(env, charged, shot, chance).code;
      && Ready(E.ShotTable(env, s, shot, chance))
      && E.ExecuteEight(env, w, s, shot, chance) == E.PlayEight(env, w, charged, code, shot, chance)
  {
    E.ChargedInv(s, shot);
    var charged := s.(game := Charge(s.game, shot));
    E.PreEightShoots(env, charged, shot, chance);
    AimedReady(charged.balls, E.PreEight(env, charged, shot, chance).code, shot, E.BALLS);
    hide E.EightInv, E.PreEight, E.PlayEight, Aimed, Ready, Full, AtRest, OnTable;
  }

  lemma NineShoots(env: Env, w: World, s: N.Nine, shot: GameShot, chance: Chance)
    requires N.NineInv(s) && !s.game.turn.Win? && N.Shoots(env, s, shot)
    ensures var charged := s.(game := Charge(s.game, shot));
      var code := N.PreNine(env, charged, shot).code;
      && Ready(N.ShotTable(env, s, shot))
      && N.ExecuteNine(env, w, s, shot, chance) == N.PlayNine(env, w, charged, code, shot, chance)
  {
    N.ChargedInv(s, shot);
    var charged := s.(game := Charge(s.game, shot));
    N.PreNineKeeps(env, charged, shot);
    AimedReady(charged.balls, N.PreNine(env, charged, shot).code, shot, N.BALLS);
    hide N.NineInv, N.PreNine, N.PlayNine, Aimed, Ready, Full, AtRest, OnTable;
  }

  /** A call whose very first separation fails has played nothing, and the game goes on. */
  lemma EightUnplayed(env: Env, w: World, s: E.Eight, shot: GameShot, chance: Chance)
    requires Lawful(w) && E.EightInv(s) && !s.game.turn.Win? && E.Shoots(env, s, shot, chance)
    requires var before := E.ShotTable(env, s, shot, chance);
      w.possible(before, shot.params) && w.separate(before).StillOverlapping?
    ensures var r := E.ExecuteEight(env, w, s, shot, chance); r.Interrupted? && E.EightInv(r.state)
  {
    hide Lawful, E.EightInv, E.PreEight, E.ProcessEight, Simulate, Aimed, PocketedBy, BreakLog, Full, AtRest, Ready, OnTable;
    EightShoots(env, w, s, shot, chance);
    FailsAtOnce(w, E.ShotTable(env, s, shot, chance), shot.params);
    hide E.Shoots, E.ExecuteEight;
    InterruptedEight(env, w, s, shot, chance);
    Unpocketed();
  }

  lemma NineUnplayed(env: Env, w: World, s: N.Nine, shot: GameShot, chance: Chance)
    requires Lawful(w) && N.NineInv(s) && !s.game.turn.Win? && N.Shoots(env, s, shot)
    requires var before := N.ShotTable(env, s, shot);
      w.possible(before, shot.params) && w.separate(before).StillOverlapping?
    ensures var r := N.ExecuteNine(env, w, s, shot, chance); r.Interrupted? && N.NineInv(r.state)
  {
    hide Lawful, N.NineInv, N.PreNine, N.JudgeNine, Simulate, Aimed, PocketedBy, BreakLog, Full, AtRest, Ready, OnTable;
    NineShoots(env, w, s, shot, chance);
    FailsAtOnce(w, N.ShotTable(env, s, shot), shot.params);
    hide N.Shoots, N.ExecuteNine;
    InterruptedNine(env, w, s, shot, chance);
    Unpocketed();
  }

  lemma Unpocketed()
    ensures forall b: BallId :: !PocketedBy([], 0, b)
  {
  }
}
