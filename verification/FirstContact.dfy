/** `TableState::getFirstBallHit`: the simulation that stops at the first contact. */
module FirstContact {
  import opened Wrappers
  import opened Balls
  import opened Events
  import opened Scheduling
  import opened SchedulerLaws
  import opened SchedulerInvariants
  import opened ShotStory

  /** The list of the short simulation is the list of the full one up to the first contact. */
  ghost predicate StopsAtContact(short: seq<Record>, full: seq<Record>) {
    && |short| <= |full|
    && (forall k :: 0 <= k < |short| ==> short[k].event == full[k].event)
    && if NoContact(full) then |short| == |full| else 0 < |short| && FirstCollision(full, |short| - 1)
  }

  /** One iteration, seen from the log; without contact `fullSim` makes no difference to it. */
  lemma StepLogs(w: World, s: Sim)
    requires s.queue != []
    ensures var e := s.queue[MinIndex(s.queue)];
      && (Step(w, s, true).Continue? ==>
            && |Step(w, s, true).sim.log| == |s.log| + 1
            && s.log <= Step(w, s, true).sim.log
            && Step(w, s, true).sim.log[|s.log|].event == e)
      && (!e.kind.BallCollision? ==> Step(w, s, false) == Step(w, s, true))
      && (e.kind.BallCollision? && Step(w, s, true).Continue? ==>
            Step(w, s, false).FirstHit? && Step(w, s, false).sim.log == s.log + [Record(e, None)])
      && !Step(w, s, true).FirstHit?
  {
    hide Handle, Predicted;
  }

  lemma {:induction false} RunExtends(w: World, s: Sim, counter: nat)
    requires 0 < counter && Run(w, s, counter, true).Finished?
    ensures s.log <= Run(w, s, counter, true).sim.log
    decreases counter
  {
    hide Step;
    if s.queue != [] && counter > 1 {
      var next := Step(w, s, true);
      StepLogs(w, s);
      if next.Continue? {
        RunExtends(w, next.sim, counter - 1);
      }
    }
  }

  /** Runs with and without `fullSim` agree until the first contact. */
  lemma {:induction false} RunShort(w: World, s: Sim, counter: nat)
    requires 0 < counter && NoContact(s.log) && Run(w, s, counter, true).Finished?
    ensures Run(w, s, counter, false).Finished?
    ensures StopsAtContact(Run(w, s, counter, false).sim.log, Run(w, s, counter, true).sim.log)
    decreases counter
  {
    hide Step;
    if s.queue != [] && counter > 1 {
      StepLogs(w, s);
      var e := s.queue[MinIndex(s.queue)];
      var next := Step(w, s, true).sim;
      var full := Run(w, s, counter, true).sim.log;
      RunExtends(w, next, counter - 1);
      assert full[|s.log|].event == e;
      if e.kind.BallCollision? {
        assert full[..|s.log|] == s.log;
        assert FirstCollision(full, |s.log|);
      } else {
        RunShort(w, next, counter - 1);
      }
    }
  }

  /** What `getFirstBallHit` returns when its simulation returns normally. */
  function FirstBallHit(w: World, balls: seq<Ball>, sp: ShotParams): Option<BallId> {
    var run := Simulate(w, balls, sp, false);
    if run.Finished? && run.sim.log != [] then Some(run.sim.log[|run.sim.log| - 1].event.Ball2()) else None
  }

  /** The ball the rules judge a shot by: `getBall2` of its first BALL_COLLISION. */
  ghost predicate JudgedFirst(log: seq<Record>, b: BallId) {
    exists k: nat :: FirstCollision(log, k) && log[k].event.Ball2() == b
  }

  /** The short simulation of any shot that returns normally ends at its first contact, so
      `getFirstBallHit` names the object ball the rules will judge, and UNKNOWN_ID (not CUE)
      when nothing is hit. */
  lemma FirstBallHitAgrees(w: World, balls: seq<Ball>, sp: ShotParams)
    requires Lawful(w) && Ready(balls) && Simulate(w, balls, sp, true).Finished?
    ensures var full := Simulate(w, balls, sp, true).sim.log;
      var hit := FirstBallHit(w, balls, sp);
      && Simulate(w, balls, sp, false).Finished?
      && StopsAtContact(Simulate(w, balls, sp, false).sim.log, full)
      && hit.Some?
      && (NoContact(full) ==> hit.value == UNKNOWN_ID)
      && (!NoContact(full) ==> JudgedFirst(full, hit.value) && hit.value != CUE)
  {
    RunShort(w, Start(balls, sp), EVENT_LIMIT);
    ShotTold(w, balls, sp);
    var short := Simulate(w, balls, sp, false).sim.log;
    var full := Simulate(w, balls, sp, true).sim.log;
    assert |short| > 0;
    assert short[|short| - 1].event == full[|short| - 1].event;
    if !NoContact(full) {
      assert FirstCollision(full, |short| - 1);
    }
  }
}
