/** The physics of FastFiz as a world of the scheduler, and what that adds to its guarantees. */
module Physics {
  import opened Wrappers
  import opened Balls
  import opened Events
  import opened Kinematics
  import opened Scheduling
  import opened SchedulerLaws
  import opened SchedulerInvariants
  import opened ShotStory
  import opened QueueHistory
  import opened Overlapping
  import opened Collisions
  import opened Prediction

  /** The prediction for a pair: asked of travelling first balls only. */
  function PairCollision(env: Env, b: Ball, c: Ball, now: real): Option<Event> {
    if b.Travelling() then NextCollisionEvent(env, b, c, now) else None
  }

  /** FastFiz; `possible` stands for the clearance test of the cue stick. */
  function FastFiz(env: Env, possible: (seq<Ball>, ShotParams) -> bool): World {
    World(
      possible,
      (b: Ball, t0: real, t1: real) => UpdateBall(env, b, t0, t1),
      (balls: seq<Ball>) => Separate(env, balls, PASSES),
      (b: Ball, e: Event) => ActOn(env, b, e),
      (b: Ball, c: Ball) => CollideBalls(env, b, c),
      (b: Ball, now: real) => NextTransitionEvent(env, b, now),
      (b: Ball, now: real) => BoundaryEvents(env, b, now),
      (b: Ball, c: Ball, now: real) => PairCollision(env, b, c, now))
  }

  /** The laws the scheduler relies on, for any thresholds and any behaviour of the solvers. */
  lemma FastFizLawful(env: Env, possible: (seq<Ball>, ShotParams) -> bool)
    ensures Lawful(FastFiz(env, possible))
  {
    hide UpdateBall, Separate, ActOn, CollideBalls, BoundaryEvents, NextCollisionEvent, TransitionDelay;
    var w := FastFiz(env, possible);
    forall a: seq<Ball>
      ensures OnlyShifted(a, w.separate(a).balls)
    {
      SeparateApart(env, a, PASSES);
    }
    forall b: Ball, t: real, e: Event | 0.0 <= t && e in w.boundary(b, t)
      ensures BoundaryEvent(e, b, t)
    {
      BoundaryAhead(env, b, t, e);
    }
    assert BoundaryLaw(w) by {
      forall b: Ball, t: real | !b.Travelling()
        ensures w.boundary(b, t) == []
      {
        NoBoundary(env, b, t);
      }
    }
  }

  lemma NoBoundary(env: Env, b: Ball, t: real)
    requires !b.Travelling()
    ensures BoundaryEvents(env, b, t) == []
  {
    hide BoundaryAlong;
  }

  // ---------------------------------------------------------------- the strike

  /** The strike is handled on the table as it was. */
  lemma StrikeActs(env: Env, possible: (seq<Ball>, ShotParams) -> bool, balls: seq<Ball>, sp: ShotParams, next: Sim)
    requires Ready(balls) && Apart(balls) && Step(FastFiz(env, possible), Start(balls, sp), true) == Continue(next)
    ensures var e := Cause(Start(balls, sp));
      && e.kind == CueStrike(sp.(a := sp.a / -1000.0, b := sp.b / 1000.0))
      && Get(next.balls, CUE) == StrikeBall(env, Get(balls, CUE), e.kind.params)
      && next.now == 0.0 && Get(balls, CUE).InPlay()
  {
    FastFizLawful(env, possible);
    StillMoved(FastFiz(env, possible), balls);
    SeparateAgain(env, balls, PASSES);
    hide Predicted, StrikeBall, Separate, Handle, MoveAll, Apart, Lawful;
    StrikeHandled(env, possible, balls, Cause(Start(balls, sp)));
  }

  lemma StrikeHandled(env: Env, possible: (seq<Ball>, ShotParams) -> bool, balls: seq<Ball>, e: Event)
    requires Ready(balls) && e.ball1 == CUE && e.kind.CueStrike?
    ensures Get(Handle(FastFiz(env, possible), balls, e), CUE) == StrikeBall(env, Get(balls, CUE), e.kind.params)
    ensures Get(balls, CUE).InPlay()
  {
    hide StrikeBall;
    var i :| 0 <= i < |balls| && balls[i].id == CUE && balls[i].InPlay();
    FindAt(balls, i);
    var after := Handle(FastFiz(env, possible), balls, e);
    assert after == balls[i := StrikeBall(env, balls[i], e.kind.params)];
    SameIdsFind(balls, after, CUE);
  }

  // ---------------------------------------------------------------- no overlap

  /** Events change how balls move, never where they are. */
  lemma HandleKeepsPlace(env: Env, possible: (seq<Ball>, ShotParams) -> bool, mid: seq<Ball>, e: Event)
    requires UniqueIds(mid) && Named(mid, e)
    ensures var after := Handle(FastFiz(env, possible), mid, e);
      |after| == |mid| && forall i :: 0 <= i < |mid| ==> after[i].r == mid[i].r && (after[i].InPlay() ==> mid[i].InPlay())
  {
    hide ActOn, CollideBalls;
    var i := Find(mid, e.ball1);
    if e.kind.BallCollision? {
      var j := Find(mid, e.kind.ball2);
      var hit := CollideBalls(env, mid[i], mid[j]);
      assert Handle(FastFiz(env, possible), mid, e) == mid[i := hit.0][j := hit.1];
    } else {
      assert Handle(FastFiz(env, possible), mid, e) == mid[i := ActOn(env, mid[i], e)];
    }
  }

  lemma ApartAsBefore(mid: seq<Ball>, after: seq<Ball>)
    requires Apart(mid) && |after| == |mid|
    requires forall i :: 0 <= i < |mid| ==> after[i].r == mid[i].r && (after[i].InPlay() ==> mid[i].InPlay())
    ensures Apart(after)
  {
    hide Closeness;
    forall i: nat, j: nat | j < i < |after|
      ensures !Clash(after, i, j)
    {
      assert !Clash(mid, i, j);
    }
  }

  /** After any iteration no two balls in play overlap. */
  lemma StepApart(env: Env, possible: (seq<Ball>, ShotParams) -> bool, s: Sim, fullSim: bool)
    requires Inv(s) && s.queue != []
    ensures var r := Step(FastFiz(env, possible), s, fullSim);
      (r.Continue? || r.FirstHit? ==> Apart(r.sim.balls)) && (r.Continue? ==> Inv(r.sim))
  {
    hide Apart, Separate, Handle, Predicted, Inv, Lawful;
    var w := FastFiz(env, possible);
    FastFizLawful(env, possible);
    StepInv(w, s, fullSim);
    var e := Cause(s);
    var adv := Advance(w, s.balls, s.now, e.time);
    SeparateApart(env, MoveAll(w, s.balls, s.now, e.time), PASSES);
    if adv.Separated? {
      Mentioned(w, s, adv.balls);
      HandleKeepsPlace(env, possible, adv.balls, e);
      ApartAsBefore(adv.balls, Handle(w, adv.balls, e));
    }
  }

  /** The balls an event names have kept their slots through `updateTime`. */
  lemma Mentioned(w: World, s: Sim, mid: seq<Ball>)
    requires Lawful(w) && Inv(s) && s.queue != []
    requires Advance(w, s.balls, s.now, Cause(s).time) == Separated(mid)
    ensures UniqueIds(mid) && Named(mid, Cause(s))
  {
    hide Lawful;
    var e := Cause(s);
    Popped(s);
    SoundNamed(s.balls, s.now, e);
    AdvanceShifts(w, s.balls, s.now, e.time);
    SameIdsFind(s.balls, mid, e.ball1);
    if e.kind.BallCollision? {
      SameIdsFind(s.balls, mid, e.kind.ball2);
    }
  }

  /** No two balls in play overlap after any recorded event of any simulation. */
  lemma TraceApart(env: Env, possible: (seq<Ball>, ShotParams) -> bool, balls: seq<Ball>, sp: ShotParams, ss: seq<Sim>, k: nat)
    requires Ready(balls) && IsTrace(FastFiz(env, possible), balls, sp, ss) && 0 < k < |ss|
    ensures Apart(ss[k].balls)
  {
    hide Apart, Step, Inv, Ready;
    FastFizLawful(env, possible);
    TraceKeeps(FastFiz(env, possible), balls, sp, ss, k - 1);
    assert Step(FastFiz(env, possible), ss[k - 1], true) == Continue(ss[k]);
    StepApart(env, possible, ss[k - 1], true);
  }

  lemma {:induction false} RunApart(env: Env, possible: (seq<Ball>, ShotParams) -> bool, s: Sim, counter: nat, fullSim: bool)
    requires Inv(s) && 0 < counter && (s.queue == [] ==> Apart(s.balls))
    requires Run(FastFiz(env, possible), s, counter, fullSim).Finished?
    ensures Apart(Run(FastFiz(env, possible), s, counter, fullSim).sim.balls)
    decreases counter
  {
    hide Apart, Step, Inv;
    if s.queue != [] && counter > 1 {
      StepApart(env, possible, s, fullSim);
      var r := Step(FastFiz(env, possible), s, fullSim);
      if r.Continue? {
        RunApart(env, possible, r.sim, counter - 1, fullSim);
      }
    }
  }

  /** Everything the scheduler guarantees of a shot holds of FastFiz, and no two balls in play
      overlap at its end. */
  lemma FastFizShot(env: Env, possible: (seq<Ball>, ShotParams) -> bool, balls: seq<Ball>, sp: ShotParams)
    requires Ready(balls) && Simulate(FastFiz(env, possible), balls, sp, true).Finished?
    ensures var end := Simulate(FastFiz(env, possible), balls, sp, true).sim;
      Told(balls, end.balls, end.log) && Apart(end.balls)
  {
    hide Apart, Told;
    FastFizLawful(env, possible);
    ShotTold(FastFiz(env, possible), balls, sp);
    StartInv(balls, sp);
    RunApart(env, possible, Start(balls, sp), EVENT_LIMIT, true);
  }
}
