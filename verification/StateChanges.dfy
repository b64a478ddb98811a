/** State changes along a whole simulation with exact thresholds: each one finds its ball in a
    lower state than when it was scheduled, so a ball has at most three between two contacts. */
module StateChanges {
  import opened Wrappers
  import opened Vectors
  import opened Balls
  import opened Events
  import opened Kinematics
  import opened ExactMotion
  import opened TransitionTimes
  import opened Collisions
  import opened Scheduling
  import opened SchedulerLaws
  import opened SchedulerInvariants
  import opened IncrementalQueue
  import opened QueueHistory
  import opened Physics
  import opened Prediction

  /** Ball `c` at time `u` is what ball `b` of time `t` has become, its transition still ahead:
      in the same state with the same transition, or already in a lower one. */
  ghost predicate Descended(env: Env, b: Ball, t: real, c: Ball, u: real) {
    && b.Moving() && t <= u <= t + TransitionDelay(env, b)
    && c.id == b.id && Classified(env, c)
    && if c.Rank() == b.Rank() then c.state == b.state && NextTransitionEvent(env, c, u) == NextTransitionEvent(env, b, t)
       else c.Rank() < b.Rank() && (c.Rank() <= 1 || u == t + TransitionDelay(env, b))
  }

  /** Nothing about a transition depends on where the ball is. */
  lemma Shifted(env: Env, b: Ball, r: Point)
    ensures var c: Ball := b.(r := r);
      && (Classified(env, b) ==> Classified(env, c))
      && c.Rank() == b.Rank()
      && forall t: real :: NextTransitionEvent(env, c, t) == NextTransitionEvent(env, b, t)
  {
    var c: Ball := b.(r := r);
    assert c.Slip() == b.Slip();
    forall t: real
      ensures NextTransitionEvent(env, c, t) == NextTransitionEvent(env, b, t)
    {
    }
  }

  lemma DescendOn(env: Env, b: Ball, t: real, c: Ball, u0: real, u1: real)
    requires Exact(env) && Descended(env, b, t, c, u0) && u0 <= u1 <= t + TransitionDelay(env, b)
    ensures Descended(env, b, t, UpdateBall(env, c, u0, u1), u1)
    ensures u1 == t + TransitionDelay(env, b) ==> UpdateBall(env, c, u0, u1).Rank() < b.Rank()
  {
    hide UpdateBall, TransitionDelay, Classified;
    if c.Rank() == b.Rank() {
      assert u0 + TransitionDelay(env, c) == t + TransitionDelay(env, b);
      TransitionStable(env, c, u0, u1);
    } else if c.Rank() <= 1 {
      RestStays(env, c, u0, u1);
    } else {
      assert u1 == u0;
      TransitionStable(env, c, u0, u1);
    }
  }

  // ---------------------------------------------------------------- one ball along a trace

  function At(s: Sim, x: BallId): Ball { Get(s.balls, x) }

  /** A ball across an iteration that does not name it. */
  lemma AcrossUntouched(env: Env, possible: (seq<Ball>, ShotParams) -> bool, s: Sim, next: Sim, x: BallId)
    requires Inv(s) && s.queue != [] && Step(FastFiz(env, possible), s, true) == Continue(next)
    requires Find(s.balls, x) < |s.balls| && !Cause(s).Involves(x)
    ensures next.now == Cause(s).time && Inv(next)
    ensures At(next, x) == UpdateBall(env, At(s, x), s.now, next.now).(r := At(next, x).r)
  {
    hide Lawful, Inv, Predicted, UpdateBall, Advance, Handle;
    var w := FastFiz(env, possible);
    FastFizLawful(env, possible);
    var mid := TraceStep(w, s, next);
    var i := Find(s.balls, x);
    Acrossing(w, s, mid);
    SameIdsFind(s.balls, next.balls, x);
    var moved := MoveAll(w, s.balls, s.now, next.now);
    assert moved[i] == UpdateBall(env, s.balls[i], s.now, next.now);
  }

  lemma Acrossing(w: World, s: Sim, mid: seq<Ball>)
    requires Lawful(w) && Inv(s) && s.queue != []
    requires Advance(w, s.balls, s.now, Cause(s).time) == Separated(mid)
    ensures Evolved(w, s.balls, mid, Handle(w, mid, Cause(s)), s.now, Cause(s))
    ensures Named(s.balls, Cause(s)) && UniqueIds(mid)
    ensures OnTable(s.balls, Cause(s).ball1) && (Cause(s).kind.BallCollision? ==> OnTable(s.balls, Cause(s).kind.ball2))
  {
    hide Lawful, Handle, Advance;
    Popped(s);
    SoundNamed(s.balls, s.now, Cause(s));
    ReactEvolves(w, s, Cause(s), mid);
  }

  /** A ball in play after an iteration that names it is classified. */
  lemma TouchedClassified(env: Env, possible: (seq<Ball>, ShotParams) -> bool, s: Sim, next: Sim, x: BallId)
    requires Exact(env) && Inv(s) && s.queue != [] && Step(FastFiz(env, possible), s, true) == Continue(next)
    requires Find(s.balls, x) < |s.balls| && Cause(s).Involves(x) && At(next, x).InPlay()
    ensures Classified(env, At(next, x))
  {
    hide Lawful, Inv, Predicted, Advance, ActOn, CollideBalls, Classified, OnlyShifted, MoveAll;
    var w := FastFiz(env, possible);
    FastFizLawful(env, possible);
    var e := Cause(s);
    var mid := TraceStep(w, s, next);
    Acrossing(w, s, mid);
    SameIdsFind(s.balls, next.balls, x);
    SameIdsFind(s.balls, mid, e.ball1);
    if e.kind.BallCollision? {
      SameIdsFind(s.balls, mid, e.kind.ball2);
      var i, j := Find(mid, e.ball1), Find(mid, e.kind.ball2);
      var hit := CollideBalls(env, mid[i], mid[j]);
      assert Handle(w, mid, e) == mid[i := hit.0][j := hit.1];
    } else {
      var i := Find(mid, x);
      assert Handle(w, mid, e) == mid[i := ActOn(env, mid[i], e)];
    }
  }

  /** A state change finds its ball where `updateTime` has brought it and reclassifies it. */
  lemma FiredChange(env: Env, possible: (seq<Ball>, ShotParams) -> bool, s: Sim, next: Sim, x: BallId)
    requires Inv(s) && s.queue != [] && Step(FastFiz(env, possible), s, true) == Continue(next)
    requires Find(s.balls, x) < |s.balls| && Cause(s).kind.StateChange? && Cause(s).ball1 == x
    ensures next.now == Cause(s).time
    ensures At(next, x) == Classify(env, UpdateBall(env, At(s, x), s.now, next.now).(r := At(next, x).r))
  {
    hide Lawful, Inv, Predicted, UpdateBall, Advance, Classify;
    var w := FastFiz(env, possible);
    FastFizLawful(env, possible);
    var mid := TraceStep(w, s, next);
    var i := Find(s.balls, x);
    Acrossing(w, s, mid);
    SameIdsFind(s.balls, next.balls, x);
    SameIdsFind(s.balls, mid, x);
    var moved := MoveAll(w, s.balls, s.now, next.now);
    assert moved[i] == UpdateBall(env, s.balls[i], s.now, next.now);
    assert Handle(w, mid, Cause(s)) == mid[i := ActOn(env, mid[i], Cause(s))];
  }

  /** The transition pending for a ball is the one predicted when it was last touched. */
  lemma PendingTransition(env: Env, possible: (seq<Ball>, ShotParams) -> bool, balls: seq<Ball>, sp: ShotParams, ss: seq<Sim>, n: nat, x: BallId)
    requires Ready(balls) && IsTrace(FastFiz(env, possible), balls, sp, ss) && 0 < n < |ss| && Find(balls, x) < |balls|
    ensures var m := LastTouch(ss, n, x, x);
      forall e :: e in ss[n].queue && e.kind.StateChange? && e.ball1 == x ==>
        m > 0 && Some(e) == NextTransitionEvent(env, At(ss[m], x), ss[m].now)
    ensures var m := LastTouch(ss, n, x, x);
      m > 0 && At(ss[m], x).Moving() ==> NextTransitionEvent(env, At(ss[m], x), ss[m].now).value in ss[n].queue
  {
    hide Lawful, Inv, Ready, Step, UpdateBall, BoundaryEvents, Filter;
    var w := FastFiz(env, possible);
    var m := LastTouch(ss, n, x, x);
    FastFizLawful(env, possible);
    TraceFinds(w, balls, sp, ss, m, x, x);
    QueueIsLatestForecast(w, balls, sp, ss, n, x, x);
    if m == 0 {
      NothingForecast(w, ss[0], x, x);
    }
    forall e | e in ss[n].queue && e.kind.StateChange? && e.ball1 == x
      ensures m > 0 && Some(e) == NextTransitionEvent(env, At(ss[m], x), ss[m].now)
    {
      FilterKeeps(ss[n].queue, AloneP(x), e);
      ForecastChange(env, possible, ss[m], x, e);
    }
    if m > 0 && At(ss[m], x).Moving() {
      var e := NextTransitionEvent(env, At(ss[m], x), ss[m].now).value;
      assert e in BallFull(w, ss[m], x);
      FilterKeeps(ss[n].queue, AloneP(x), e);
    }
  }

  lemma {:induction false} FilterKeeps(q: seq<Event>, p: Event -> bool, e: Event)
    ensures e in Filter(q, p) <==> e in q && p(e)
  {
    if q != [] {
      FilterKeeps(q[1..], p, e);
    }
  }

  /** The only state change forecast for a ball is its next transition. */
  lemma ForecastChange(env: Env, possible: (seq<Ball>, ShotParams) -> bool, s: Sim, x: BallId, e: Event)
    requires 0.0 <= s.now && e in BallFull(FastFiz(env, possible), s, x) && e.kind.StateChange?
    ensures Some(e) == NextTransitionEvent(env, At(s, x), s.now)
  {
    hide BoundaryEvents, NextTransitionEvent;
    if e in BoundaryEvents(env, At(s, x), s.now) {
      BoundaryAhead(env, At(s, x), s.now, e);
    }
  }

  // ---------------------------------------------------------------- between two touches

  /** The transition of a ball is never overtaken: every iteration ends no later. */
  lemma NotOvertaken(env: Env, possible: (seq<Ball>, ShotParams) -> bool, balls: seq<Ball>, sp: ShotParams, ss: seq<Sim>, n: nat, x: BallId)
    requires Ready(balls) && IsTrace(FastFiz(env, possible), balls, sp, ss) && 0 < n < |ss| && ss[n].queue != []
    requires Find(balls, x) < |balls|
    ensures var m := LastTouch(ss, n, x, x);
      m > 0 && At(ss[m], x).Moving() ==> ss[n].now <= Cause(ss[n]).time <= ss[m].now + TransitionDelay(env, At(ss[m], x))
  {
    hide Lawful, Inv, Ready, Step, TransitionDelay;
    FastFizLawful(env, possible);
    PendingTransition(env, possible, balls, sp, ss, n, x);
    TraceKeeps(FastFiz(env, possible), balls, sp, ss, n);
    InvAhead(ss[n]);
  }

  lemma InvAhead(s: Sim)
    requires Inv(s) && s.queue != []
    ensures s.now <= Cause(s).time && RealIds(s.balls)
  {
    assert Sound(s.balls, s.now, Cause(s));
  }

  /** From the touch that scheduled it on, a ball follows its predicted transition. */
  lemma {:induction false} Follows(env: Env, possible: (seq<Ball>, ShotParams) -> bool, balls: seq<Ball>, sp: ShotParams, ss: seq<Sim>, n: nat, x: BallId)
    requires Exact(env) && Ready(balls) && IsTrace(FastFiz(env, possible), balls, sp, ss) && n < |ss|
    requires Find(balls, x) < |balls|
    ensures var m := LastTouch(ss, n, x, x);
      m > 0 && At(ss[m], x).Moving() ==> Descended(env, At(ss[m], x), ss[m].now, At(ss[n], x), ss[n].now)
  {
    hide Lawful, Inv, Ready, Step, TransitionDelay, UpdateBall, Descended, Classified, NextTransitionEvent, FastFiz, Exact, Get, Find;
    var m := LastTouch(ss, n, x, x);
    if m > 0 && At(ss[m], x).Moving() {
      FastFizLawful(env, possible);
      TraceFinds(FastFiz(env, possible), balls, sp, ss, n - 1, x, x);
      TraceKeeps(FastFiz(env, possible), balls, sp, ss, n - 1);
      assert Step(FastFiz(env, possible), ss[n - 1], true) == Continue(ss[n]);
      if m == n {
        TouchedClassified(env, possible, ss[n - 1], ss[n], x);
        DescendsFromItself(env, At(ss[n], x), ss[n].now);
      } else {
        Follows(env, possible, balls, sp, ss, n - 1, x);
        NotOvertaken(env, possible, balls, sp, ss, n - 1, x);
        AcrossUntouched(env, possible, ss[n - 1], ss[n], x);
        DescendOn(env, At(ss[m], x), ss[m].now, At(ss[n - 1], x), ss[n - 1].now, ss[n].now);
        DescendShifted(env, At(ss[m], x), ss[m].now, UpdateBall(env, At(ss[n - 1], x), ss[n - 1].now, ss[n].now), At(ss[n], x).r, ss[n].now);
      }
    }
  }

  lemma DescendsFromItself(env: Env, b: Ball, t: real)
    requires b.Moving() && Classified(env, b)
    ensures Descended(env, b, t, b, t)
  {
    hide Classified, NextTransitionEvent;
  }

  lemma DescendShifted(env: Env, b: Ball, t: real, c: Ball, r: Point, u: real)
    requires Descended(env, b, t, c, u)
    ensures Descended(env, b, t, c.(r := r), u)
  {
    hide Classified, NextTransitionEvent, TransitionDelay;
    Shifted(env, c, r);
  }

  /** What `RanksFall` says of the iterations around one state change. */
  lemma ChangeFires(env: Env, possible: (seq<Ball>, ShotParams) -> bool, b: Ball, t: real, s: Sim, next: Sim, x: BallId)
    requires Exact(env) && Inv(s) && s.queue != [] && Step(FastFiz(env, possible), s, true) == Continue(next)
    requires Find(s.balls, x) < |s.balls| && Cause(s).kind.StateChange? && Cause(s).ball1 == x
    requires Descended(env, b, t, At(s, x), s.now) && Some(Cause(s)) == NextTransitionEvent(env, b, t)
    ensures next.now == t + TransitionDelay(env, b) && At(next, x).Rank() < b.Rank()
    ensures At(next, x) == UpdateBall(env, At(s, x), s.now, next.now).(r := At(next, x).r)
  {
    hide Lawful, Inv, Step, TransitionDelay, UpdateBall, Descended, Classified, Classify, FastFiz;
    InvAhead(s);
    FiredChange(env, possible, s, next, x);
    DescendOn(env, b, t, At(s, x), s.now, next.now);
    var c := UpdateBall(env, At(s, x), s.now, next.now);
    DescendShifted(env, b, t, c, At(next, x).r, next.now);
    Reclassified(env, b, t, c.(r := At(next, x).r), next.now);
  }

  /** A state change that fires finds its ball in a strictly lower state than the one it was
      scheduled in, at exactly the predicted time, and changes nothing more. */
  lemma RanksFall(env: Env, possible: (seq<Ball>, ShotParams) -> bool, balls: seq<Ball>, sp: ShotParams, ss: seq<Sim>, n: nat, x: BallId)
    requires Exact(env) && Ready(balls) && IsTrace(FastFiz(env, possible), balls, sp, ss) && n + 1 < |ss|
    requires Find(balls, x) < |balls| && Cause(ss[n]).kind.StateChange? && Cause(ss[n]).ball1 == x
    ensures var m := LastTouch(ss, n, x, x);
      && m > 0 && At(ss[m], x).Moving()
      && ss[n + 1].now == ss[m].now + TransitionDelay(env, At(ss[m], x))
      && At(ss[n + 1], x) == UpdateBall(env, At(ss[n], x), ss[n].now, ss[n + 1].now).(r := At(ss[n + 1], x).r)
      && At(ss[n + 1], x).Rank() < At(ss[m], x).Rank()
  {
    hide Lawful, Inv, Ready, Step, TransitionDelay, UpdateBall, Descended, FastFiz, Find, Get, Exact;
    var w := FastFiz(env, possible);
    assert Step(w, ss[n], true) == Continue(ss[n + 1]);
    NotTheStrike(w, balls, sp, ss, n);
    FastFizLawful(env, possible);
    TraceFinds(w, balls, sp, ss, n, x, x);
    TraceKeeps(w, balls, sp, ss, n);
    PendingTransition(env, possible, balls, sp, ss, n, x);
    Follows(env, possible, balls, sp, ss, n, x);
    QueuedCause(ss[n]);
    var m := LastTouch(ss, n, x, x);
    ChangeFires(env, possible, At(ss[m], x), ss[m].now, ss[n], ss[n + 1], x);
  }

  lemma QueuedCause(s: Sim)
    requires s.queue != []
    ensures Cause(s) in s.queue
  {
  }

  lemma NotTheStrike(w: World, balls: seq<Ball>, sp: ShotParams, ss: seq<Sim>, n: nat)
    requires IsTrace(w, balls, sp, ss) && n + 1 < |ss| && Cause(ss[n]).kind.StateChange?
    ensures n > 0
  {
    hide Step;
    assert ss[0] == Start(balls, sp);
  }

  lemma Reclassified(env: Env, b: Ball, t: real, c: Ball, u: real)
    requires Descended(env, b, t, c, u)
    ensures Classify(env, c) == c
  {
    hide UpdateState, NextTransitionEvent, TransitionDelay;
  }

  /** How often the state of ball `x` has changed since its last contact, after `n` iterations. */
  ghost function ChangesSinceContact(ss: seq<Sim>, n: nat, x: BallId): nat
    requires Consumed(ss) && n < |ss|
  {
    if n == 0 then 0
    else if Cause(ss[n - 1]).Involves(x) then
      if Cause(ss[n - 1]).kind.StateChange? then ChangesSinceContact(ss, n - 1, x) + 1 else 0
    else ChangesSinceContact(ss, n - 1, x)
  }

  lemma CountStep(ss: seq<Sim>, n: nat, x: BallId)
    requires Consumed(ss) && n < |ss|
    ensures n == 0 ==> ChangesSinceContact(ss, n, x) == 0 && LastTouch(ss, n, x, x) == 0
    ensures n > 0 && !Cause(ss[n - 1]).Involves(x) ==>
              ChangesSinceContact(ss, n, x) == ChangesSinceContact(ss, n - 1, x) && LastTouch(ss, n, x, x) == LastTouch(ss, n - 1, x, x)
    ensures n > 0 && Cause(ss[n - 1]).Involves(x) ==>
              && LastTouch(ss, n, x, x) == n
              && ChangesSinceContact(ss, n, x) == if Cause(ss[n - 1]).kind.StateChange? then ChangesSinceContact(ss, n - 1, x) + 1 else 0
  {
  }

  lemma RankBound(b: Ball)
    ensures b.Rank() <= 3
  {
  }

  /** A ball changes state at most three times between two contacts, and fewer the lower the
      state it is in. */
  lemma {:induction false} AtMostThreeChanges(env: Env, possible: (seq<Ball>, ShotParams) -> bool, balls: seq<Ball>, sp: ShotParams, ss: seq<Sim>, n: nat, x: BallId)
    requires Exact(env) && Ready(balls) && IsTrace(FastFiz(env, possible), balls, sp, ss) && n < |ss|
    requires Find(balls, x) < |balls|
    ensures ChangesSinceContact(ss, n, x) + At(ss[LastTouch(ss, n, x, x)], x).Rank() <= 3
  {
    hide Lawful, Inv, Ready, Step, TransitionDelay, UpdateBall, FastFiz, Exact, Get, Find, LastTouch, ChangesSinceContact, BallData.Rank;
    CountStep(ss, n, x);
    RankBound(At(ss[n], x));
    if n > 0 {
      AtMostThreeChanges(env, possible, balls, sp, ss, n - 1, x);
      var e := Cause(ss[n - 1]);
      if e.kind.StateChange? && e.ball1 == x {
        RanksFall(env, possible, balls, sp, ss, n - 1, x);
      }
    }
  }
}
