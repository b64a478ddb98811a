/** Incremental scheduling over whole traces: the queue against the history of touches, and
    against recomputing everything. */
module QueueHistory {
  import opened Balls
  import opened Events
  import opened Scheduling
  import opened SchedulerLaws
  import opened SchedulerInvariants
  import opened IncrementalQueue

  /** The event the next iteration takes. */
  function Cause(s: Sim): Event
    requires s.queue != []
  {
    s.queue[MinIndex(s.queue)]
  }

  ghost predicate Consumed(ss: seq<Sim>) {
    forall k :: 0 <= k < |ss| - 1 ==> ss[k].queue != []
  }

  /** The states of a simulation, from the cue strike still pending to the last one given. */
  ghost predicate IsTrace(w: World, balls: seq<Ball>, sp: ShotParams, ss: seq<Sim>) {
    && |ss| > 0 && ss[0] == Start(balls, sp) && Consumed(ss)
    && forall k :: 0 <= k < |ss| - 1 ==> Step(w, ss[k], true) == Continue(ss[k + 1])
  }

  predicate TouchesPair(e: Event, x: BallId, y: BallId) { e.Involves(x) || e.Involves(y) }

  /** The last of the states up to `n` produced by an event touching `x` or `y`; 0 if none was. */
  ghost function LastTouch(ss: seq<Sim>, n: nat, x: BallId, y: BallId): (k: nat)
    requires Consumed(ss) && n < |ss|
    ensures k <= n
    ensures k > 0 ==> TouchesPair(Cause(ss[k - 1]), x, y)
    ensures forall i :: k <= i < n ==> !TouchesPair(Cause(ss[i]), x, y)
  {
    if n == 0 || TouchesPair(Cause(ss[n - 1]), x, y) then n else LastTouch(ss, n - 1, x, y)
  }

  /** Both balls have a slot in a table. */
  predicate Both(balls: seq<Ball>, x: BallId, y: BallId) { Find(balls, x) < |balls| && Find(balls, y) < |balls| }

  /** What was scheduled for a pair when state `k` was produced. */
  ghost function PairAt(w: World, ss: seq<Sim>, k: nat, x: BallId, y: BallId): seq<Event>
    requires Consumed(ss) && k < |ss| && Both(ss[k].balls, x, y)
  {
    if k == 0 then PairFull(w, ss[0], x, y)
    else PairForecast(w, ss[k].balls, ss[k].now, Cause(ss[k - 1]).ball1, Cause(ss[k - 1]).Ball2(), x, y)
  }

  ghost function BallFull(w: World, s: Sim, x: BallId): seq<Event> { BallForecast(w, s.balls, s.now, x) }

  ghost function PairFull(w: World, s: Sim, x: BallId, y: BallId): seq<Event>
    requires Both(s.balls, x, y)
  {
    PairForecast(w, s.balls, s.now, UNKNOWN_ID, UNKNOWN_ID, x, y)
  }

  // ---------------------------------------------------------------- along a trace

  /** Iteration `k` of a trace. */
  lemma TraceStep(w: World, s: Sim, next: Sim) returns (mid: seq<Ball>)
    requires Lawful(w) && Inv(s) && s.queue != [] && Step(w, s, true) == Continue(next)
    ensures Advance(w, s.balls, s.now, Cause(s).time) == Separated(mid)
    ensures next == React(w, mid, Cause(s), Rest(s.queue), s.log)
    ensures Closes(next.balls, Cause(s)) && SameIds(s.balls, next.balls) && Inv(next)
  {
    StepInv(w, s, true);
    mid := Advance(w, s.balls, s.now, Cause(s).time).balls;
    ReactCloses(w, s, Cause(s), mid);
  }

  lemma {:induction false} TraceKeeps(w: World, balls: seq<Ball>, sp: ShotParams, ss: seq<Sim>, k: nat)
    requires Lawful(w) && Ready(balls) && IsTrace(w, balls, sp, ss) && k < |ss|
    ensures Inv(ss[k]) && SameIds(balls, ss[k].balls)
  {
    if k == 0 {
      StartInv(balls, sp);
    } else {
      TraceKeeps(w, balls, sp, ss, k - 1);
      var _ := TraceStep(w, ss[k - 1], ss[k]);
    }
  }

  lemma TraceFinds(w: World, balls: seq<Ball>, sp: ShotParams, ss: seq<Sim>, k: nat, x: BallId, y: BallId)
    requires Lawful(w) && Ready(balls) && IsTrace(w, balls, sp, ss) && k < |ss| && Both(balls, x, y)
    ensures Both(ss[k].balls, x, y) && RealIds(ss[k].balls) && 0.0 <= ss[k].now
    ensures x < UNKNOWN_ID && y < UNKNOWN_ID
  {
    TraceKeeps(w, balls, sp, ss, k);
    SameIdsFind(balls, ss[k].balls, x);
    SameIdsFind(balls, ss[k].balls, y);
    assert balls[Find(balls, x)].id == x && balls[Find(balls, y)].id == y;
  }

  lemma AllFind(w: World, balls: seq<Ball>, sp: ShotParams, ss: seq<Sim>, x: BallId, y: BallId)
    requires Lawful(w) && Ready(balls) && IsTrace(w, balls, sp, ss) && Both(balls, x, y)
    ensures forall k :: 0 <= k < |ss| ==> Both(ss[k].balls, x, y)
  {
    forall k | 0 <= k < |ss|
      ensures Both(ss[k].balls, x, y)
    {
      TraceFinds(w, balls, sp, ss, k, x, y);
    }
  }

  /** Before the cue strike nothing would be predicted. */
  lemma NothingForecast(w: World, s: Sim, x: BallId, y: BallId)
    requires Lawful(w) && Ready(s.balls) && s.now == 0.0 && Both(s.balls, x, y)
    ensures BallFull(w, s, x) == [] && PairFull(w, s, x, y) == []
  {
    var b := Get(s.balls, x);
    assert b == s.balls[Find(s.balls, x)] && !b.Moving();
  }

  lemma StartSelected(balls: seq<Ball>, sp: ShotParams, x: BallId, y: BallId)
    ensures OfPair(Start(balls, sp).queue, x, y) == []
    ensures x != CUE ==> OfBall(Start(balls, sp).queue, x) == []
  {
    FilterNone(Start(balls, sp).queue, HitP(x, y));
    if x != CUE {
      FilterNone(Start(balls, sp).queue, AloneP(x));
    }
  }

  /** The queue after one iteration, per ball and per pair. */
  lemma StepSelected(w: World, s: Sim, next: Sim, x: BallId, y: BallId)
    requires Lawful(w) && Inv(s) && s.queue != [] && Step(w, s, true) == Continue(next)
    requires Both(next.balls, x, y)
    ensures OfBall(next.queue, x) == if Cause(s).Involves(x) then BallFull(w, next, x) else OfBall(s.queue, x)
    ensures OfPair(next.queue, x, y)
         == if TouchesPair(Cause(s), x, y)
            then PairForecast(w, next.balls, next.now, Cause(s).ball1, Cause(s).Ball2(), x, y)
            else OfPair(s.queue, x, y)
  {
    hide Lawful, Filter, BallForecast, PairForecast, Predicted, Inv;
    var mid := TraceStep(w, s, next);
    QueueOfBall(w, s.queue, next.balls, x);
    QueueOfPair(w, s.queue, next.balls, x, y);
  }

  /** After any number of iterations the queue holds, for each ball and each ordered pair,
      exactly what was predicted after the last event that touched one of them; only a hit
      between two balls that had just collided is ever left out. */
  lemma {:induction false} QueueIsLatestForecast(w: World, balls: seq<Ball>, sp: ShotParams, ss: seq<Sim>, n: nat, x: BallId, y: BallId)
    requires Lawful(w) && Ready(balls) && IsTrace(w, balls, sp, ss) && 0 < n < |ss|
    requires Both(balls, x, y)
    ensures forall k :: 0 <= k < |ss| ==> Both(ss[k].balls, x, y)
    ensures OfBall(ss[n].queue, x) == BallFull(w, ss[LastTouch(ss, n, x, x)], x)
    ensures OfPair(ss[n].queue, x, y) == PairAt(w, ss, LastTouch(ss, n, x, y), x, y)
  {
    hide Lawful, Filter, BallForecast, PairForecast, Inv, Step;
    AllFind(w, balls, sp, ss, x, y);
    TraceKeeps(w, balls, sp, ss, n - 1);
    StepSelected(w, ss[n - 1], ss[n], x, y);
    if n == 1 {
      StartSelected(balls, sp, x, y);
      NothingForecast(w, ss[0], x, y);
    } else {
      QueueIsLatestForecast(w, balls, sp, ss, n - 1, x, y);
    }
  }

  // ---------------------------------------------------------------- against ALL_EVENTS

  /** Predictions survive `updateTime`: what iteration `k` did not touch is forecast as before. */
  ghost predicate StableAt(w: World, s: Sim, next: Sim, x: BallId, y: BallId)
    requires s.queue != []
  {
    !TouchesPair(Cause(s), x, y) && Both(s.balls, x, y) && Both(next.balls, x, y) ==>
      && BallFull(w, next, x) == BallFull(w, s, x)
      && PairFull(w, next, x, y) == PairFull(w, s, x, y)
  }

  ghost predicate Stable(w: World, ss: seq<Sim>)
    requires Consumed(ss)
  {
    forall j, k, x, y :: 0 <= j < |ss| - 1 && k == j + 1 ==> StableAt(w, ss[j], ss[k], x, y)
  }

  lemma {:induction false} StableSince(w: World, ss: seq<Sim>, n: nat, x: BallId, y: BallId)
    requires Consumed(ss) && Stable(w, ss) && n < |ss|
    requires forall k :: 0 <= k < |ss| ==> Both(ss[k].balls, x, y)
    ensures PairFull(w, ss[n], x, y) == PairFull(w, ss[LastTouch(ss, n, x, y)], x, y)
    ensures x == y ==> BallFull(w, ss[n], x) == BallFull(w, ss[LastTouch(ss, n, x, y)], x)
  {
    hide BallFull, PairFull;
    if n > 0 && !TouchesPair(Cause(ss[n - 1]), x, y) {
      assert StableAt(w, ss[n - 1], ss[n], x, y);
      StableSince(w, ss, n - 1, x, y);
    }
  }

  /** The hit of a pair whose own collision was the last event to touch either ball, too close
      to that collision to be scheduled. */
  ghost predicate Dropped(ss: seq<Sim>, n: nat, e: Event)
    requires Consumed(ss) && n < |ss|
  {
    && e.kind.BallCollision?
    && var k := LastTouch(ss, n, e.ball1, e.kind.ball2);
       && k > 0
       && (Cause(ss[k - 1]).Hit(e.ball1, e.kind.ball2) || Cause(ss[k - 1]).Hit(e.kind.ball2, e.ball1))
       && e.time - ss[k].now <= NEAR_FUTURE_EPSILON
  }

  /** Scheduling a pair after one of its balls was touched drops its hit exactly then. */
  lemma PairKeptOrDropped(w: World, s: Sim, last: Event, x: BallId, y: BallId)
    requires Both(s.balls, x, y) && x < UNKNOWN_ID && y < UNKNOWN_ID && TouchesPair(last, x, y)
    ensures var kept := PairForecast(w, s.balls, s.now, last.ball1, last.Ball2(), x, y);
      var full := PairFull(w, s, x, y);
      && |full| <= 1
      && kept == if full != [] && (last.Hit(x, y) || last.Hit(y, x)) && full[0].time - s.now <= NEAR_FUTURE_EPSILON then [] else full
  {
  }

  lemma PairMatches(w: World, balls: seq<Ball>, sp: ShotParams, ss: seq<Sim>, n: nat, x: BallId, y: BallId, e: Event)
    requires Lawful(w) && Ready(balls) && IsTrace(w, balls, sp, ss) && 0 < n < |ss| && Stable(w, ss)
    requires Both(balls, x, y) && e.Hit(x, y)
    ensures Both(ss[n].balls, x, y)
    ensures var queued, full := multiset(OfPair(ss[n].queue, x, y)), multiset(PairFull(w, ss[n], x, y));
      queued[e] == if Dropped(ss, n, e) then 0 else full[e]
  {
    hide Lawful, Filter, PairForecast, BallForecast, PairFull, Step;
    QueueIsLatestForecast(w, balls, sp, ss, n, x, y);
    StableSince(w, ss, n, x, y);
    var k := LastTouch(ss, n, x, y);
    if k > 0 {
      TraceFinds(w, balls, sp, ss, k, x, y);
      PairKeptOrDropped(w, ss[k], Cause(ss[k - 1]), x, y);
      var full := PairFull(w, ss[k], x, y);
      assert full == [] || full == [full[0]];
    }
  }

  /** With predictions that survive `updateTime`, the incremental queue is the recomputed
      one, event for event, minus exactly the dropped hits. */
  lemma MatchesFullRecomputation(w: World, balls: seq<Ball>, sp: ShotParams, ss: seq<Sim>, n: nat, e: Event)
    requires Lawful(w) && Ready(balls) && IsTrace(w, balls, sp, ss) && 0 < n < |ss| && Stable(w, ss)
    requires Named(balls, e)
    ensures var full := Predicted(w, ss[n].balls, ss[n].now, UNKNOWN_ID, UNKNOWN_ID);
      multiset(ss[n].queue)[e] == if Dropped(ss, n, e) then 0 else multiset(full)[e]
  {
    hide Lawful, Filter, BallForecast, PairForecast, Predicted, Stable, Step;
    var full := Predicted(w, ss[n].balls, ss[n].now, UNKNOWN_ID, UNKNOWN_ID);
    var x := e.ball1;
    var y := if e.kind.BallCollision? then e.kind.ball2 else x;
    TraceFinds(w, balls, sp, ss, n, x, y);
    if e.kind.BallCollision? {
      FilterCount(full, HitP(x, y), e);
      FilterCount(ss[n].queue, HitP(x, y), e);
      PredictedPair(w, ss[n].balls, ss[n].now, UNKNOWN_ID, UNKNOWN_ID, x, y);
      PairMatches(w, balls, sp, ss, n, x, y, e);
    } else {
      FilterCount(full, AloneP(x), e);
      FilterCount(ss[n].queue, AloneP(x), e);
      PredictedBall(w, ss[n].balls, ss[n].now, UNKNOWN_ID, UNKNOWN_ID, x);
      QueueIsLatestForecast(w, balls, sp, ss, n, x, x);
      StableSince(w, ss, n, x, x);
    }
  }
}
