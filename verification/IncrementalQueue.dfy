/** The incremental update of the queue against the wipe-and-recompute version (ALL_EVENTS).
    Seen per ball and per ordered pair of balls, the queue is what the physics predicted right
    after the last event that touched one of them. */
module IncrementalQueue {
  import opened Balls
  import opened Events
  import opened Scheduling
  import opened SchedulerLaws
  import opened SchedulerInvariants

  ghost function AloneP(b: BallId): Event -> bool { (e: Event) => e.Alone(b) }

  ghost function HitP(x: BallId, y: BallId): Event -> bool { (e: Event) => e.Hit(x, y) }

  /** The queue's events of ball `b` alone. */
  ghost function OfBall(q: seq<Event>, b: BallId): seq<Event> { Filter(q, AloneP(b)) }

  /** The queue's collisions of `x` into `y`. */
  ghost function OfPair(q: seq<Event>, x: BallId, y: BallId): seq<Event> { Filter(q, HitP(x, y)) }

  lemma OfPairConcat(a: seq<Event>, b: seq<Event>, x: BallId, y: BallId)
    ensures OfPair(a + b, x, y) == OfPair(a, x, y) + OfPair(b, x, y) && OfPair([], x, y) == []
  {
    FilterConcat(a, b, HitP(x, y));
  }

  lemma OfBallConcat(a: seq<Event>, b: seq<Event>, x: BallId)
    ensures OfBall(a + b, x) == OfBall(a, x) + OfBall(b, x) && OfBall([], x) == []
  {
    FilterConcat(a, b, AloneP(x));
  }

  /** All that is predicted for one ball: its state change, then its rails and pockets. */
  ghost function BallForecast(w: World, balls: seq<Ball>, now: real, b: BallId): seq<Event> {
    TransitionOf(w, balls, now, b) + BoundaryOf(w, balls, now, b)
  }

  /** What is scheduled for an ordered pair right after an event of `b1` and `b2`. */
  ghost function PairForecast(w: World, balls: seq<Ball>, now: real, b1: BallId, b2: BallId, x: BallId, y: BallId): seq<Event>
    requires Find(balls, x) < |balls| && Find(balls, y) < |balls|
  {
    if Get(balls, x).Travelling() then HitOf(w, balls, now, b1, b2, Find(balls, x), Find(balls, y)) else []
  }

  // ---------------------------------------------------------------- selecting from predictions

  lemma ForecastOf(w: World, balls: seq<Ball>, now: real, z: BallId, b: BallId)
    requires Lawful(w) && 0.0 <= now
    ensures OfBall(TransitionOf(w, balls, now, z), b) == if z == b then TransitionOf(w, balls, now, z) else []
    ensures OfBall(BoundaryOf(w, balls, now, z), b) == if z == b then BoundaryOf(w, balls, now, z) else []
  {
    var ts, bs := TransitionOf(w, balls, now, z), BoundaryOf(w, balls, now, z);
    forall e | e in ts || e in bs
      ensures e.Alone(z)
    {
      UnaryFresh(w, balls, now, z, e);
    }
    if z == b {
      FilterAll(ts, AloneP(b));
      FilterAll(bs, AloneP(b));
    } else {
      FilterNone(ts, AloneP(b));
      FilterNone(bs, AloneP(b));
    }
  }

  lemma ForecastNoHit(w: World, balls: seq<Ball>, now: real, z: BallId, x: BallId, y: BallId)
    requires Lawful(w) && 0.0 <= now
    ensures OfPair(TransitionOf(w, balls, now, z), x, y) == [] && OfPair(BoundaryOf(w, balls, now, z), x, y) == []
  {
    var ts, bs := TransitionOf(w, balls, now, z), BoundaryOf(w, balls, now, z);
    forall e | e in ts || e in bs
      ensures !e.Hit(x, y)
    {
      UnaryFresh(w, balls, now, z, e);
    }
    FilterNone(ts, HitP(x, y));
    FilterNone(bs, HitP(x, y));
  }

  lemma HitSelected(w: World, balls: seq<Ball>, now: real, b1: BallId, b2: BallId, i: nat, j: nat, x: BallId, y: BallId)
    requires Lawful(w) && UniqueIds(balls) && i < |balls| && j < |balls| && balls[i].Travelling()
    ensures OfPair(HitOf(w, balls, now, b1, b2, i, j), x, y)
         == if balls[i].id == x && balls[j].id == y then HitOf(w, balls, now, b1, b2, i, j) else []
  {
    var hit := HitOf(w, balls, now, b1, b2, i, j);
    forall e | e in hit
      ensures e.Hit(balls[i].id, balls[j].id)
    {
      HitFresh(w, balls, now, b1, b2, i, j, e);
    }
    if balls[i].id == x && balls[j].id == y {
      FilterAll(hit, HitP(x, y));
    } else {
      FilterNone(hit, HitP(x, y));
    }
  }

  lemma HitsNotAlone(w: World, balls: seq<Ball>, now: real, b1: BallId, b2: BallId, i: nat, b: BallId)
    requires Lawful(w) && UniqueIds(balls) && i < |balls| && balls[i].Travelling()
    ensures OfBall(HitsFrom(w, balls, now, b1, b2, i, 0), b) == []
  {
    var hits := HitsFrom(w, balls, now, b1, b2, i, 0);
    forall e | e in hits
      ensures !e.Alone(b)
    {
      HitsFresh(w, balls, now, b1, b2, i, 0, e);
    }
    FilterNone(hits, AloneP(b));
  }

  lemma {:induction false} HitsSelected(w: World, balls: seq<Ball>, now: real, b1: BallId, b2: BallId, i: nat, j: nat, x: BallId, y: BallId)
    requires Lawful(w) && UniqueIds(balls) && i < |balls| && j <= |balls| && balls[i].Travelling()
    requires Find(balls, y) < |balls|
    ensures OfPair(HitsFrom(w, balls, now, b1, b2, i, j), x, y)
         == if balls[i].id == x && j <= Find(balls, y) then HitOf(w, balls, now, b1, b2, i, Find(balls, y)) else []
    decreases |balls| - j
  {
    hide Lawful, OfPair, HitOf;
    OfPairConcat([], [], x, y);
    if j < |balls| {
      HitSelected(w, balls, now, b1, b2, i, j, x, y);
      HitsSelected(w, balls, now, b1, b2, i, j + 1, x, y);
      OfPairConcat(HitOf(w, balls, now, b1, b2, i, j), HitsFrom(w, balls, now, b1, b2, i, j + 1), x, y);
      FindAt(balls, j);
    }
  }

  lemma RowPair(w: World, balls: seq<Ball>, now: real, b1: BallId, b2: BallId, i: nat, x: BallId, y: BallId)
    requires Lawful(w) && RealIds(balls) && 0.0 <= now && i < |balls|
    requires Find(balls, x) < |balls| && Find(balls, y) < |balls|
    ensures OfPair(RowOf(w, balls, now, b1, b2, i), x, y)
         == if balls[i].id == x then PairForecast(w, balls, now, b1, b2, x, y) else []
  {
    hide Lawful, Filter;
    FilterEmpty(HitP(x, y));
    FindAt(balls, i);
    var z := balls[i].id;
    var ts, bs := TransitionOf(w, balls, now, z), BoundaryOf(w, balls, now, z);
    var alone := if b1 == UNKNOWN_ID then ts + bs else [];
    var hits := if balls[i].Travelling() then HitsFrom(w, balls, now, b1, b2, i, 0) else [];
    FilterConcat(alone, hits, HitP(x, y));
    FilterConcat(ts, bs, HitP(x, y));
    ForecastNoHit(w, balls, now, z, x, y);
    if balls[i].Travelling() {
      HitsSelected(w, balls, now, b1, b2, i, 0, x, y);
    }
  }

  lemma RowBall(w: World, balls: seq<Ball>, now: real, b1: BallId, b2: BallId, i: nat, x: BallId)
    requires Lawful(w) && RealIds(balls) && 0.0 <= now && i < |balls|
    ensures OfBall(RowOf(w, balls, now, b1, b2, i), x)
         == if b1 == UNKNOWN_ID && balls[i].id == x then BallForecast(w, balls, now, x) else []
  {
    hide Lawful, Filter;
    FilterEmpty(AloneP(x));
    FindAt(balls, i);
    var z := balls[i].id;
    var ts, bs := TransitionOf(w, balls, now, z), BoundaryOf(w, balls, now, z);
    var alone := if b1 == UNKNOWN_ID then ts + bs else [];
    var hits := if balls[i].Travelling() then HitsFrom(w, balls, now, b1, b2, i, 0) else [];
    FilterConcat(alone, hits, AloneP(x));
    FilterConcat(ts, bs, AloneP(x));
    ForecastOf(w, balls, now, z, x);
    if balls[i].Travelling() {
      HitsNotAlone(w, balls, now, b1, b2, i, x);
    }
  }

  lemma {:induction false} RowsPair(w: World, balls: seq<Ball>, now: real, b1: BallId, b2: BallId, i: nat, x: BallId, y: BallId)
    requires Lawful(w) && RealIds(balls) && 0.0 <= now && i <= |balls|
    requires Find(balls, x) < |balls| && Find(balls, y) < |balls|
    ensures OfPair(RowsFrom(w, balls, now, b1, b2, i), x, y)
         == if i <= Find(balls, x) then PairForecast(w, balls, now, b1, b2, x, y) else []
    decreases |balls| - i
  {
    hide Lawful, OfPair, RowOf, PairForecast;
    OfPairConcat([], [], x, y);
    if i < |balls| {
      RowPair(w, balls, now, b1, b2, i, x, y);
      RowsPair(w, balls, now, b1, b2, i + 1, x, y);
      OfPairConcat(RowOf(w, balls, now, b1, b2, i), RowsFrom(w, balls, now, b1, b2, i + 1), x, y);
      FindAt(balls, i);
    }
  }

  lemma {:induction false} RowsBall(w: World, balls: seq<Ball>, now: real, b1: BallId, b2: BallId, i: nat, x: BallId)
    requires Lawful(w) && RealIds(balls) && 0.0 <= now && i <= |balls|
    requires Find(balls, x) < |balls|
    ensures OfBall(RowsFrom(w, balls, now, b1, b2, i), x)
         == if b1 == UNKNOWN_ID && i <= Find(balls, x) then BallForecast(w, balls, now, x) else []
    decreases |balls| - i
  {
    hide Lawful, OfBall, RowOf, BallForecast;
    OfBallConcat([], [], x);
    if i < |balls| {
      RowBall(w, balls, now, b1, b2, i, x);
      RowsBall(w, balls, now, b1, b2, i + 1, x);
      OfBallConcat(RowOf(w, balls, now, b1, b2, i), RowsFrom(w, balls, now, b1, b2, i + 1), x);
      FindAt(balls, i);
    }
  }

  lemma FilterFive(a: seq<Event>, b: seq<Event>, c: seq<Event>, d: seq<Event>, e: seq<Event>, p: Event -> bool)
    ensures Filter(a + b + c + d + e, p) == Filter(a, p) + Filter(b, p) + Filter(c, p) + Filter(d, p) + Filter(e, p)
  {
    FilterConcat(a + b + c + d, e, p);
    FilterConcat(a + b + c, d, p);
    FilterConcat(a + b, c, p);
    FilterConcat(a, b, p);
  }

  /** The collisions predicted after an event, per ordered pair. */
  lemma PredictedPair(w: World, balls: seq<Ball>, now: real, b1: BallId, b2: BallId, x: BallId, y: BallId)
    requires Lawful(w) && RealIds(balls) && 0.0 <= now
    requires Find(balls, x) < |balls| && Find(balls, y) < |balls|
    ensures OfPair(Predicted(w, balls, now, b1, b2), x, y) == PairForecast(w, balls, now, b1, b2, x, y)
  {
    hide Lawful, Filter;
    FilterEmpty(HitP(x, y));
    var t1 := TransitionOf(w, balls, now, b1);
    var t2 := if b1 == UNKNOWN_ID then [] else TransitionOf(w, balls, now, b2);
    var rows := RowsFrom(w, balls, now, b1, b2, 0);
    var e1, e2 := BoundaryOf(w, balls, now, b1), BoundaryOf(w, balls, now, b2);
    FilterFive(t1, t2, rows, e1, e2, HitP(x, y));
    ForecastNoHit(w, balls, now, b1, x, y);
    ForecastNoHit(w, balls, now, b2, x, y);
    RowsPair(w, balls, now, b1, b2, 0, x, y);
  }

  /** The other events predicted after an event, per ball. */
  lemma PredictedBall(w: World, balls: seq<Ball>, now: real, b1: BallId, b2: BallId, x: BallId)
    requires Lawful(w) && RealIds(balls) && 0.0 <= now
    requires if b1 == UNKNOWN_ID then b2 == UNKNOWN_ID else b1 != b2
    requires Find(balls, x) < |balls|
    ensures OfBall(Predicted(w, balls, now, b1, b2), x)
         == if b1 == UNKNOWN_ID || x == b1 || x == b2 then BallForecast(w, balls, now, x) else []
  {
    hide Lawful, Filter, RowsFrom, BallForecast, TransitionOf, BoundaryOf;
    FilterEmpty(AloneP(x));
    var t1 := TransitionOf(w, balls, now, b1);
    var t2 := if b1 == UNKNOWN_ID then [] else TransitionOf(w, balls, now, b2);
    var rows := RowsFrom(w, balls, now, b1, b2, 0);
    var e1, e2 := BoundaryOf(w, balls, now, b1), BoundaryOf(w, balls, now, b2);
    FilterFive(t1, t2, rows, e1, e2, AloneP(x));
    ForecastOf(w, balls, now, b1, x);
    ForecastOf(w, balls, now, b2, x);
    RowsBall(w, balls, now, b1, b2, 0, x);
    assert balls[Find(balls, x)].id == x;
    ForecastParts(w, balls, now, x);
  }

  lemma ForecastParts(w: World, balls: seq<Ball>, now: real, x: BallId)
    ensures BallForecast(w, balls, now, x) == TransitionOf(w, balls, now, x) + BoundaryOf(w, balls, now, x)
  {
  }

  // ---------------------------------------------------------------- one iteration

  lemma {:induction false} RemoveRelatedNone(q: seq<Event>, last: Event, p: Event -> bool)
    requires forall e :: e in q && p(e) ==> !last.RelatedTo(e)
    ensures Filter(RemoveRelated(q, last), p) == Filter(q, p)
  {
    if q != [] {
      RemoveRelatedNone(q[1..], last, p);
      FilterConcat(if last.RelatedTo(q[0]) then [] else [q[0]], RemoveRelated(q[1..], last), p);
      FilterConcat([q[0]], q[1..], p);
      assert q == [q[0]] + q[1..];
    }
  }

  /** Removing related events wipes the selections the event touches and keeps the others. */
  lemma RemainderSelected(q: seq<Event>, p: Event -> bool, touched: bool)
    requires q != []
    requires var e := q[MinIndex(q)]; if touched then forall x :: p(x) ==> e.RelatedTo(x) else !p(e) && forall x :: p(x) ==> !e.RelatedTo(x)
    ensures Filter(RemoveRelated(Rest(q), q[MinIndex(q)]), p) == if touched then [] else Filter(q, p)
  {
    var e := q[MinIndex(q)];
    if touched {
      FilterNone(RemoveRelated(Rest(q), e), p);
    } else {
      RemoveRelatedNone(Rest(q), e, p);
      FilterWithout(q, MinIndex(q), p);
    }
  }

  /** An event between balls of the table, and the table it leaves. */
  ghost predicate Closes(after: seq<Ball>, e: Event) {
    RealIds(after) && 0.0 <= e.time && e.ball1 != UNKNOWN_ID && e.ball1 != e.Ball2()
  }

  lemma ReactCloses(w: World, s: Sim, e: Event, mid: seq<Ball>)
    requires Lawful(w) && Inv(s) && s.queue != [] && e == s.queue[MinIndex(s.queue)]
    requires Advance(w, s.balls, s.now, e.time) == Separated(mid)
    ensures Closes(Handle(w, mid, e), e) && SameIds(s.balls, Handle(w, mid, e))
  {
    SoundNamed(s.balls, s.now, e);
    ReactEvolves(w, s, e, mid);
    ReactInv(w, s, e, mid);
  }

  /** The new queue predicts anew for the balls the event touched and keeps the others' events. */
  lemma {:induction false} QueueOfBall(w: World, q: seq<Event>, after: seq<Ball>, x: BallId)
    requires Lawful(w) && q != []
    requires Closes(after, q[MinIndex(q)]) && Find(after, x) < |after|
    ensures var e := q[MinIndex(q)];
      OfBall(RemoveRelated(Rest(q), e) + Predicted(w, after, e.time, e.ball1, e.Ball2()), x)
        == if e.Involves(x) then BallForecast(w, after, e.time, x) else OfBall(q, x)
  {
    hide Lawful, Filter, Predicted, BallForecast, Rest;
    var e := q[MinIndex(q)];
    FilterConcat(RemoveRelated(Rest(q), e), Predicted(w, after, e.time, e.ball1, e.Ball2()), AloneP(x));
    RemainderSelected(q, AloneP(x), e.Involves(x));
    PredictedBall(w, after, e.time, e.ball1, e.Ball2(), x);
    assert after[Find(after, x)].id == x && x != UNKNOWN_ID;
  }

  lemma QueueOfPair(w: World, q: seq<Event>, after: seq<Ball>, x: BallId, y: BallId)
    requires Lawful(w) && q != []
    requires Closes(after, q[MinIndex(q)]) && Find(after, x) < |after| && Find(after, y) < |after|
    ensures var e := q[MinIndex(q)];
      OfPair(RemoveRelated(Rest(q), e) + Predicted(w, after, e.time, e.ball1, e.Ball2()), x, y)
        == if e.Involves(x) || e.Involves(y) then PairForecast(w, after, e.time, e.ball1, e.Ball2(), x, y) else OfPair(q, x, y)
  {
    hide Lawful, Filter, Predicted, PairForecast, Rest;
    var e := q[MinIndex(q)];
    FilterConcat(RemoveRelated(Rest(q), e), Predicted(w, after, e.time, e.ball1, e.Ball2()), HitP(x, y));
    RemainderSelected(q, HitP(x, y), e.Involves(x) || e.Involves(y));
    PredictedPair(w, after, e.time, e.ball1, e.Ball2(), x, y);
    assert after[Find(after, x)].id == x && after[Find(after, y)].id == y;
    if !e.Involves(x) && !e.Involves(y) {
      NotConcerned(w, after, e.time, e, x, y);
    }
  }

  /** A pair the event does not touch is not looked at again. */
  lemma NotConcerned(w: World, balls: seq<Ball>, now: real, e: Event, x: BallId, y: BallId)
    requires Find(balls, x) < |balls| && Find(balls, y) < |balls|
    requires x != UNKNOWN_ID && y != UNKNOWN_ID && e.ball1 != UNKNOWN_ID
    requires !e.Involves(x) && !e.Involves(y)
    ensures PairForecast(w, balls, now, e.ball1, e.Ball2(), x, y) == []
  {
  }
}
