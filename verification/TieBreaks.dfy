/** Which of several events due at one time is taken first. */
module TieBreaks {
  import opened Balls
  import opened Events
  import opened Scheduling
  import opened SchedulerLaws

  /** State changes, then hits, then rails and pockets. */
  function Order(kind: Kind): nat { if kind.StateChange? then 0 else if kind.BallCollision? then 1 else 2 }

  ghost predicate All(q: seq<Event>, order: nat) { forall k :: 0 <= k < |q| ==> Order(q[k].kind) == order }

  lemma TransitionsFirst(w: World, balls: seq<Ball>, now: real, b: BallId)
    requires Lawful(w)
    ensures All(TransitionOf(w, balls, now, b), 0)
  {
  }

  lemma BoundariesLast(w: World, balls: seq<Ball>, now: real, b: BallId)
    requires Lawful(w) && 0.0 <= now
    ensures All(BoundaryOf(w, balls, now, b), 2)
  {
    var q := BoundaryOf(w, balls, now, b);
    forall k | 0 <= k < |q|
      ensures Order(q[k].kind) == 2
    {
      assert q[k] in w.boundary(Get(balls, b), now);
      assert BoundaryEvent(q[k], Get(balls, b), now);
    }
  }

  lemma {:induction false} HitsBetween(w: World, balls: seq<Ball>, now: real, b1: BallId, b2: BallId, i: nat, j: nat)
    requires Lawful(w) && i < |balls| && j <= |balls| && balls[i].Travelling()
    ensures All(HitsFrom(w, balls, now, b1, b2, i, j), 1)
    decreases |balls| - j
  {
    if j < |balls| {
      HitsBetween(w, balls, now, b1, b2, i, j + 1);
    }
  }

  lemma {:induction false} RowsBetween(w: World, balls: seq<Ball>, now: real, b1: BallId, b2: BallId, i: nat)
    requires Lawful(w) && i <= |balls| && b1 != UNKNOWN_ID
    ensures All(RowsFrom(w, balls, now, b1, b2, i), 1)
    decreases |balls| - i
  {
    hide Lawful, HitsFrom;
    if i < |balls| {
      RowsBetween(w, balls, now, b1, b2, i + 1);
      if balls[i].Travelling() {
        HitsBetween(w, balls, now, b1, b2, i, 0);
      }
    }
  }

  ghost predicate Ordered(q: seq<Event>) { forall j, k :: 0 <= j < k < |q| ==> Order(q[j].kind) <= Order(q[k].kind) }

  lemma PredictedOrdered(w: World, balls: seq<Ball>, now: real, b1: BallId, b2: BallId)
    requires Lawful(w) && 0.0 <= now && b1 != UNKNOWN_ID
    ensures Ordered(Predicted(w, balls, now, b1, b2))
  {
    hide Lawful, TransitionOf, RowsFrom, BoundaryOf;
    TransitionsFirst(w, balls, now, b1);
    TransitionsFirst(w, balls, now, b2);
    RowsBetween(w, balls, now, b1, b2, 0);
    BoundariesLast(w, balls, now, b1);
    BoundariesLast(w, balls, now, b2);
  }

  lemma FirstOfBoth(kept: seq<Event>, added: seq<Event>)
    requires Ordered(added) && kept + added != []
    ensures var q := kept + added; var m := MinIndex(q);
      q[m] in kept || forall k :: 0 <= k < |q| && q[k].time == q[m].time ==> q[k] !in kept && Order(q[m].kind) <= Order(q[k].kind)
  {
    var q := kept + added;
    var m := MinIndex(q);
    if q[m] !in kept {
      assert m >= |kept|;
      assert forall i :: 0 <= i < |kept| ==> q[i] == kept[i];
      assert forall x :: x in kept ==> q[m].time < x.time;
      forall k | 0 <= k < |q| && q[k].time == q[m].time
        ensures q[k] !in kept && Order(q[m].kind) <= Order(q[k].kind)
      {
        assert m <= k;
        assert q[m] == added[m - |kept|] && q[k] == added[k - |kept|];
      }
    }
  }

  /** Of the events due first one that was queued before is taken before any that has just been predicted; of
      the latter a state change comes before a hit, and a hit before a rail or a pocket. */
  lemma TieBroken(w: World, mid: seq<Ball>, e: Event, rest: seq<Event>, log: seq<Record>)
    requires Lawful(w) && 0.0 <= e.time && e.ball1 != UNKNOWN_ID
    requires React(w, mid, e, rest, log).queue != []
    ensures var q := React(w, mid, e, rest, log).queue; var first := q[MinIndex(q)];
      || (first in rest && !e.RelatedTo(first))
      || forall x :: x in q && x.time == first.time ==> !(x in rest && !e.RelatedTo(x)) && Order(first.kind) <= Order(x.kind)
  {
    hide Lawful, Predicted, Handle;
    var handled := Handle(w, mid, e);
    PredictedOrdered(w, handled, e.time, e.ball1, e.Ball2());
    FirstOfBoth(RemoveRelated(rest, e), Predicted(w, handled, e.time, e.ball1, e.Ball2()));
  }
}
