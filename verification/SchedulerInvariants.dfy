/** What every iteration of the scheduler keeps: times, names, pending state changes,
    the fate of pocketed balls, and the first contact of the cue ball. */
module SchedulerInvariants {
  import opened Wrappers
  import opened Balls
  import opened Events
  import opened Scheduling
  import opened SchedulerLaws

  // ---------------------------------------------------------------- predicted events

  /** An event that makes sense on a table: it is not in the past and names balls in play. */
  ghost predicate Sound(balls: seq<Ball>, now: real, e: Event) {
    && e.time >= now
    && OnTable(balls, e.ball1)
    && (e.kind.BallCollision? ==> e.kind.ball2 != e.ball1 && OnTable(balls, e.kind.ball2))
    && (e.kind.Pocketed? ==> e.kind.pocket < UNKNOWN_POCKET)
  }

  /** Sound, and one of the events a prediction produces. */
  ghost predicate Fresh(balls: seq<Ball>, now: real, e: Event) {
    Sound(balls, now, e) && !e.kind.CueStrike?
  }

  lemma UnaryFresh(w: World, balls: seq<Ball>, now: real, b: BallId, e: Event)
    requires Lawful(w) && 0.0 <= now
    requires e in TransitionOf(w, balls, now, b) || e in BoundaryOf(w, balls, now, b)
    ensures Fresh(balls, now, e) && e.ball1 == b && !e.kind.BallCollision?
  {
    var ball := Get(balls, b);
    if e in BoundaryOf(w, balls, now, b) {
      assert BoundaryEvent(e, ball, now);
    }
    assert ball.Moving();
    assert Find(balls, b) < |balls| && balls[Find(balls, b)] == ball;
  }

  lemma HitFresh(w: World, balls: seq<Ball>, now: real, b1: BallId, b2: BallId, i: nat, j: nat, e: Event)
    requires Lawful(w) && UniqueIds(balls) && i < |balls| && j < |balls| && balls[i].Travelling()
    requires e in HitOf(w, balls, now, b1, b2, i, j)
    ensures Fresh(balls, now, e) && e.Hit(balls[i].id, balls[j].id)
    ensures Concerned(b1, b2, e.ball1, e.Ball2())
  {
    var hit := w.collision(balls[i], balls[j], now);
    assert hit == Some(e);
  }

  lemma {:induction false} HitsFresh(w: World, balls: seq<Ball>, now: real, b1: BallId, b2: BallId, i: nat, j: nat, e: Event)
    requires Lawful(w) && UniqueIds(balls) && i < |balls| && j <= |balls| && balls[i].Travelling()
    requires e in HitsFrom(w, balls, now, b1, b2, i, j)
    ensures Fresh(balls, now, e) && e.kind.BallCollision? && e.ball1 == balls[i].id
    ensures Concerned(b1, b2, e.ball1, e.Ball2())
    decreases |balls| - j
  {
    if e in HitOf(w, balls, now, b1, b2, i, j) {
      HitFresh(w, balls, now, b1, b2, i, j, e);
    } else {
      HitsFresh(w, balls, now, b1, b2, i, j + 1, e);
    }
  }

  lemma {:induction false} RowsFresh(w: World, balls: seq<Ball>, now: real, b1: BallId, b2: BallId, i: nat, e: Event)
    requires Lawful(w) && UniqueIds(balls) && i <= |balls| && b1 != UNKNOWN_ID
    requires e in RowsFrom(w, balls, now, b1, b2, i)
    ensures Fresh(balls, now, e) && e.kind.BallCollision?
    ensures Concerned(b1, b2, e.ball1, e.Ball2())
    ensures exists k :: 0 <= k < |balls| && balls[k].Travelling() && balls[k].id == e.ball1
    decreases |balls| - i
  {
    hide Lawful, HitsFrom;
    if e in RowOf(w, balls, now, b1, b2, i) {
      HitsFresh(w, balls, now, b1, b2, i, 0, e);
    } else {
      RowsFresh(w, balls, now, b1, b2, i + 1, e);
    }
  }

  lemma PredictedFresh(w: World, balls: seq<Ball>, now: real, last: Event, e: Event)
    requires Lawful(w) && UniqueIds(balls) && 0.0 <= now && last.ball1 != UNKNOWN_ID
    requires e in Predicted(w, balls, now, last.ball1, last.Ball2())
    ensures Fresh(balls, now, e)
    ensures e.kind.BallCollision? ==> exists k :: 0 <= k < |balls| && balls[k].Travelling() && balls[k].id == e.ball1
    ensures !e.kind.BallCollision? ==> last.Involves(e.ball1)
  {
    var b1, b2 := last.ball1, last.Ball2();
    if e in TransitionOf(w, balls, now, b1) || e in BoundaryOf(w, balls, now, b1) {
      UnaryFresh(w, balls, now, b1, e);
    } else if e in TransitionOf(w, balls, now, b2) || e in BoundaryOf(w, balls, now, b2) {
      UnaryFresh(w, balls, now, b2, e);
    } else {
      RowsFresh(w, balls, now, b1, b2, 0, e);
    }
  }

  // ---------------------------------------------------------------- the core invariant

  /** Every moving ball has a state change coming. */
  ghost predicate Pending(balls: seq<Ball>, queue: seq<Event>) {
    forall i :: 0 <= i < |balls| && balls[i].Moving() ==>
      exists e :: e in queue && e.kind.StateChange? && e.ball1 == balls[i].id
  }

  ghost predicate Inv(s: Sim) {
    && RealIds(s.balls)
    && 0.0 <= s.now
    && (forall e :: e in s.queue ==> Sound(s.balls, s.now, e))
    && Pending(s.balls, s.queue)
  }

  /** What a caller of `simulateShot` must bring. */
  ghost predicate Ready(balls: seq<Ball>) {
    && RealIds(balls)
    && OnTable(balls, CUE)
    && forall i :: 0 <= i < |balls| && balls[i].InPlay() ==> balls[i].state.Stationary?
  }

  lemma StartInv(balls: seq<Ball>, sp: ShotParams)
    requires Ready(balls)
    ensures Inv(Start(balls, sp))
  {
    forall i | 0 <= i < |balls|
      ensures !balls[i].Moving()
    {
      assert balls[i].InPlay() ==> balls[i].state.Stationary?;
    }
  }

  /** On such a table nothing moves by itself. */
  lemma StillMoved(w: World, balls: seq<Ball>)
    requires Lawful(w) && Ready(balls)
    ensures MoveAll(w, balls, 0.0, 0.0) == balls
  {
    forall i | 0 <= i < |balls|
      ensures w.move(balls[i], 0.0, 0.0) == balls[i]
    {
      assert !balls[i].Moving();
    }
  }

  /** The first iteration of any shot on a table that needs no separation. */
  lemma StrikeStep(w: World, balls: seq<Ball>, sp: ShotParams)
    requires Lawful(w) && Ready(balls) && w.separate(balls) == Separated(balls)
    ensures Step(w, Start(balls, sp), true) == Continue(React(w, balls, Start(balls, sp).queue[0], [], []))
  {
    StillMoved(w, balls);
    hide Lawful, MoveAll, Handle, Predicted;
    assert Rest(Start(balls, sp).queue) == [];
  }

  lemma SoundNamed(balls: seq<Ball>, now: real, e: Event)
    requires RealIds(balls) && Sound(balls, now, e)
    ensures Named(balls, e) && e.ball1 != UNKNOWN_ID
    ensures e.kind.BallCollision? ==> e.kind.ball2 != UNKNOWN_ID
  {
  }

  /** The event an iteration takes, and what it leaves in the queue. */
  lemma Popped(s: Sim)
    requires s.queue != []
    ensures var e := s.queue[MinIndex(s.queue)];
      && e in s.queue
      && (forall x :: x in Rest(s.queue) ==> x in s.queue && e.time <= x.time)
      && (forall x :: x in s.queue && x != e ==> x in Rest(s.queue))
  {
    var m := MinIndex(s.queue);
    assert s.queue == s.queue[..m] + [s.queue[m]] + s.queue[m + 1..];
  }

  /** One ball across one iteration. */
  lemma BallAcross(w: World, s: Sim, e: Event, mid: seq<Ball>, i: nat)
    requires Lawful(w) && RealIds(s.balls) && Sound(s.balls, s.now, e) && i < |s.balls|
    requires Advance(w, s.balls, s.now, e.time) == Separated(mid)
    ensures var was, after := s.balls[i], Handle(w, mid, e);
      && |after| == |s.balls| && after[i].id == was.id
      && (!e.Involves(was.id) ==>
            (was.InPlay() <==> after[i].InPlay()) && (!was.InPlay() ==> after[i] == was) && (after[i].Moving() ==> was.Moving()))
      && (e.Involves(was.id) && was.InPlay() ==> if e.kind.Pocketed? then after[i].IsPocketed() else after[i].InPlay())
  {
    hide Lawful, Handle, Advance, MoveAll;
    SoundNamed(s.balls, s.now, e);
    ReactEvolves(w, s, e, mid);
    StillAcross(w, s.balls, mid, Handle(w, mid, e), s.now, e, i);
  }

  /** A ball no event touches stays in play (or out of it) across an iteration. */
  lemma UntouchedOnTable(w: World, before: seq<Ball>, mid: seq<Ball>, after: seq<Ball>, t0: real, e: Event, b: BallId)
    requires Lawful(w) && Evolved(w, before, mid, after, t0, e) && UniqueIds(before)
    requires OnTable(before, b) && !e.Involves(b)
    ensures OnTable(after, b)
  {
    var i :| 0 <= i < |before| && before[i].id == b && before[i].InPlay();
    StillAcross(w, before, mid, after, t0, e, i);
    assert after[i] == mid[i];
  }

  lemma ReactSound(w: World, s: Sim, e: Event, mid: seq<Ball>, x: Event)
    requires Lawful(w) && Inv(s) && s.queue != [] && e == s.queue[MinIndex(s.queue)]
    requires Advance(w, s.balls, s.now, e.time) == Separated(mid)
    requires x in React(w, mid, e, Rest(s.queue), s.log).queue
    ensures Sound(Handle(w, mid, e), e.time, x)
  {
    Popped(s);
    SoundNamed(s.balls, s.now, e);
    ReactEvolves(w, s, e, mid);
    var after := Handle(w, mid, e);
    if x in RemoveRelated(Rest(s.queue), e) {
      assert Sound(s.balls, s.now, x);
      UntouchedOnTable(w, s.balls, mid, after, s.now, e, x.ball1);
      if x.kind.BallCollision? {
        UntouchedOnTable(w, s.balls, mid, after, s.now, e, x.kind.ball2);
      }
    } else {
      PredictedFresh(w, after, e.time, e, x);
    }
  }

  lemma TransitionPredicted(w: World, after: seq<Ball>, e: Event, i: nat)
    requires Lawful(w) && UniqueIds(after) && i < |after| && after[i].Moving()
    requires e.Involves(after[i].id) && e.ball1 != UNKNOWN_ID && after[i].id != UNKNOWN_ID
    ensures exists x :: x in Predicted(w, after, e.time, e.ball1, e.Ball2()) && x.kind.StateChange? && x.ball1 == after[i].id
  {
    hide RowsFrom, BoundaryOf;
    FindAt(after, i);
    var x := w.transition(after[i], e.time).value;
    assert x in TransitionOf(w, after, e.time, after[i].id);
    assert x in Predicted(w, after, e.time, e.ball1, e.Ball2());
  }

  lemma ReactPending(w: World, s: Sim, e: Event, mid: seq<Ball>, i: nat)
    requires Lawful(w) && Inv(s) && s.queue != [] && e == s.queue[MinIndex(s.queue)]
    requires Advance(w, s.balls, s.now, e.time) == Separated(mid)
    requires UniqueIds(Handle(w, mid, e)) && i < |Handle(w, mid, e)| == |s.balls| && Handle(w, mid, e)[i].Moving()
    ensures exists x :: x in React(w, mid, e, Rest(s.queue), s.log).queue && x.kind.StateChange? && x.ball1 == Handle(w, mid, e)[i].id
  {
    hide Lawful, Predicted, Handle, Advance;
    Popped(s);
    BallAcross(w, s, e, mid, i);
    var b := s.balls[i].id;
    if e.Involves(b) {
      SoundNamed(s.balls, s.now, e);
      TransitionPredicted(w, Handle(w, mid, e), e, i);
    } else {
      var x :| x in s.queue && x.kind.StateChange? && x.ball1 == b;
      assert x in RemoveRelated(Rest(s.queue), e);
    }
  }

  lemma ReactInv(w: World, s: Sim, e: Event, mid: seq<Ball>)
    requires Lawful(w) && Inv(s) && s.queue != [] && e == s.queue[MinIndex(s.queue)]
    requires Advance(w, s.balls, s.now, e.time) == Separated(mid)
    ensures Inv(React(w, mid, e, Rest(s.queue), s.log))
    ensures s.now <= e.time
  {
    Popped(s);
    SoundNamed(s.balls, s.now, e);
    ReactEvolves(w, s, e, mid);
    var next := React(w, mid, e, Rest(s.queue), s.log);
    forall x | x in next.queue
      ensures Sound(next.balls, next.now, x)
    {
      ReactSound(w, s, e, mid, x);
    }
    forall i | 0 <= i < |next.balls| && next.balls[i].Moving()
      ensures exists x :: x in next.queue && x.kind.StateChange? && x.ball1 == next.balls[i].id
    {
      ReactPending(w, s, e, mid, i);
    }
  }

  /** One iteration keeps the invariant, never goes back in time, and can only fail
      because the balls could not be separated. */
  lemma StepInv(w: World, s: Sim, fullSim: bool)
    requires Lawful(w) && Inv(s) && s.queue != []
    ensures s.queue[MinIndex(s.queue)].time >= s.now
    ensures Step(w, s, fullSim).Continue? ==> Inv(Step(w, s, fullSim).sim)
    ensures Step(w, s, fullSim).Broken? ==>
              Advance(w, s.balls, s.now, s.queue[MinIndex(s.queue)].time).StillOverlapping?
  {
    hide Lawful, Pending, Advance, Handle, Predicted, RemoveRelated;
    Popped(s);
    var e := s.queue[MinIndex(s.queue)];
    if Advance(w, s.balls, s.now, e.time).Separated? {
      ReactInv(w, s, e, Advance(w, s.balls, s.now, e.time).balls);
    }
  }
}
