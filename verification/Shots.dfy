/** The simulator as the code runs it: a queue and a table changed in place, one iteration after
    another (`Shot`). Each method is proved equal to the function of `Scheduling` that specifies
    it, so every theorem about `Simulate` is a theorem about `SimulateShot`. */
module Shots {
  import opened Wrappers
  import opened Balls
  import opened Events
  import opened Kinematics
  import opened Scheduling
  import opened TableStates
  import opened Collisions
  import opened Prediction
  import opened Physics

  /** Both balls an event names have a slot, as they have once it was handled. */
  ghost predicate Slots(balls: seq<Ball>, b1: BallId, b2: BallId) {
    && (b1 != UNKNOWN_ID ==> Find(balls, b1) < |balls|)
    && (b2 != UNKNOWN_ID ==> Find(balls, b2) < |balls|)
  }

  /** The collision scheduled for a pair, as the code tests it. */
  lemma HitTest(env: Env, possible: (seq<Ball>, ShotParams) -> bool, balls: seq<Ball>, now: real, b1: BallId, b2: BallId, i: nat, j: nat)
    requires i < |balls| && j < |balls| && balls[i].Travelling()
    ensures var x, y := balls[i].id, balls[j].id;
      HitOf(FastFiz(env, possible), balls, now, b1, b2, i, j) ==
        if i != j && (b1 == UNKNOWN_ID || x == b1 || y == b1 || x == b2 || y == b2) then
          var e := NextCollisionEvent(env, balls[i], balls[j], now);
          if e.Some? && (((b1 != x || b2 != y) && (b1 != y || b2 != x)) || e.value.time - now > NEAR_FUTURE_EPSILON) then [e.value] else []
        else []
  {
    hide NextCollisionEvent;
  }

  lemma RowTest(env: Env, possible: (seq<Ball>, ShotParams) -> bool, balls: seq<Ball>, now: real, b1: BallId, b2: BallId, i: nat)
    requires i < |balls|
    ensures var w := FastFiz(env, possible);
      var hits := if balls[i].Travelling() then HitsFrom(w, balls, now, b1, b2, i, 0) else [];
      RowOf(w, balls, now, b1, b2, i) ==
        if b1 == UNKNOWN_ID then List(NextTransitionEvent(env, balls[i], now)) + BoundaryEvents(env, balls[i], now) + hits else hits
  {
    hide NextTransitionEvent, BoundaryEvents, HitsFrom;
  }

  /** Erasing one element, and stepping over one, at a cursor. */
  lemma AtCursor(done: seq<Event>, rest: seq<Event>)
    requires rest != []
    ensures var all, k := done + rest, |done|;
      && all[k] == rest[0]
      && all[..k] + all[k + 1..] == done + rest[1..]
      && all == done + [rest[0]] + rest[1..]
  {
  }

  lemma RemoveStep(done: seq<Event>, rest: seq<Event>, last: Event)
    requires rest != []
    ensures done + RemoveRelated(rest, last)
         == (if last.RelatedTo(rest[0]) then done else done + [rest[0]]) + RemoveRelated(rest[1..], last)
  {
    Append(done, [rest[0]], RemoveRelated(rest[1..], last));
    assert [] + RemoveRelated(rest[1..], last) == RemoveRelated(rest[1..], last);
  }

  /** One turn of the main loop. */
  lemma RunUnfold(w: World, s: Sim, counter: nat, fullSim: bool)
    requires s.queue != [] && 0 < counter
    ensures var e := s.queue[MinIndex(s.queue)];
      var adv := Advance(w, s.balls, s.now, e.time);
      Run(w, s, counter, fullSim) ==
        if counter == 1 || !(e.time >= s.now) then Failed(s.balls)
        else if adv.StillOverlapping? then Failed(adv.balls)
        else if adv.Concentric? then Raised(adv.balls)
        else if !fullSim && e.kind.BallCollision? then Finished(Sim(adv.balls, e.time, Rest(s.queue), s.log + [Record(e, None)]))
        else Run(w, React(w, adv.balls, e, Rest(s.queue), s.log), counter - 1, fullSim)
  {
    hide Advance, React;
  }

  /** The lists `addRelatedFutureEvents` appends, in order. */
  lemma PredictedParts(env: Env, possible: (seq<Ball>, ShotParams) -> bool, balls: seq<Ball>, now: real, b1: BallId, b2: BallId)
    ensures var w := FastFiz(env, possible);
      Predicted(w, balls, now, b1, b2) ==
        (if b1 == UNKNOWN_ID then [] else List(NextTransitionEvent(env, Get(balls, b1), now)))
        + (if b1 == UNKNOWN_ID || b2 == UNKNOWN_ID then [] else List(NextTransitionEvent(env, Get(balls, b2), now)))
        + RowsFrom(w, balls, now, b1, b2, 0)
        + (if b1 == UNKNOWN_ID then [] else BoundaryEvents(env, Get(balls, b1), now))
        + (if b2 == UNKNOWN_ID then [] else BoundaryEvents(env, Get(balls, b2), now))
  {
    hide NextTransitionEvent, BoundaryEvents, RowsFrom, Get;
  }

  class Shot {
    const env: Env
    const possible: (seq<Ball>, ShotParams) -> bool
    var shotEvents: seq<Record>

    constructor (env: Env, possible: (seq<Ball>, ShotParams) -> bool)
      ensures this.env == env && this.possible == possible && shotEvents == []
    {
      this.env := env;
      this.possible := possible;
      shotEvents := [];
    }

    /** The physics this shot is played in. */
    function Here(): World
      reads this
    {
      FastFiz(env, possible)
    }

    /** `updateTime`; `backwards` is its own exception, anything else comes from `fixOverlap`. */
    method UpdateTime(state: TableState, oldTime: real, newTime: real) returns (backwards: bool, r: Separation)
      modifies state
      ensures backwards <==> oldTime > newTime
      ensures backwards ==> state.balls == old(state.balls)
      ensures !backwards ==> r == Advance(Here(), old(state.balls), oldTime, newTime) && state.balls == r.balls
    {
      backwards, r := oldTime > newTime, Separated(state.balls);
      if backwards {
        return;
      }
      ghost var start := state.balls;
      var i := 0;
      while i < |state.balls|
        invariant i <= |state.balls| == |start|
        invariant forall k :: 0 <= k < i ==> state.balls[k] == UpdateBall(env, start[k], oldTime, newTime)
        invariant state.balls[i..] == start[i..]
      {
        hide UpdateBall;
        state.balls := state.balls[i := UpdateBall(env, state.balls[i], oldTime, newTime)];
        i := i + 1;
      }
      assert state.balls == MoveAll(Here(), start, oldTime, newTime);
      r := state.FixOverlap(env);
    }

    /** `Event::doHandle` of every kind of event. */
    method Handle(state: TableState, e: Event)
      modifies state
      ensures state.balls == Scheduling.Handle(Here(), old(state.balls), e)
      ensures Slots(state.balls, e.ball1, e.Ball2())
    {
      hide ActOn, CollideBalls;
      var i := state.GetBall(e.ball1);
      if e.kind.BallCollision? {
        var j := state.GetBall(e.kind.ball2);
        var hit := CollideBalls(env, state.balls[i], state.balls[j]);
        state.balls := state.balls[i := hit.0][j := hit.1];
        assert state.balls[i].id == e.ball1 && state.balls[j].id == e.kind.ball2;
      } else {
        state.balls := state.balls[i := ActOn(env, state.balls[i], e)];
        assert state.balls[i].id == e.ball1;
      }
    }

    /** `removeRelatedEvents`: erases from the list, front to back. */
    static method RemoveRelatedEvents(events: seq<Event>, last: Event) returns (kept: seq<Event>)
      ensures kept == RemoveRelated(events, last)
    {
      kept := events;
      var k := 0;
      ghost var done: seq<Event>, rest := [], events;
      while k < |kept|
        invariant kept == done + rest && k == |done|
        invariant done + RemoveRelated(rest, last) == RemoveRelated(events, last)
        decreases |rest|
      {
        hide RemoveRelated;
        AtCursor(done, rest);
        RemoveStep(done, rest, last);
        if last.RelatedTo(kept[k]) {
          kept := kept[..k] + kept[k + 1..];
        } else {
          done := done + [rest[0]];
          k := k + 1;
        }
        rest := rest[1..];
      }
    }

    /** `addRelatedFutureEvents`: appends to the list. */
    method AddRelatedFutureEvents(state: TableState, now: real, events: seq<Event>, b1: BallId, b2: BallId)
      returns (queue: seq<Event>)
      requires Slots(state.balls, b1, b2)
      modifies state
      ensures state.balls == old(state.balls)
      ensures queue == events + Predicted(Here(), state.balls, now, b1, b2)
    {
      hide NextTransitionEvent, BoundaryEvents, NextCollisionEvent, Predicted, RowsFrom, FastFiz;
      PredictedParts(env, possible, state.balls, now, b1, b2);
      var first: seq<Event>, second: seq<Event>, third: seq<Event>, fourth: seq<Event> := [], [], [], [];
      if b1 != UNKNOWN_ID {
        var i := state.GetBall(b1);
        first := List(NextTransitionEvent(env, state.balls[i], now));
        if b2 != UNKNOWN_ID {
          i := state.GetBall(b2);
          second := List(NextTransitionEvent(env, state.balls[i], now));
        }
      }
      var rows := AddRows(state, now, b1, b2);
      if b1 != UNKNOWN_ID {
        var i := state.GetBall(b1);
        third := BoundaryEvents(env, state.balls[i], now);
      }
      if b2 != UNKNOWN_ID {
        var i := state.GetBall(b2);
        fourth := BoundaryEvents(env, state.balls[i], now);
      }
      queue := events + (first + second + rows + third + fourth);
    }

    /** Its loop over all ordered pairs: what that appends. */
    method AddRows(state: TableState, now: real, b1: BallId, b2: BallId) returns (added: seq<Event>)
      ensures added == RowsFrom(Here(), state.balls, now, b1, b2, 0)
    {
      hide NextTransitionEvent, BoundaryEvents, NextCollisionEvent, FastFiz, RowOf, HitsFrom;
      added := [];
      var i := 0;
      while i < |state.balls|
        invariant i <= |state.balls|
        invariant added + RowsFrom(Here(), state.balls, now, b1, b2, i) == RowsFrom(Here(), state.balls, now, b1, b2, 0)
      {
        var hits: seq<Event> := [];
        if state.balls[i].Travelling() {
          hits := AddHits(state, now, b1, b2, i);
        }
        var row := hits;
        if b1 == UNKNOWN_ID {
          row := List(NextTransitionEvent(env, state.balls[i], now)) + BoundaryEvents(env, state.balls[i], now) + hits;
        }
        RowTest(env, possible, state.balls, now, b1, b2, i);
        Append(added, row, RowsFrom(Here(), state.balls, now, b1, b2, i + 1));
        added := added + row;
        i := i + 1;
      }
    }

    /** Its inner loop: the hits of one travelling ball. */
    method AddHits(state: TableState, now: real, b1: BallId, b2: BallId, i: nat) returns (added: seq<Event>)
      requires i < |state.balls| && state.balls[i].Travelling()
      ensures added == HitsFrom(Here(), state.balls, now, b1, b2, i, 0)
    {
      hide NextCollisionEvent, FastFiz, HitOf;
      added := [];
      var j := 0;
      while j < |state.balls|
        invariant j <= |state.balls|
        invariant added + HitsFrom(Here(), state.balls, now, b1, b2, i, j) == HitsFrom(Here(), state.balls, now, b1, b2, i, 0)
      {
        var hit: seq<Event> := [];
        var x, y := state.balls[i].id, state.balls[j].id;
        if i != j && (b1 == UNKNOWN_ID || x == b1 || y == b1 || x == b2 || y == b2) {
          var e := NextCollisionEvent(env, state.balls[i], state.balls[j], now);
          if e.Some? && (((b1 != x || b2 != y) && (b1 != y || b2 != x)) || e.value.time - now > NEAR_FUTURE_EPSILON) {
            hit := [e.value];
          }
        }
        HitTest(env, possible, state.balls, now, b1, b2, i, j);
        Append(added, hit, HitsFrom(Here(), state.balls, now, b1, b2, i, j + 1));
        added := added + hit;
        j := j + 1;
      }
    }

    /** `simulateShot`. Whatever the outcome, the table is left as the simulation left it. */
    method SimulateShot(state: TableState, sp: ShotParams, fullSim: bool) returns (r: RunResult)
      requires shotEvents == []
      modifies this, state
      ensures r == Simulate(Here(), old(state.balls), sp, fullSim)
      ensures r.Finished? ==> state.balls == r.sim.balls && shotEvents == r.sim.log
      ensures r.Failed? || r.Raised? ==> state.balls == r.balls
      ensures r.Refused? ==> state.balls == old(state.balls) && shotEvents == []
    {
      hide FastFiz, Advance, Scheduling.Handle, RemoveRelated, Predicted, Run;
      if !possible(state.balls, sp) {
        assert Here().possible == possible by {
          WorldPossible(env, possible);
        }
        return Refused;
      }
      WorldPossible(env, possible);
      var now := 0.0;
      var queue := [Event(0.0, CUE, CueStrike(sp.(a := sp.a / -1000.0, b := sp.b / 1000.0)))];
      var counter := EVENT_LIMIT;
      assert Sim(state.balls, now, queue, shotEvents) == Start(old(state.balls), sp);
      while queue != []
        invariant counter > 0
        invariant Run(Here(), Sim(state.balls, now, queue, shotEvents), counter, fullSim) == Simulate(Here(), old(state.balls), sp, fullSim)
        decreases counter
      {
        ghost var s := Sim(state.balls, now, queue, shotEvents);
        RunUnfold(Here(), s, counter, fullSim);
        counter := counter - 1;
        if counter == 0 {
          return Failed(state.balls);
        }
        var m := MinIndex(queue);
        var e := queue[m];
        queue := queue[..m] + queue[m + 1..];
        if !(e.time >= now) {
          return Failed(state.balls);
        }
        var backwards, moved := UpdateTime(state, now, e.time);
        if moved.StillOverlapping? {
          return Failed(state.balls);
        }
        if moved.Concentric? {
          return Raised(state.balls);
        }
        now := e.time;
        if !fullSim && e.kind.BallCollision? {
          shotEvents := shotEvents + [Record(e, None)];
          return Finished(Sim(state.balls, now, queue, shotEvents));
        }
        Handle(state, e);
        queue := RemoveRelatedEvents(queue, e);
        queue := AddRelatedFutureEvents(state, now, queue, e.ball1, e.Ball2());
        shotEvents := shotEvents + [Record(e, Some(Get(state.balls, e.ball1)))];
      }
      RunEnds(Here(), Sim(state.balls, now, queue, shotEvents), counter, fullSim);
      r := Finished(Sim(state.balls, now, queue, shotEvents));
    }
  }

  lemma RunEnds(w: World, s: Sim, counter: nat, fullSim: bool)
    requires s.queue == [] && 0 < counter
    ensures Run(w, s, counter, fullSim) == Finished(s)
  {
  }

  lemma WorldPossible(env: Env, possible: (seq<Ball>, ShotParams) -> bool)
    ensures FastFiz(env, possible).possible == possible
  {
  }
}
