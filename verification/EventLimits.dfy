/** How long a simulation may last: `eventcounter`. */
module EventLimits {
  import opened Balls
  import opened Events
  import opened Scheduling
  import opened QueueHistory

  /** States of the loop one after another. */
  ghost predicate Chain(w: World, ss: seq<Sim>) {
    |ss| > 0 && Consumed(ss) && forall k :: 0 <= k < |ss| - 1 ==> Step(w, ss[k], true) == Continue(ss[k + 1])
  }

  /** A run goes along its states. */
  lemma {:induction false} RunAlong(w: World, ss: seq<Sim>, counter: nat)
    requires Chain(w, ss) && |ss| <= counter
    ensures Run(w, ss[0], counter, true) == Run(w, ss[|ss| - 1], counter - (|ss| - 1), true)
    decreases |ss|
  {
    hide Step;
    if |ss| > 1 {
      assert Step(w, ss[0], true) == Continue(ss[1]);
      RunAlong(w, ss[1..], counter - 1);
    }
  }

  /** A run that returns normally has such states, fewer than it was allowed. */
  lemma {:induction false} RunStates(w: World, s: Sim, counter: nat) returns (ss: seq<Sim>)
    requires 0 < counter && Run(w, s, counter, true).Finished?
    ensures Chain(w, ss) && ss[0] == s && |ss| <= counter && ss[|ss| - 1] == Run(w, s, counter, true).sim && ss[|ss| - 1].queue == []
    decreases counter
  {
    hide Handle, Predicted;
    if s.queue == [] {
      ss := [s];
    } else {
      var rest := RunStates(w, Step(w, s, true).sim, counter - 1);
      ss := [s] + rest;
      forall k | 0 <= k < |ss| - 1
        ensures Step(w, ss[k], true) == Continue(ss[k + 1])
      {
        if k > 0 {
          assert Step(w, rest[k - 1], true) == Continue(rest[k]);
        }
      }
    }
  }

  lemma {:induction false} LogLengths(w: World, ss: seq<Sim>, k: nat)
    requires Chain(w, ss) && k < |ss|
    ensures |ss[k].log| == |ss[0].log| + k
  {
    hide Handle, Predicted;
    if k > 0 {
      LogLengths(w, ss, k - 1);
      assert Step(w, ss[k - 1], true) == Continue(ss[k]);
    }
  }

  /** An allowed shot returns normally if and only if its events end within 4999 iterations, and then each
      of them is recorded. */
  lemma EndsWithinLimit(w: World, balls: seq<Ball>, sp: ShotParams)
    requires w.possible(balls, sp)
    ensures Simulate(w, balls, sp, true).Finished? <==>
      exists ss: seq<Sim> :: IsTrace(w, balls, sp, ss) && |ss| <= 5000 && ss[|ss| - 1].queue == []
    ensures forall ss: seq<Sim> :: IsTrace(w, balls, sp, ss) && |ss| <= 5000 && ss[|ss| - 1].queue == [] ==>
      Simulate(w, balls, sp, true) == Finished(ss[|ss| - 1]) && |ss[|ss| - 1].log| == |ss| - 1
  {
    hide Step;
    if Simulate(w, balls, sp, true).Finished? {
      var ss := RunStates(w, Start(balls, sp), EVENT_LIMIT);
      assert IsTrace(w, balls, sp, ss);
    }
    forall ss: seq<Sim> | IsTrace(w, balls, sp, ss) && |ss| <= 5000 && ss[|ss| - 1].queue == []
      ensures Simulate(w, balls, sp, true) == Finished(ss[|ss| - 1]) && |ss[|ss| - 1].log| == |ss| - 1
    {
      RunAlong(w, ss, EVENT_LIMIT);
      LogLengths(w, ss, |ss| - 1);
    }
  }

  /** With something still queued after 4999 iterations it fails, and leaves the balls as they are then. */
  lemma FailsBeyondLimit(w: World, balls: seq<Ball>, sp: ShotParams, ss: seq<Sim>)
    requires w.possible(balls, sp) && IsTrace(w, balls, sp, ss) && |ss| == 5000 && ss[4999].queue != []
    ensures Simulate(w, balls, sp, true) == Failed(ss[4999].balls)
  {
    hide Step;
    RunAlong(w, ss, EVENT_LIMIT);
  }
}
