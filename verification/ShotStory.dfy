/** Whole shots: what the recorded events say about the balls, for every lawful physics. */
module ShotStory {
  import opened Wrappers
  import opened Balls
  import opened Events
  import opened Scheduling
  import opened SchedulerLaws
  import opened SchedulerInvariants

  // ---------------------------------------------------------------- reading an event list

  ghost predicate Sorted(log: seq<Record>) {
    forall i, j :: 0 <= i < j < |log| ==> log[i].event.time <= log[j].event.time
  }

  /** Nothing happens to a ball after it was pocketed. */
  ghost predicate PocketingFinal(log: seq<Record>) {
    forall i, j :: 0 <= i < j < |log| && log[i].event.kind.Pocketed? ==> !log[j].event.Involves(log[i].event.ball1)
  }

  function PocketCount(log: seq<Record>, b: BallId): nat {
    if log == [] then 0 else
      var last := log[|log| - 1].event;
      PocketCount(log[..|log| - 1], b) + (if last.kind.Pocketed? && last.ball1 == b then 1 else 0)
  }

  ghost predicate NoContact(log: seq<Record>) {
    forall k :: 0 <= k < |log| ==> !log[k].event.kind.BallCollision?
  }

  /** The first collision of the list, if it has one. */
  ghost predicate FirstCollision(log: seq<Record>, k: nat) {
    k < |log| && log[k].event.kind.BallCollision? && NoContact(log[..k])
  }

  /** A shot starts with the cue strike and has no other. */
  ghost predicate OneStrike(log: seq<Record>) {
    && (|log| > 0 ==> log[0].event.kind.CueStrike? && log[0].event.ball1 == CUE)
    && forall k :: 0 < k < |log| ==> !log[k].event.kind.CueStrike?
  }

  /** What `Accounted` says of one ball. */
  ghost predicate Settles(was: Ball, count: nat, after: Ball) {
    if was.InPlay() then if after.InPlay() then count == 0 else after.IsPocketed() && count == 1
    else after == was && count == 0
  }

  /** Each ball ended as it began, or was in play and has exactly one POCKETED event. */
  ghost predicate Accounted(before: seq<Ball>, log: seq<Record>, after: seq<Ball>) {
    && SameIds(before, after)
    && forall i :: 0 <= i < |before| ==> Settles(before[i], PocketCount(log, before[i].id), after[i])
  }

  lemma PocketCountAppend(log: seq<Record>, r: Record, b: BallId)
    ensures PocketCount(log + [r], b) == PocketCount(log, b) + (if r.event.kind.Pocketed? && r.event.ball1 == b then 1 else 0)
  {
    assert (log + [r])[..|log|] == log;
  }

  lemma {:induction false} PocketCountZero(log: seq<Record>, b: BallId)
    ensures PocketCount(log, b) == 0 <==> forall k :: 0 <= k < |log| ==> !(log[k].event.kind.Pocketed? && log[k].event.ball1 == b)
  {
    if log != [] {
      PocketCountZero(log[..|log| - 1], b);
    }
  }

  // ---------------------------------------------------------------- the story so far

  /** Before the first contact only the cue ball moves. */
  ghost predicate CueAlone(s: Sim) {
    NoContact(s.log) ==>
      && (forall i :: 0 <= i < |s.balls| && s.balls[i].Moving() ==> s.balls[i].id == CUE)
      && (forall e :: e in s.queue ==> e.ball1 == CUE)
  }

  /** Up to the first contact, which is the cue ball hitting another ball, every entry is about the cue
      ball. */
  ghost predicate ContactByCue(log: seq<Record>) {
    && (forall k: nat :: FirstCollision(log, k) ==> log[k].event.ball1 == CUE && 0 < log[k].event.kind.ball2 < UNKNOWN_ID)
    && (forall k: nat :: k < |log| && NoContact(log[..k]) ==> AboutCue(log[k]))
  }

  predicate AboutCue(r: Record) { r.event.ball1 == CUE && r.data1.Some? && r.data1.value.id == CUE }

  /** The cue strike is pending until it is the first entry of the log. */
  ghost predicate StrikeFirst(s: Sim) {
    && OneStrike(s.log)
    && (s.log == [] ==> |s.queue| == 1 && s.queue[0].kind.CueStrike? && s.queue[0].ball1 == CUE)
    && (s.log != [] ==> forall e :: e in s.queue ==> !e.kind.CueStrike?)
  }

  ghost predicate Story(before: seq<Ball>, s: Sim) {
    && Inv(s)
    && Sorted(s.log) && (forall k :: 0 <= k < |s.log| ==> s.log[k].event.time <= s.now)
    && PocketingFinal(s.log)
    && Accounted(before, s.log, s.balls)
    && CueAlone(s) && ContactByCue(s.log)
    && StrikeFirst(s)
  }

  lemma StartStory(balls: seq<Ball>, sp: ShotParams)
    requires Ready(balls)
    ensures Story(balls, Start(balls, sp))
  {
    StartInv(balls, sp);
    forall i | 0 <= i < |balls|
      ensures !balls[i].Moving()
    {
      assert balls[i].InPlay() ==> balls[i].state.Stationary?;
    }
  }

  /** A ball that is out of play has no part in any event still queued. */
  lemma OutOfPlayUnnamed(s: Sim, e: Event, i: nat)
    requires Inv(s) && e in s.queue && i < |s.balls| && !s.balls[i].InPlay()
    ensures !e.Involves(s.balls[i].id)
  {
    assert Sound(s.balls, s.now, e);
  }

  lemma BallAccounted(w: World, was: Ball, s: Sim, e: Event, mid: seq<Ball>, r: Record, i: nat)
    requires Lawful(w) && Inv(s) && e in s.queue && i < |s.balls| && r.event == e
    requires Advance(w, s.balls, s.now, e.time) == Separated(mid)
    requires Settles(was, PocketCount(s.log, s.balls[i].id), s.balls[i])
    ensures i < |Handle(w, mid, e)| && Settles(was, PocketCount(s.log + [r], s.balls[i].id), Handle(w, mid, e)[i])
  {
    hide Lawful, Handle, Advance, PocketCount;
    assert Sound(s.balls, s.now, e);
    PocketCountAppend(s.log, r, s.balls[i].id);
    BallAcross(w, s, e, mid, i);
    if !s.balls[i].InPlay() {
      OutOfPlayUnnamed(s, e, i);
    }
  }

  lemma ReactAccounted(w: World, before: seq<Ball>, s: Sim, e: Event, mid: seq<Ball>)
    requires Lawful(w) && Inv(s) && Accounted(before, s.log, s.balls) && s.queue != [] && e == s.queue[MinIndex(s.queue)]
    requires Advance(w, s.balls, s.now, e.time) == Separated(mid)
    ensures Accounted(before, React(w, mid, e, Rest(s.queue), s.log).log, Handle(w, mid, e))
  {
    hide Lawful, Predicted, Handle, Advance, RemoveRelated, PocketCount, Inv, Ensure, Find;
    EventNamed(s, e);
    ReactEvolves(w, s, e, mid);
    var r := Record(e, Some(Get(Handle(w, mid, e), e.ball1)));
    forall i | 0 <= i < |before|
      ensures Settles(before[i], PocketCount(s.log + [r], before[i].id), Handle(w, mid, e)[i])
    {
      BallAccounted(w, before[i], s, e, mid, r, i);
    }
  }

  lemma EventNamed(s: Sim, e: Event)
    requires Inv(s) && e in s.queue
    ensures UniqueIds(s.balls) && Named(s.balls, e)
  {
    SoundNamed(s.balls, s.now, e);
  }

  lemma PocketedOut(before: seq<Ball>, s: Sim, b: BallId)
    requires Accounted(before, s.log, s.balls) && PocketCount(s.log, b) != 0
    ensures !OnTable(s.balls, b)
  {
    forall k | 0 <= k < |s.balls| && s.balls[k].id == b
      ensures !s.balls[k].InPlay()
    {
      assert before[k].id == b;
    }
  }

  lemma ReactPocketingFinal(w: World, before: seq<Ball>, s: Sim, e: Event, log: seq<Record>)
    requires Story(before, s) && s.queue != [] && e == s.queue[MinIndex(s.queue)]
    requires |log| == |s.log| + 1 && log[..|s.log|] == s.log && log[|s.log|].event == e
    ensures PocketingFinal(log)
  {
    forall i | 0 <= i < |s.log| && s.log[i].event.kind.Pocketed?
      ensures !e.Involves(s.log[i].event.ball1)
    {
      var b := s.log[i].event.ball1;
      PocketCountZero(s.log, b);
      PocketedOut(before, s, b);
      assert Sound(s.balls, s.now, e);
    }
    forall i, j | 0 <= i < j < |log| && log[i].event.kind.Pocketed?
      ensures !log[j].event.Involves(log[i].event.ball1)
    {
      assert log[i] == s.log[i];
      if j < |s.log| {
        assert log[j] == s.log[j];
      }
    }
  }

  lemma AppendContact(s: Sim, r: Record)
    requires CueAlone(s) && ContactByCue(s.log) && Inv(s) && r.event in s.queue
    requires r.data1.Some? && r.data1.value.id == r.event.ball1
    ensures ContactByCue(s.log + [r])
  {
    var log := s.log + [r];
    forall k: nat | k < |log| && NoContact(log[..k])
      ensures AboutCue(log[k])
    {
      assert log[..k] == if k < |s.log| then s.log[..k] else s.log;
    }
    forall k: nat | FirstCollision(log, k)
      ensures log[k].event.ball1 == CUE && 0 < log[k].event.kind.ball2 < UNKNOWN_ID
    {
      if k < |s.log| {
        assert log[..k] == s.log[..k];
        assert FirstCollision(s.log, k);
      } else {
        assert log[..k] == s.log;
        assert Sound(s.balls, s.now, r.event);
      }
    }
  }

  /** While nothing has been hit, only the cue ball is touched, so only it can move. */
  lemma ReactCueMoves(w: World, s: Sim, e: Event, mid: seq<Ball>, i: nat)
    requires Lawful(w) && Inv(s) && CueAlone(s) && NoContact(s.log)
    requires s.queue != [] && e == s.queue[MinIndex(s.queue)] && !e.kind.BallCollision?
    requires Advance(w, s.balls, s.now, e.time) == Separated(mid)
    requires i < |Handle(w, mid, e)| && Handle(w, mid, e)[i].Moving()
    ensures Handle(w, mid, e)[i].id == CUE
  {
    SoundNamed(s.balls, s.now, e);
    ReactEvolves(w, s, e, mid);
    StillAcross(w, s.balls, mid, Handle(w, mid, e), s.now, e, i);
  }

  lemma ReactCueQueued(w: World, s: Sim, e: Event, mid: seq<Ball>, x: Event)
    requires Lawful(w) && Inv(s) && CueAlone(s) && NoContact(s.log)
    requires s.queue != [] && e == s.queue[MinIndex(s.queue)] && !e.kind.BallCollision?
    requires Advance(w, s.balls, s.now, e.time) == Separated(mid)
    requires x in RemoveRelated(Rest(s.queue), e) + Predicted(w, Handle(w, mid, e), e.time, e.ball1, e.Ball2())
    ensures x.ball1 == CUE
  {
    Popped(s);
    if x !in RemoveRelated(Rest(s.queue), e) {
      SoundNamed(s.balls, s.now, e);
      ReactEvolves(w, s, e, mid);
      var after := Handle(w, mid, e);
      PredictedFresh(w, after, e.time, e, x);
      if x.kind.BallCollision? {
        var k :| 0 <= k < |after| && after[k].Travelling() && after[k].id == x.ball1;
        ReactCueMoves(w, s, e, mid, k);
      }
    }
  }

  lemma ReactCueAlone(w: World, s: Sim, e: Event, mid: seq<Ball>)
    requires Lawful(w) && Inv(s) && CueAlone(s) && s.queue != [] && e == s.queue[MinIndex(s.queue)]
    requires Advance(w, s.balls, s.now, e.time) == Separated(mid)
    ensures CueAlone(React(w, mid, e, Rest(s.queue), s.log))
  {
    var next := React(w, mid, e, Rest(s.queue), s.log);
    if NoContact(next.log) {
      assert forall k :: 0 <= k < |s.log| ==> next.log[k] == s.log[k];
      assert next.log[|s.log|].event == e;
      forall i | 0 <= i < |next.balls| && next.balls[i].Moving()
        ensures next.balls[i].id == CUE
      {
        ReactCueMoves(w, s, e, mid, i);
      }
      forall x | x in next.queue
        ensures x.ball1 == CUE
      {
        ReactCueQueued(w, s, e, mid, x);
      }
    }
  }

  /** Whatever an iteration leaves queued was queued before, or is a prediction. */
  lemma ReactNews(w: World, s: Sim, e: Event, mid: seq<Ball>, x: Event)
    requires Lawful(w) && Inv(s) && s.queue != [] && e == s.queue[MinIndex(s.queue)]
    requires Advance(w, s.balls, s.now, e.time) == Separated(mid)
    requires x in React(w, mid, e, Rest(s.queue), s.log).queue
    ensures x in s.queue || !x.kind.CueStrike?
  {
    hide Lawful, Predicted, Handle;
    Popped(s);
    if x !in RemoveRelated(Rest(s.queue), e) {
      SoundNamed(s.balls, s.now, e);
      ReactInv(w, s, e, mid);
      PredictedFresh(w, Handle(w, mid, e), e.time, e, x);
    }
  }

  lemma ReactStrikeFirst(w: World, s: Sim, e: Event, mid: seq<Ball>)
    requires Lawful(w) && Inv(s) && StrikeFirst(s) && s.queue != [] && e == s.queue[MinIndex(s.queue)]
    requires Advance(w, s.balls, s.now, e.time) == Separated(mid)
    ensures StrikeFirst(React(w, mid, e, Rest(s.queue), s.log))
  {
    hide Lawful, Inv, Predicted, Handle, Advance;
    var next := React(w, mid, e, Rest(s.queue), s.log);
    forall x | x in next.queue
      ensures !x.kind.CueStrike?
    {
      ReactNews(w, s, e, mid, x);
      if s.log == [] {
        OnlyNews(w, s, e, mid, x);
      }
    }
  }

  /** The cue strike itself is not queued again. */
  lemma OnlyNews(w: World, s: Sim, e: Event, mid: seq<Ball>, x: Event)
    requires Lawful(w) && Inv(s) && |s.queue| == 1 && e == s.queue[MinIndex(s.queue)]
    requires Advance(w, s.balls, s.now, e.time) == Separated(mid)
    requires x in React(w, mid, e, Rest(s.queue), s.log).queue
    ensures !x.kind.CueStrike?
  {
    hide Lawful, Predicted, Handle;
    assert Rest(s.queue) == [];
    SoundNamed(s.balls, s.now, e);
    ReactInv(w, s, e, mid);
    PredictedFresh(w, Handle(w, mid, e), e.time, e, x);
  }

  lemma ReactStory(w: World, before: seq<Ball>, s: Sim, e: Event, mid: seq<Ball>)
    requires Lawful(w) && Story(before, s) && s.queue != [] && e == s.queue[MinIndex(s.queue)]
    requires Advance(w, s.balls, s.now, e.time) == Separated(mid)
    ensures Story(before, React(w, mid, e, Rest(s.queue), s.log))
  {
    hide Lawful, Handle, Predicted, Inv, CueAlone, ContactByCue, Accounted, PocketingFinal, StrikeFirst, Advance;
    var next := React(w, mid, e, Rest(s.queue), s.log);
    ReactInv(w, s, e, mid);
    ReactAccounted(w, before, s, e, mid);
    ReactPocketingFinal(w, before, s, e, next.log);
    AppendContact(s, next.log[|s.log|]);
    ReactCueAlone(w, s, e, mid);
    ReactStrikeFirst(w, s, e, mid);
  }

  /** The story of a complete simulation. */
  ghost predicate Told(before: seq<Ball>, after: seq<Ball>, log: seq<Record>) {
    && Accounted(before, log, after)
    && Sorted(log) && PocketingFinal(log) && ContactByCue(log)
    && log != [] && OneStrike(log)
    && forall i :: 0 <= i < |after| && after[i].InPlay() ==> after[i].state.Stationary?
  }

  lemma StoryQueue(before: seq<Ball>, s: Sim)
    requires Story(before, s) && s.queue != []
    ensures s.queue[MinIndex(s.queue)].time >= s.now
  {
    assert Sound(s.balls, s.now, s.queue[MinIndex(s.queue)]);
  }

  lemma {:induction false} RunStory(w: World, before: seq<Ball>, s: Sim, counter: nat)
    requires Lawful(w) && Story(before, s) && 0 < counter
    requires Run(w, s, counter, true).Finished?
    ensures var end := Run(w, s, counter, true).sim; Story(before, end) && end.queue == []
    decreases counter
  {
    hide Lawful, Story, MinIndex, Handle, Predicted, RemoveRelated;
    if s.queue != [] && counter > 1 {
      StoryQueue(before, s);
      var e := s.queue[MinIndex(s.queue)];
      var adv := Advance(w, s.balls, s.now, e.time);
      if adv.Separated? {
        ReactStory(w, before, s, e, adv.balls);
        RunStory(w, before, React(w, adv.balls, e, Rest(s.queue), s.log), counter - 1);
      }
    }
  }

  /** Quiescence, accounting, time order and first contact of every shot that returns normally. */
  lemma ShotTold(w: World, balls: seq<Ball>, sp: ShotParams)
    requires Lawful(w) && Ready(balls)
    requires Simulate(w, balls, sp, true).Finished?
    ensures var end := Simulate(w, balls, sp, true).sim; Told(balls, end.balls, end.log)
  {
    StartStory(balls, sp);
    RunStory(w, balls, Start(balls, sp), EVENT_LIMIT);
    var end := Simulate(w, balls, sp, true).sim;
    forall i | 0 <= i < |end.balls| && end.balls[i].InPlay()
      ensures end.balls[i].state.Stationary?
    {
      assert !end.balls[i].Moving();
    }
  }
}
