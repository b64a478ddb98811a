/** What the scheduler needs of the physics, and what one iteration then does to the balls. */
module SchedulerLaws {
  import opened Balls
  import opened Events
  import opened Scheduling

  ghost predicate MoveLaw(w: World) {
    forall b: Ball, t0: real, t1: real :: var c := w.move(b, t0, t1);
      c.id == b.id && (if b.Moving() then c.InPlay() else c == b)
  }

  /** Separating balls only changes positions, and only of balls in play. */
  ghost predicate OnlyShifted(a: seq<Ball>, b: seq<Ball>) {
    && |a| == |b|
    && forall i :: 0 <= i < |a| ==> b[i] == a[i].(r := b[i].r) && (a[i].InPlay() || b[i] == a[i])
  }

  ghost predicate SeparateLaw(w: World) {
    forall a: seq<Ball> :: OnlyShifted(a, w.separate(a).balls)
  }

  ghost predicate ActLaw(w: World) {
    forall b: Ball, e: Event :: var c := w.act(b, e);
      && c.id == b.id
      && (e.kind.Pocketed? && e.kind.pocket < UNKNOWN_POCKET ==> c.state == InPocket(e.kind.pocket))
      && (!e.kind.Pocketed? && b.InPlay() ==> c.InPlay())
  }

  ghost predicate CollideLaw(w: World) {
    forall b: Ball, c: Ball :: var hit := w.collide(b, c);
      && hit.0.id == b.id && hit.1.id == c.id
      && (b.InPlay() ==> hit.0.InPlay()) && (c.InPlay() ==> hit.1.InPlay())
  }

  ghost predicate TransitionLaw(w: World) {
    forall b: Ball, t: real :: var e := w.transition(b, t);
      && (e.Some? <==> b.Moving())
      && (e.Some? ==> e.value.ball1 == b.id && e.value.kind.StateChange? && e.value.time >= t)
  }

  ghost predicate BoundaryEvent(e: Event, b: Ball, t: real) {
    && e.ball1 == b.id && b.Travelling() && e.time >= t
    && (e.kind.RailCollision? || (e.kind.Pocketed? && e.kind.pocket < UNKNOWN_POCKET))
  }

  ghost predicate BoundaryLaw(w: World) {
    && (forall b: Ball, t: real :: !b.Travelling() ==> w.boundary(b, t) == [])
    && (forall b: Ball, t: real, e: Event :: 0.0 <= t && e in w.boundary(b, t) ==> BoundaryEvent(e, b, t))
  }

  ghost predicate CollisionLaw(w: World) {
    forall b: Ball, c: Ball, t: real :: var e := w.collision(b, c, t);
      b.Travelling() && e.Some? ==>
        && e.value.ball1 == b.id && e.value.kind == BallCollision(c.id) && e.value.time >= t
        && c.InPlay()
  }

  ghost predicate Lawful(w: World) {
    && MoveLaw(w) && SeparateLaw(w) && ActLaw(w) && CollideLaw(w)
    && TransitionLaw(w) && BoundaryLaw(w) && CollisionLaw(w)
  }

  /** How one iteration relates the tables before it, after `updateTime`, and after `handle`. */
  ghost predicate Evolved(w: World, before: seq<Ball>, mid: seq<Ball>, after: seq<Ball>, t0: real, e: Event) {
    && SameIds(before, mid) && SameIds(before, after)
    && OnlyShifted(MoveAll(w, before, t0, e.time), mid)
    && (forall i :: 0 <= i < |before| && !e.Involves(before[i].id) ==> after[i] == mid[i])
    && (forall i :: 0 <= i < |before| && e.Involves(before[i].id) && !e.kind.Pocketed? && mid[i].InPlay() ==> after[i].InPlay())
    && (forall i :: 0 <= i < |before| && e.Involves(before[i].id) && e.kind.Pocketed? && e.kind.pocket < UNKNOWN_POCKET ==>
          after[i].state == InPocket(e.kind.pocket))
  }

  /** Both balls an event names have their slot, and a collision names two of them. */
  ghost predicate Named(balls: seq<Ball>, e: Event) {
    && Find(balls, e.ball1) < |balls|
    && (e.kind.BallCollision? ==> e.kind.ball2 != e.ball1 && Find(balls, e.kind.ball2) < |balls|)
  }

  lemma AdvanceShifts(w: World, balls: seq<Ball>, t0: real, t1: real)
    requires Lawful(w)
    ensures OnlyShifted(MoveAll(w, balls, t0, t1), Advance(w, balls, t0, t1).balls)
    ensures SameIds(balls, Advance(w, balls, t0, t1).balls)
  {
    var moved := MoveAll(w, balls, t0, t1);
    var mid := Advance(w, balls, t0, t1).balls;
    forall i | 0 <= i < |balls|
      ensures mid[i].id == balls[i].id
    {
      assert mid[i] == moved[i].(r := mid[i].r);
      assert moved[i] == w.move(balls[i], t0, t1);
    }
  }

  lemma HandleEffect(w: World, mid: seq<Ball>, e: Event)
    requires Lawful(w) && UniqueIds(mid) && Named(mid, e)
    ensures var after := Handle(w, mid, e);
      && SameIds(mid, after)
      && (forall i :: 0 <= i < |mid| && !e.Involves(mid[i].id) ==> after[i] == mid[i])
      && (forall i :: 0 <= i < |mid| && e.Involves(mid[i].id) && !e.kind.Pocketed? && mid[i].InPlay() ==> after[i].InPlay())
      && (forall i :: 0 <= i < |mid| && e.Involves(mid[i].id) && e.kind.Pocketed? && e.kind.pocket < UNKNOWN_POCKET ==>
            after[i].state == InPocket(e.kind.pocket))
  {
    var i := Find(mid, e.ball1);
    if e.kind.BallCollision? {
      var j := Find(mid, e.kind.ball2);
      var hit := w.collide(mid[i], mid[j]);
      assert Handle(w, mid, e) == mid[i := hit.0][j := hit.1];
    } else {
      assert Handle(w, mid, e) == mid[i := w.act(mid[i], e)];
    }
  }

  /** The balls across one iteration. */
  lemma ReactEvolves(w: World, s: Sim, e: Event, mid: seq<Ball>)
    requires Lawful(w) && UniqueIds(s.balls) && Named(s.balls, e)
    requires Advance(w, s.balls, s.now, e.time) == Separated(mid)
    ensures Evolved(w, s.balls, mid, Handle(w, mid, e), s.now, e)
  {
    AdvanceShifts(w, s.balls, s.now, e.time);
    assert UniqueIds(mid);
    SameIdsFind(s.balls, mid, e.ball1);
    if e.kind.BallCollision? {
      SameIdsFind(s.balls, mid, e.kind.ball2);
    }
    HandleEffect(w, mid, e);
  }

  /** A ball that is not moving is where it was after `updateTime`, up to separation. */
  lemma StillAcross(w: World, before: seq<Ball>, mid: seq<Ball>, after: seq<Ball>, t0: real, e: Event, i: nat)
    requires Lawful(w) && Evolved(w, before, mid, after, t0, e) && i < |before|
    ensures !before[i].Moving() ==> mid[i] == before[i].(r := mid[i].r)
    ensures !before[i].InPlay() ==> mid[i] == before[i]
    ensures before[i].InPlay() ==> mid[i].InPlay()
  {
    var moved := MoveAll(w, before, t0, e.time);
    assert moved[i] == w.move(before[i], t0, e.time);
    assert mid[i] == moved[i].(r := mid[i].r);
  }
}
