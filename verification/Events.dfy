/** Shots, events and the event list (`ShotParams`, the `Event` hierarchy). */
module Events {
  import opened Wrappers
  import opened Balls

  datatype ShotParams = ShotParams(a: real, b: real, theta: real, phi: real, v: real)

  /** The rails of `Table::BoundaryId`. */
  datatype Rail = SouthWest | NorthWest | North | NorthEast | SouthEast | South

  datatype Kind =
    | StateChange
    | BallCollision(ball2: BallId)
    | RailCollision(rail: Rail)
    | Pocketed(pocket: Pocket)
    | CueStrike(params: ShotParams)

  datatype Event = Event(time: real, ball1: BallId, kind: Kind)
  {
    function Ball2(): BallId { if kind.BallCollision? then kind.ball2 else UNKNOWN_ID }

    predicate Involves(b: BallId) { ball1 == b || (kind.BallCollision? && kind.ball2 == b) }

    predicate RelatedTo(o: Event) {
      o.Involves(ball1) || (kind.BallCollision? && o.Involves(kind.ball2))
    }

    /** An event of ball `b` alone. */
    predicate Alone(b: BallId) { !kind.BallCollision? && ball1 == b }

    /** Ball `i` hitting ball `j`. */
    predicate Hit(i: BallId, j: BallId) { kind == BallCollision(j) && ball1 == i }
  }

  /** An entry of `shotEvents`: the event and the copy `copyBalls` took of its first ball. */
  datatype Record = Record(event: Event, data1: Option<Ball>)

  /** The events of `q` satisfying `p`, in order. */
  ghost function Filter(q: seq<Event>, p: Event -> bool): seq<Event>
  {
    if q == [] then [] else (if p(q[0]) then [q[0]] else []) + Filter(q[1..], p)
  }

  lemma {:induction false} FilterConcat(a: seq<Event>, b: seq<Event>, p: Event -> bool)
    ensures Filter(a + b, p) == Filter(a, p) + Filter(b, p)
  {
    if a == [] {
      assert a + b == b;
    } else {
      assert (a + b)[1..] == a[1..] + b;
      FilterConcat(a[1..], b, p);
    }
  }

  lemma FilterEmpty(p: Event -> bool)
    ensures Filter([], p) == []
  {
  }

  lemma {:induction false} FilterNone(q: seq<Event>, p: Event -> bool)
    requires forall e :: e in q ==> !p(e)
    ensures Filter(q, p) == []
  {
    if q != [] {
      FilterNone(q[1..], p);
    }
  }

  lemma {:induction false} FilterAll(q: seq<Event>, p: Event -> bool)
    requires forall e :: e in q ==> p(e)
    ensures Filter(q, p) == q
  {
    if q != [] {
      FilterAll(q[1..], p);
    }
  }

  /** Dropping one event outside `p` does not change what `p` selects. */
  lemma FilterWithout(q: seq<Event>, m: nat, p: Event -> bool)
    requires m < |q| && !p(q[m])
    ensures Filter(q[..m] + q[m + 1..], p) == Filter(q, p)
  {
    assert q == q[..m] + ([q[m]] + q[m + 1..]);
    FilterConcat(q[..m], [q[m]] + q[m + 1..], p);
    FilterConcat([q[m]], q[m + 1..], p);
    FilterConcat(q[..m], q[m + 1..], p);
  }

  lemma {:induction false} FilterCount(q: seq<Event>, p: Event -> bool, e: Event)
    requires p(e)
    ensures multiset(Filter(q, p))[e] == multiset(q)[e]
  {
    if q != [] {
      assert q == [q[0]] + q[1..];
      FilterCount(q[1..], p, e);
    }
  }
}
