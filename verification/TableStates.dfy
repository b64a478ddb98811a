/** The table state as the code keeps it: a vector of balls changed in place (`TableState`).
    Every method is proved equal to the function that specifies it. */
module TableStates {
  import opened Vectors
  import opened Balls
  import opened Events
  import opened Kinematics
  import opened Clearance
  import opened Scheduling
  import opened SchedulerLaws
  import opened Overlapping
  import opened Spotting

  class TableState {
    var balls: seq<Ball>

    constructor (start: seq<Ball>)
      ensures balls == start
    {
      balls := start;
    }

    /** `getBall`: the slot of the ball, which is appended when missing. */
    method GetBall(id: BallId) returns (slot: nat)
      modifies this
      ensures balls == Ensure(old(balls), id)
      ensures slot == Find(old(balls), id) < |balls| && balls[slot] == Get(old(balls), id)
    {
      slot := 0;
      while slot < |balls|
        invariant slot <= |balls|
        invariant forall k :: 0 <= k < slot ==> balls[k].id != id
      {
        if balls[slot].id == id {
          assert Find(balls, id) == slot;
          return;
        }
        slot := slot + 1;
      }
      assert Find(balls, id) == slot;
      balls := balls + [NewBall(id)];
    }

    /** `setBall`. */
    method SetBall(id: BallId, r: Point)
      modifies this
      ensures balls == Place(old(balls), id, r)
    {
      var slot := GetBall(id);
      balls := balls[slot := balls[slot].(state := Stationary, r := r)];
    }

    /** `isPhysicallyPossible`: the faults it finds. Off the ball nothing is known of the cue. */
    method IsPhysicallyPossible(env: Env, sp: ShotParams) returns (faults: set<Fault>)
      modifies this
      ensures balls == Ensure(old(balls), CUE)
      ensures forall f :: f in faults <==> Faulty(env, old(balls), sp, f)
    {
      hide BallBlocks, RailBlocks, Tip, Butt, DepthSquared;
      var m := Widened(sp);
      var mine := GetBall(CUE);
      faults := RangeFaults(env, m);
      if DepthSquared(m) < 0.0 {
        return;
      }
      var tip := Tip(env, balls[mine].r, m);
      var butt := Butt(env, tip, m);
      var blocked := FindBlocking(env, tip, butt);
      var rail := 0;
      while !blocked && rail < |SIDES|
        invariant 0 <= rail <= |SIDES|
        invariant blocked <==> BallInTheWay(env, balls, tip, butt) || exists k :: 0 <= k < rail && RailBlocks(env, tip, butt, SIDES[k])
      {
        blocked := RailBlocks(env, tip, butt, SIDES[rail]);
        rail := rail + 1;
      }
      EnsuredWay(env, old(balls), tip, butt);
      if blocked {
        faults := faults + {CueStickCollision};
      }
    }

    /** The faults of the parameters alone. */
    static method RangeFaults(env: Env, m: ShotParams) returns (faults: set<Fault>)
      ensures CueStickCollision !in faults
      ensures forall f :: f != CueStickCollision ==> (f in faults <==> OutOfRange(env, m, f))
    {
      faults := {};
      if FGreater(env, m.v, MAX_VELOCITY) || FLess(env, m.v, 0.0) {
        faults := faults + {BadV};
      }
      if FGreater(env, Abs(Radians(m.phi)), 2.0 * PI) {
        faults := faults + {BadPhi};
      }
      if FGreater(env, Radians(m.theta), Radians(MAX_THETA)) || FLess(env, Radians(m.theta), 0.0) {
        faults := faults + {BadTheta};
      }
      if OffBall(env, m) {
        faults := faults + {BadA, BadB};
      }
      if FGreater(env, Abs(m.a), BALL_RADIUS) {
        faults := faults + {BadA};
      }
      if FGreater(env, Abs(m.b), BALL_RADIUS) {
        faults := faults + {BadB};
      }
    }

    /** The loop over the balls. */
    method FindBlocking(env: Env, tip: Vector, butt: Vector) returns (blocked: bool)
      ensures blocked <==> BallInTheWay(env, balls, tip, butt)
    {
      hide BallBlocks;
      for i := 0 to |balls|
        invariant forall k :: 0 <= k < i && balls[k].InPlay() && balls[k].id != CUE ==> !BallBlocks(env, tip, butt, balls[k].r)
      {
        if balls[i].InPlay() && balls[i].id != CUE && BallBlocks(env, tip, butt, balls[i].r) {
          return true;
        }
      }
      blocked := false;
    }

    /** `findOverlap` of a ball on the table: the slot of an overlapping ball, or -1. */
    method FindOverlap(env: Env, id: BallId) returns (slot: int)
      requires Find(balls, id) < |balls|
      modifies this
      ensures balls == old(balls)
      ensures slot == -1 <==> Obstacle(env, balls, id) == |balls|
      ensures slot != -1 ==> slot == Obstacle(env, balls, id)
    {
      var i := 0;
      while i < |balls|
        invariant balls == old(balls) && i <= |balls|
        invariant forall k :: 0 <= k < i ==> balls[k].id == id || !Overlaps(balls[k], Get(balls, id), env.epsilon)
      {
        if balls[i].id != id {
          var mine := GetBall(id);
          if Overlaps(balls[i], balls[mine], env.epsilon) {
            assert Obstacle(env, balls, id) == i;
            return i;
          }
        }
        i := i + 1;
      }
      assert Obstacle(env, balls, id) == |balls|;
      slot := -1;
    }

    /** `Ball::addNoise` on a ball that has just been placed. */
    method AddNoise(id: BallId, noise: Point, ghost start: seq<Ball>, ghost at: Point)
      requires balls == Place(start, id, at)
      modifies this
      ensures balls == Place(start, id, at.Plus(noise))
    {
      var mine := GetBall(id);
      PlaceAgain(start, id, at, at.Plus(noise));
      balls := balls[mine := balls[mine].(r := balls[mine].r.Plus(noise))];
    }

    /** One try of `spotBall`: from just below the obstacle, pushed further down by the noise. */
    method TryBelow(env: Env, id: BallId, obstacle: Ball, noise: Point) returns (inside: bool)
      requires Find(balls, id) < |balls|
      modifies this
      ensures var aimed := Below(env, obstacle);
        && inside == !(Lowered(aimed, noise).y < BALL_RADIUS)
        && balls == Place(old(balls), id, if inside then Lowered(aimed, noise) else aimed.Plus(noise))
    {
      hide Below, Place;
      ghost var start := balls;
      var aimed := Below(env, obstacle);
      SetBall(id, aimed);
      AddNoise(id, noise, start, aimed);
      var mine := GetBall(id);
      var noisy := balls[mine].r;
      assert noisy == aimed.Plus(noise);
      var y := aimed.y - Abs(aimed.y - noisy.y);
      assert Point(noisy.x, y) == Lowered(aimed, noise);
      if y < BALL_RADIUS {
        return false;
      }
      SetBall(id, Point(noisy.x, y));
      PlaceAgain(start, id, noisy, Point(noisy.x, y));
      inside := true;
    }

    /** `spotBall`. */
    method SpotBall(env: Env, id: BallId, noise: nat -> Point) returns (r: SpotResult)
      modifies this
      ensures r == Spot(env, old(balls), id, noise) && balls == r.balls
    {
      hide Overlaps, Obstacle, Below, Lowered, Room, Place, SpotFrom;
      SetBall(id, env.table.FootSpot());
      AddNoise(id, noise(0), old(balls), env.table.FootSpot());
      var other := FindOverlap(env, id);
      var tries := 0;
      while other > -1 && tries < TRIES
        invariant tries <= TRIES && Find(balls, id) < |balls|
        invariant other == -1 <==> Obstacle(env, balls, id) == |balls|
        invariant other != -1 ==> other == Obstacle(env, balls, id)
        invariant SpotFrom(env, balls, id, noise, tries) == Spot(env, old(balls), id, noise)
        decreases TRIES - tries
      {
        SpotStep(env, balls, id, noise, tries);
        tries := tries + 1;
        var obstacle := balls[other];
        if Room(env, obstacle) < 0.0 {
          return NotANumber(balls);
        }
        var inside := TryBelow(env, id, obstacle, noise(tries));
        if !inside {
          return OutOfBounds(balls);
        }
        other := FindOverlap(env, id);
      }
      SpotStep(env, balls, id, noise, tries);
      if other > -1 {
        return NoRoom(balls);
      }
      r := Spotted(balls);
    }

    /** `fixOverlap`. */
    method FixOverlap(env: Env) returns (r: Separation)
      modifies this
      ensures r == Separate(env, old(balls), PASSES) && balls == r.balls
      ensures OnlyShifted(old(balls), balls)
      ensures r.Separated? ==> Apart(balls)
    {
      SeparateApart(env, balls, PASSES);
      var count := PASSES;
      var overlap := true;
      while overlap && count > 0
        invariant 0 <= count <= PASSES
        invariant count > 0 && overlap ==> Separate(env, balls, count) == Separate(env, old(balls), PASSES)
        invariant count > 0 && !overlap ==> Separated(balls) == Separate(env, old(balls), PASSES)
        invariant count == 0 ==> overlap && (if AnyClash(balls) then StillOverlapping(balls) else Separated(balls)) == Separate(env, old(balls), PASSES)
        decreases count, overlap
      {
        hide Separate, AnyClash, Clash;
        var stuck;
        ghost var before := balls;
        overlap, stuck := OnePass(env);
        SeparateStep(env, before, count);
        if stuck {
          return Concentric(balls);
        }
        if overlap {
          count := count - 1;
        }
      }
      if count == 0 {
        var clash := CheckOverlap();
        if clash {
          return StillOverlapping(balls);
        }
      }
      r := Separated(balls);
    }

    /** The body of the do-loop of `fixOverlap`. */
    method OnePass(env: Env) returns (overlap: bool, stuck: bool)
      modifies this
      ensures PassFrom(env, old(balls), 0, 0, false) == if stuck then Stuck(balls) else Pass(balls, overlap)
    {
      overlap, stuck := false, false;
      var i := 0;
      while i < |balls|
        invariant i <= |balls| == |old(balls)|
        invariant PassFrom(env, balls, i, 0, overlap) == PassFrom(env, old(balls), 0, 0, false)
      {
        if balls[i].InPlay() {
          var j := 0;
          while j < i
            invariant j <= i < |balls| == |old(balls)|
            invariant balls[i].InPlay()
            invariant PassFrom(env, balls, i, j, overlap) == PassFrom(env, old(balls), 0, 0, false)
          {
            hide MoveAway;
            if balls[j].InPlay() && Overlaps(balls[i], balls[j], 0.0) {
              overlap := true;
              var first := MoveAway(env, balls[i], balls[j]);
              if first.None? {
                stuck := true;
                return;
              }
              balls := balls[i := first.value];
              var second := MoveAway(env, balls[j], balls[i]);
              if second.None? {
                stuck := true;
                return;
              }
              balls := balls[j := second.value];
            }
            j := j + 1;
          }
        } else {
          SkipRow(env, balls, i, 0, overlap);
        }
        i := i + 1;
      }
    }

    /** The check behind POOLFIZ_ERRORS. */
    method CheckOverlap() returns (clash: bool)
      ensures clash <==> AnyClash(balls)
    {
      for i := 0 to |balls|
        invariant forall k: nat, l: nat :: l < k < i ==> !Clash(balls, k, l)
      {
        if balls[i].InPlay() {
          for j := 0 to i
            invariant forall k: nat, l: nat :: l < k < i ==> !Clash(balls, k, l)
            invariant forall l: nat :: l < j ==> !Clash(balls, i, l)
          {
            if balls[j].InPlay() && Overlaps(balls[i], balls[j], 0.0) {
              assert Clash(balls, i, j);
              return true;
            }
          }
        }
      }
      clash := false;
    }
  }

  /** A ball out of play overlaps nothing. */
  lemma {:induction false} SkipRow(env: Env, balls: seq<Ball>, i: nat, j: nat, moved: bool)
    requires j <= i < |balls| && !balls[i].InPlay()
    ensures PassFrom(env, balls, i, j, moved) == PassFrom(env, balls, i + 1, 0, moved)
    decreases i - j
  {
    if j < i {
      SkipRow(env, balls, i, j + 1, moved);
    }
  }

  /** One turn of the do-loop. */
  lemma SeparateStep(env: Env, balls: seq<Ball>, count: nat)
    requires 0 < count
    ensures Separate(env, balls, count) ==
      match PassFrom(env, balls, 0, 0, false)
      case Stuck(stuck) => Concentric(stuck)
      case Pass(next, moved) =>
        if !moved then Separated(next)
        else if count > 1 then Separate(env, next, count - 1)
        else if AnyClash(next) then StillOverlapping(next)
        else Separated(next)
  {
    hide PassFrom, AnyClash;
  }

  /** Placing a ball twice is placing it at the second position. */
  lemma PlaceAgain(balls: seq<Ball>, id: BallId, p: Point, q: Point)
    ensures var once, k := Place(balls, id, p), Find(balls, id);
      && Place(once, id, q) == Place(balls, id, q)
      && once[k := once[k].(r := q)] == Place(balls, id, q)
      && Get(once, id) == once[k] && once[k].r == p
  {
  }

  /** One try of the search. */
  lemma SpotStep(env: Env, balls: seq<Ball>, id: BallId, noise: nat -> Point, tries: nat)
    requires tries <= TRIES
    ensures var k := Obstacle(env, balls, id);
      && (k == |balls| ==> SpotFrom(env, balls, id, noise, tries) == Spotted(balls))
      && (k < |balls| && tries == TRIES ==> SpotFrom(env, balls, id, noise, tries) == NoRoom(balls))
      && (k < |balls| && tries < TRIES ==>
            SpotFrom(env, balls, id, noise, tries) ==
              var aimed, n := Below(env, balls[k]), noise(tries + 1);
              if Room(env, balls[k]) < 0.0 then NotANumber(balls)
              else if Lowered(aimed, n).y < BALL_RADIUS then OutOfBounds(Place(balls, id, aimed.Plus(n)))
              else SpotFrom(env, Place(balls, id, Lowered(aimed, n)), id, noise, tries + 1))
  {
    hide Obstacle, Below, Lowered, Room, Place;
  }
}
