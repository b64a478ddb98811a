/** Balls that overlap, and how `TableState::fixOverlap` pushes them apart. */
module Overlapping {
  import opened Wrappers
  import opened Vectors
  import opened Balls
  import opened Kinematics
  import opened Scheduling
  import opened SchedulerLaws

  // ---------------------------------------------------------------- overlap

  /** How much closer than two radii two centres are, in squares. */
  function Closeness(p: Point, q: Point): real {
    4.0 * BALL_RADIUS * BALL_RADIUS - (p.x - q.x) * (p.x - q.x) - (p.y - q.y) * (p.y - q.y)
  }

  /** `Ball::overlaps`. */
  predicate Overlaps(a: BallData, b: BallData, epsilon: real) { Closeness(a.r, b.r) > epsilon }

  /** Two balls in play that overlap at epsilon 0. */
  predicate Clash(balls: seq<Ball>, i: nat, j: nat)
    requires i < |balls| && j < |balls|
  {
    balls[i].InPlay() && balls[j].InPlay() && Overlaps(balls[i], balls[j], 0.0)
  }

  ghost predicate Apart(balls: seq<Ball>) {
    forall i: nat, j: nat :: j < i < |balls| ==> !Clash(balls, i, j)
  }

  /** `Ball::moveAway`; `norm` throws when the two centres coincide. */
  function MoveAway(env: Env, b: Ball, other: Ball): Option<Ball> {
    var d := b.r.Minus(other.r).ToVector();
    if Mag(env.root, d) == 0.0 then None
    else Some(b.(r := b.r.Plus(Norm(env.root, d).Times(env.epsilon).ToPoint())))
  }

  /** Outcome of one push; an exception leaves what was moved before it. */
  datatype Push = Pushed(balls: seq<Ball>) | Jammed(balls: seq<Ball>)

  /** Pushing two overlapping balls apart, the later one first. */
  function Nudge(env: Env, balls: seq<Ball>, i: nat, j: nat): (r: Push)
    requires j < i < |balls|
    ensures |r.balls| == |balls|
  {
    var first := MoveAway(env, balls[i], balls[j]);
    if first.None? then Jammed(balls)
    else
      var second := MoveAway(env, balls[j], first.value);
      if second.None? then Jammed(balls[i := first.value])
      else Pushed(balls[i := first.value][j := second.value])
  }

  datatype Pass = Pass(balls: seq<Ball>, moved: bool) | Stuck(balls: seq<Ball>)

  /** One pass of `fixOverlap` from the pair (i, j) on. */
  function PassFrom(env: Env, balls: seq<Ball>, i: nat, j: nat, moved: bool): Pass
    requires i <= |balls|
    decreases |balls| - i, i - j
  {
    if i == |balls| then Pass(balls, moved)
    else if j >= i then PassFrom(env, balls, i + 1, 0, moved)
    else if !Clash(balls, i, j) then PassFrom(env, balls, i, j + 1, moved)
    else
      var nudged := Nudge(env, balls, i, j);
      if nudged.Jammed? then Stuck(nudged.balls) else PassFrom(env, nudged.balls, i, j + 1, true)
  }

  predicate AnyClash(balls: seq<Ball>) {
    exists i: nat, j: nat :: j < i < |balls| && Clash(balls, i, j)
  }

  /** `TableState::fixOverlap` with `count` passes left. */
  function Separate(env: Env, balls: seq<Ball>, count: nat): Separation
    requires 0 < count
    decreases count
  {
    match PassFrom(env, balls, 0, 0, false)
    case Stuck(stuck) => Concentric(stuck)
    case Pass(next, moved) =>
      if !moved then Separated(next)
      else if count > 1 then Separate(env, next, count - 1)
      else if AnyClash(next) then StillOverlapping(next)
      else Separated(next)
  }

  const PASSES: nat := 100

  lemma NudgeShifts(env: Env, balls: seq<Ball>, i: nat, j: nat)
    requires j < i < |balls| && Clash(balls, i, j) 
    ensures OnlyShifted(balls, Nudge(env, balls, i, j).balls)
  {
    hide Mag, Norm, Overlaps;
  }

  lemma ShiftsCompose(a: seq<Ball>, b: seq<Ball>, c: seq<Ball>)
    requires OnlyShifted(a, b) && OnlyShifted(b, c)
    ensures OnlyShifted(a, c)
  {
    forall i | 0 <= i < |a|
      ensures c[i] == a[i].(r := c[i].r) && (a[i].InPlay() || c[i] == a[i])
    {
      assert b[i] == a[i].(r := b[i].r) && c[i] == b[i].(r := c[i].r);
    }
  }

  lemma {:induction false} PassShifts(env: Env, balls: seq<Ball>, i: nat, j: nat, moved: bool)
    requires i <= |balls|
    ensures OnlyShifted(balls, PassFrom(env, balls, i, j, moved).balls)
    decreases |balls| - i, i - j
  {
    hide Nudge, Clash;
    if i < |balls| {
      if j >= i {
        PassShifts(env, balls, i + 1, 0, moved);
      } else if !Clash(balls, i, j) {
        PassShifts(env, balls, i, j + 1, moved);
      } else {
        NudgeShifts(env, balls, i, j);
        var next := Nudge(env, balls, i, j).balls;
        if Nudge(env, balls, i, j).Pushed? {
          PassShifts(env, next, i, j + 1, true);
          ShiftsCompose(balls, next, PassFrom(env, next, i, j + 1, true).balls);
        }
      }
    }
  }

  /** A pass that moves nothing has found nothing to move. */
  lemma {:induction false} QuietPass(env: Env, balls: seq<Ball>, i: nat, j: nat, moved: bool)
    requires i <= |balls|
    requires var p := PassFrom(env, balls, i, j, moved); p.Pass? && !p.moved
    ensures !moved && PassFrom(env, balls, i, j, moved).balls == balls
    ensures forall k: nat, l: nat :: l < k < |balls| && (i < k || (i == k && j <= l)) ==> !Clash(balls, k, l)
    decreases |balls| - i, i - j
  {
    hide Nudge, Clash;
    if i < |balls| {
      if j >= i {
        QuietPass(env, balls, i + 1, 0, moved);
      } else if !Clash(balls, i, j) {
        QuietPass(env, balls, i, j + 1, moved);
      } else if Nudge(env, balls, i, j).Pushed? {
        QuietPass(env, Nudge(env, balls, i, j).balls, i, j + 1, true);
      }
    }
  }

  /** Separation only shifts balls in play; when it returns normally none of them overlap. */
  lemma {:induction false} SeparateApart(env: Env, balls: seq<Ball>, count: nat)
    requires 0 < count
    ensures OnlyShifted(balls, Separate(env, balls, count).balls)
    ensures Separate(env, balls, count).Separated? ==> Apart(Separate(env, balls, count).balls)
    ensures Separate(env, balls, count).StillOverlapping? ==> !Apart(Separate(env, balls, count).balls)
    decreases count
  {
    hide PassFrom, Clash;
    PassShifts(env, balls, 0, 0, false);
    var p := PassFrom(env, balls, 0, 0, false);
    if p.Pass? {
      if !p.moved {
        QuietPass(env, balls, 0, 0, false);
      } else if count > 1 {
        SeparateApart(env, p.balls, count - 1);
        ShiftsCompose(balls, p.balls, Separate(env, p.balls, count - 1).balls);
      }
    }
  }

  lemma {:induction false} ApartPass(env: Env, balls: seq<Ball>, i: nat, j: nat)
    requires i <= |balls| && Apart(balls)
    ensures PassFrom(env, balls, i, j, false) == Pass(balls, false)
    decreases |balls| - i, i - j
  {
    hide Nudge, Clash;
    if i < |balls| {
      if j >= i {
        ApartPass(env, balls, i + 1, 0);
      } else {
        ApartPass(env, balls, i, j + 1);
      }
    }
  }

  /** Balls that do not overlap are left alone, so separating twice is separating once. */
  lemma SeparateAgain(env: Env, balls: seq<Ball>, count: nat)
    requires 0 < count
    ensures Apart(balls) ==> Separate(env, balls, count) == Separated(balls)
    ensures Separate(env, balls, count).Separated? ==>
              Separate(env, Separate(env, balls, count).balls, count) == Separate(env, balls, count)
  {
    hide PassFrom, Clash;
    if Apart(balls) {
      ApartPass(env, balls, 0, 0);
    }
    SeparateApart(env, balls, count);
    if Separate(env, balls, count).Separated? {
      ApartPass(env, Separate(env, balls, count).balls, 0, 0);
    }
  }
}
