/** A nine-ball game as the code plays it, changing its fields and its table in place
    (`NineBallState`). Every method is proved equal to the function of `NineBall` that specifies
    it, so every theorem about `ExecuteNine` is one about `ExecuteShot`. */
module NineBallStates {
  import opened Wrappers
  import opened Vectors
  import opened Balls
  import opened Events
  import opened Kinematics
  import opened Scheduling
  import opened ShotStory
  import opened Spotting
  import opened TableStates
  import opened Physics
  import opened Shots
  import opened Games
  import opened NineBall

  /** What the event loop notes. */
  datatype Notes = Notes(railCollisions: nat, pocketedBalls: nat, nineBallPocketed: bool, scratch: bool, firstBallHit: BallId, lowestBall: BallId)

  /** What the notes mean after `n` entries. */
  ghost function NotesOf(s: Nine, log: seq<Record>, n: nat): Notes
    requires n <= |log|
  {
    Notes(Rails(s, log, n), Tally(log, n, ObjectPocketed), PocketedBy(log, n, NINE), PocketedBy(log, n, CUE), FirstObject(log, n),
          LowestPocketed(log, n, LowestInPlay(s.balls)))
  }

  /** The fouls as the code tests for them. */
  predicate FoulNoted(n: Notes, turn: Turn, shot: GameShot) {
    || n.scratch
    || (!shot.decision.DeclarePushOut?
        && (n.firstBallHit != n.lowestBall || (n.railCollisions < (if turn.Break? then 4 else 1) && n.pocketedBalls == 0)))
  }

  class NineBallState {
    const env: Env
    const possible: (seq<Ball>, ShotParams) -> bool
    const table: TableState
    var turnType: Turn
    var timeLeft: real
    var timeLeftOpp: real
    var curPlayerStarted: bool
    var switchedSides: bool
    var fouls: int
    var oppFouls: int

    /** The state the specification talks about. */
    function View(): Nine
      reads this, table
    {
      Nine(table.balls, Game(turnType, timeLeft, timeLeftOpp, curPlayerStarted, switchedSides), fouls, oppFouls)
    }

    /** A racked table; `noise` is what racking drew. */
    constructor (env: Env, possible: (seq<Ball>, ShotParams) -> bool, timeLeft: real, timeLeftOpp: real, noise: BallId -> Point)
      ensures this.env == env && this.possible == possible && fresh(table)
      ensures View() == NewNine(env, timeLeft, timeLeftOpp, noise)
    {
      this.env := env;
      this.possible := possible;
      table := new TableState([]);
      turnType := Break;
      this.timeLeft := timeLeft;
      this.timeLeftOpp := timeLeftOpp;
      curPlayerStarted := true;
      switchedSides := false;
      fouls := 0;
      oppFouls := 0;
      new;
      hide NineSpots;
      Rack(noise);
    }

    /** `rack`: one `setBall` after another, then noise. */
    method Rack(noise: BallId -> Point)
      modifies table
      ensures table.balls == Racked(old(table.balls), NineSpots(env), noise)
    {
      hide NineSpots;
      var spots := NineSpots(env);
      var k := 0;
      while k < |spots|
        invariant k <= |spots|
        invariant PlaceAll(table.balls, spots[k..]) == PlaceAll(old(table.balls), spots)
      {
        assert spots[k..][1..] == spots[k + 1..];
        table.SetBall(spots[k].id, spots[k].at);
        k := k + 1;
      }
      assert table.balls == PlaceAll(old(table.balls), spots);
      table.balls := Jitter(table.balls, noise);
    }

    /** `switchSides` of both classes. */
    method SwitchSides()
      modifies this
      ensures View() == SwitchNine(old(View()))
    {
      var temp := Truncate(timeLeft);
      timeLeft := timeLeftOpp;
      timeLeftOpp := temp;
      curPlayerStarted := !curPlayerStarted;
      switchedSides := !switchedSides;
      var tmp := oppFouls;
      oppFouls := fouls;
      fouls := tmp;
    }

    /** `preProcess`. */
    method PreProcess(shot: GameShot) returns (code: Code, threw: bool)
      modifies this
      ensures threw <==> PreNine(env, old(View()), shot).PreThrew?
      ensures !threw ==> Prepared(code, View()) == PreNine(env, old(View()), shot)
    {
      hide Truncate;
      code, threw := Rejected, false;
      if shot.decision.Concede? {
        SwitchSides();
        turnType := Win;
        code := NoExecute;
        return;
      }
      match turnType {
        case PushOut =>
          if shot.decision.KeepShooting? {
            turnType := Normal;
            code := NoExecute;
          } else if shot.decision.DeclarePushOut? {
            turnType := Normal;
            SwitchSides();
            code := NoExecute;
          }
        case Break =>
          code := if shot.cue.y < env.table.HeadString() || !shot.decision.NoDecision? then Rejected else PlaceCue;
        case BallInHand =>
          code := if shot.decision.NoDecision? then PlaceCue else Rejected;
        case Normal =>
          code := if shot.decision.NoDecision? then Execute else Rejected;
        case FirstShot =>
          code := Execute;
        case _ =>
          threw := true;
      }
    }

    /** The search for the lowest ball left on the table. */
    method LowestLeft() returns (lowest: BallId)
      requires forall id: BallId :: id < BALLS ==> Find(table.balls, id) < |table.balls|
      modifies table
      ensures table.balls == old(table.balls)
      ensures lowest == LowestInPlay(table.balls)
    {
      var b: BallId := ONE;
      while b < NINE
        invariant 1 <= b <= NINE && table.balls == old(table.balls)
        invariant LowestFrom(table.balls, b) == LowestInPlay(table.balls)
        decreases NINE - b
      {
        var slot := table.GetBall(b);
        if table.balls[slot].InPlay() {
          return b;
        }
        b := b + 1;
      }
      lowest := NINE;
    }

    /** The event loop of `processShot`. */
    method ReadEvents(events: seq<Record>, lowest: BallId) returns (n: Notes)
      requires events != [] && events[0].event.kind.CueStrike?
      requires lowest == LowestInPlay(table.balls)
      ensures n == NotesOf(View(), events, |events|)
    {
      var railCollisions, pocketedBalls, nineBallPocketed, scratch := 0, 0, false, false;
      var firstBallHit, lowestBall := UNKNOWN_ID, lowest;
      ReadStrike(View(), events);
      hide NotesOf, LowestInPlay;
      var itr := 1;
      while itr < |events|
        invariant 1 <= itr <= |events|
        invariant Notes(railCollisions, pocketedBalls, nineBallPocketed, scratch, firstBallHit, lowestBall) == NotesOf(View(), events, itr)
      {
        ReadOne(View(), events, itr);
        var e := events[itr].event;
        var b := e.ball1;
        if e.kind.Pocketed? {
          if b == NINE {
            nineBallPocketed := true;
          }
          if b == CUE {
            scratch := true;
          } else {
            if b < lowestBall {
              lowestBall := b;
            }
            pocketedBalls := pocketedBalls + 1;
          }
        } else if e.kind.RailCollision? {
          if (turnType.Break? && b != CUE) || (!turnType.Break? && firstBallHit != UNKNOWN_ID) {
            railCollisions := railCollisions + 1;
          }
        } else if e.kind.BallCollision? {
          if firstBallHit == UNKNOWN_ID {
            firstBallHit := e.kind.ball2;
          }
        }
        itr := itr + 1;
      }
      n := Notes(railCollisions, pocketedBalls, nineBallPocketed, scratch, firstBallHit, lowestBall);
    }

    /** What `processShot` makes of the notes. */
    method Judge(n: Notes, shot: GameShot) returns (foul: bool, credit: nat)
      ensures credit == if shot.decision.DeclarePushOut? then 0 else n.pocketedBalls
      ensures foul == FoulNoted(n, turnType, shot)
    {
      credit := n.pocketedBalls;
      foul := n.scratch;
      if shot.decision.DeclarePushOut? {
        credit := 0;
      } else {
        foul := foul || n.firstBallHit != n.lowestBall;
        foul := foul || (n.railCollisions < (if turnType.Break? then 4 else 1) && credit == 0);
      }
    }

    /** `processShot`, once the list has been seen to start with the cue strike. */
    method ProcessShot(events: seq<Record>, shot: GameShot, chance: Chance) returns (threw: bool)
      requires events != [] && events[0].event.kind.CueStrike?
      requires forall id: BallId :: id < BALLS ==> Find(table.balls, id) < |table.balls|
      modifies this, table
      ensures threw <==> JudgeNine(env, old(View()), events, shot, chance).None?
      ensures !threw ==> Some(View()) == JudgeNine(env, old(View()), events, shot, chance)
    {
      ghost var s := View();
      var lowest := LowestLeft();
      var n := ReadEvents(events, lowest);
      var foul, credit := Judge(n, shot);
      JudgeMeans(s, events, shot, n, foul, credit);
      hide NotesOf, FoulNine, Credit, PocketedBy, Spotting.Spot, LowestBall, SwitchNine;
      SettleSides(foul, credit);
      assert View() == Settle(s, events, shot);
      var nineBallPocketed := n.nineBallPocketed;
      threw := false;
      if nineBallPocketed && !(credit > 0 && !foul) {
        var spotted := table.SpotBall(env, NINE, chance.spot);
        if !spotted.Spotted? {
          return true;
        }
        nineBallPocketed := false;
      }
      ghost var t := View();
      TakeTurn(foul, nineBallPocketed, shot);
      assert View() == NextTurn(s, t, events, shot);
    }

    /** Its middle part: the shooter's counter and the sides. */
    method SettleSides(foul: bool, credit: nat)
      modifies this
      ensures var counted := if foul then old(View()) else old(View()).(fouls := 0);
        View() == if credit > 0 && !foul then counted else SwitchNine(counted)
    {
      if !foul {
        fouls := 0;
      }
      var keepTurn := credit > 0 && !foul;
      if !keepTurn {
        SwitchSides();
      }
    }

    /** Its last part: the next turn. */
    method TakeTurn(foul: bool, nineBallPocketed: bool, shot: GameShot)
      modifies this
      ensures var t := old(View());
        View() ==
          if foul then Turned(t.(oppFouls := t.oppFouls + 1), if t.oppFouls + 1 == 3 then Win else BallInHand)
          else Turned(t, if nineBallPocketed then Win else if t.game.turn.Break? then FirstShot
                         else if shot.decision.DeclarePushOut? then PushOut else Normal)
    {
      if foul {
        oppFouls := oppFouls + 1;
        turnType := if oppFouls == 3 then Win else BallInHand;
      } else if nineBallPocketed {
        turnType := Win;
      } else if turnType.Break? {
        turnType := FirstShot;
      } else if shot.decision.DeclarePushOut? {
        turnType := PushOut;
      } else {
        turnType := Normal;
      }
    }

    /** The physics call of `executeShot` and what follows it. */
    method Play(code: Code, shot: GameShot, chance: Chance) returns (outcome: Outcome)
      requires NineInv(View()) && ShotTurn(turnType) && (!code.PlaceCue? ==> OnTable(table.balls, CUE))
      modifies this, table
      ensures Answers(PlayNine(env, FastFiz(env, possible), old(View()), code, shot, chance), outcome, View())
    {
      hide NineInv, FastFiz, Simulate, JudgeNine, Told, Played, Place, OnTable;
      ghost var s := View();
      ghost var w := FastFiz(env, possible);
      FastFizLawful(env, possible);
      if code.PlaceCue? {
        table.SetBall(CUE, shot.cue);
      }
      ghost var aimed := Aimed(s.balls, code, shot);
      assert View() == s.(balls := aimed);
      var shotObject := new Shot(env, possible);
      var played := shotObject.SimulateShot(table, shot.params, true);
      assert played == Simulate(w, aimed, shot.params, true);
      match played {
        case Refused => outcome := Returned(ShotImpossible);
        case Failed(_) => outcome := Returned(ShotImpossible);
        case Raised(_) => outcome := Threw;
        case Finished(sim) =>
          PlayFinished(env, w, s, code, shot, chance);
          PlayedFull(s.(balls := sim.balls), sim.log);
          StrikeLeads(aimed, sim.balls, sim.log);
          var threw := ProcessShot(shotObject.shotEvents, shot, chance);
          outcome := if threw then Threw else Returned(if switchedSides then OkLostTurn else Ok);
      }
    }

    /** `executeShot`. */
    method ExecuteShot(shot: GameShot, chance: Chance) returns (outcome: Outcome)
      requires NineInv(View())
      modifies this, table
      ensures Answers(ExecuteNine(env, FastFiz(env, possible), old(View()), shot, chance), outcome, View())
    {
      hide NineInv, FastFiz, PlayNine, PreNine;
      ghost var s := View();
      ChargedInv(s, shot);
      switchedSides := false;
      if shot.timeSpent != 0.0 && timeLeft != 0.0 {
        timeLeft := timeLeft - shot.timeSpent;
        if timeLeft < 0.0 {
          return Returned(Timeout);
        }
      }
      ghost var charged := s.(game := Charge(s.game, shot));
      assert View() == charged;
      var code, threw := PreProcess(shot);
      if threw {
        return Threw;
      }
      PreNineKeeps(env, charged, shot);
      match code {
        case Rejected =>
          outcome := Returned(BadParams);
        case NoExecute =>
          outcome := Returned(if switchedSides then OkLostTurn else Ok);
        case _ =>
          outcome := Play(code, shot, chance);
      }
    }
  }

  lemma ReadStrike(s: Nine, log: seq<Record>)
    requires log != [] && log[0].event.kind.CueStrike?
    ensures NotesOf(s, log, 1) == Notes(0, 0, false, false, UNKNOWN_ID, LowestInPlay(s.balls))
  {
    hide LowestInPlay;
    assert Rails(s, log, 0) == 0 && Tally(log, 0, ObjectPocketed) == 0 && FirstObject(log, 0) == UNKNOWN_ID;
    assert LowestPocketed(log, 0, LowestInPlay(s.balls)) == LowestInPlay(s.balls);
  }

  /** What one more entry of the list adds to each note. */
  lemma ReadOne(s: Nine, log: seq<Record>, n: nat)
    requires n < |log|
    ensures var e := log[n].event; var m := NotesOf(s, log, n);
      var down := e.kind.Pocketed?;
      NotesOf(s, log, n + 1) ==
        if down then
          m.(pocketedBalls := if e.ball1 != CUE then m.pocketedBalls + 1 else m.pocketedBalls,
             nineBallPocketed := if e.ball1 == NINE then true else m.nineBallPocketed,
             scratch := if e.ball1 == CUE then true else m.scratch,
             lowestBall := if e.ball1 != CUE && e.ball1 < m.lowestBall then e.ball1 else m.lowestBall)
        else if e.kind.RailCollision? then
          if s.game.turn.Break? then if e.ball1 != CUE then m.(railCollisions := m.railCollisions + 1) else m
          else if m.firstBallHit != UNKNOWN_ID then m.(railCollisions := m.railCollisions + 1) else m
        else if e.kind.BallCollision? && m.firstBallHit == UNKNOWN_ID then m.(firstBallHit := e.kind.ball2)
        else m
  {
    hide LowestInPlay;
    ReadPocketed(log, n, NINE);
    ReadPocketed(log, n, CUE);
    hide PocketedBy;
  }

  /** The verdict on the notes is the verdict on the list. */
  lemma JudgeMeans(s: Nine, log: seq<Record>, shot: GameShot, n: Notes, foul: bool, credit: nat)
    requires n == NotesOf(s, log, |log|)
    requires credit == if shot.decision.DeclarePushOut? then 0 else n.pocketedBalls
    requires foul == FoulNoted(n, s.game.turn, shot)
    ensures credit == Credit(log, shot) && (foul <==> FoulNine(s, log, shot, LowestBall(s, log)))
    ensures n.nineBallPocketed <==> PocketedBy(log, |log|, NINE)
  {
    hide PocketedBy, Rails, Tally, FirstObject, LowestPocketed, LowestInPlay;
  }

  lemma PlayedFull(s: Nine, log: seq<Record>)
    requires Played(s, log)
    ensures forall id: BallId :: id < BALLS ==> Find(s.balls, id) < |s.balls|
  {
  }
}
