/** An eight-ball game as the code plays it, changing its fields and its table in place
    (`EightBallState`). Every method is proved equal to the function of `EightBall` that
    specifies it, so every theorem about `ExecuteEight` is one about `ExecuteShot`. */
module EightBallStates {
  import opened Wrappers
  import opened Vectors
  import opened Balls
  import opened Events
  import opened Kinematics
  import opened Scheduling
  import opened ShotStory
  import opened Spotting
  import opened TableStates
  import opened Physics
  import opened Shots
  import opened Games
  import opened EightBall

  class EightBallState {
    const env: Env
    const possible: (seq<Ball>, ShotParams) -> bool
    const table: TableState
    var turnType: Turn
    var timeLeft: real
    var timeLeftOpp: real
    var curPlayerStarted: bool
    var switchedSides: bool
    var openTable: bool
    var solids: bool

    /** The state the specification talks about. */
    function View(): Eight
      reads this, table
    {
      Eight(table.balls, Game(turnType, timeLeft, timeLeftOpp, curPlayerStarted, switchedSides), openTable, solids)
    }

    /** A racked table; `noise` is what racking drew. */
    constructor (env: Env, possible: (seq<Ball>, ShotParams) -> bool, timeLeft: real, timeLeftOpp: real, noise: BallId -> Point)
      ensures this.env == env && this.possible == possible && fresh(table)
      ensures View() == NewEight(env, timeLeft, timeLeftOpp, noise)
    {
      this.env := env;
      this.possible := possible;
      table := new TableState([]);
      turnType := Break;
      this.timeLeft := timeLeft;
      this.timeLeftOpp := timeLeftOpp;
      curPlayerStarted := true;
      switchedSides := false;
      openTable := true;
      solids := true;
      new;
      hide EightSpots;
      Rack(noise);
    }

    /** `rack`: one `setBall` after another, then noise. */
    method Rack(noise: BallId -> Point)
      modifies table
      ensures table.balls == Racked(old(table.balls), EightSpots(env), noise)
    {
      hide EightSpots;
      var spots := EightSpots(env);
      var k := 0;
      while k < |spots|
        invariant k <= |spots|
        invariant PlaceAll(table.balls, spots[k..]) == PlaceAll(old(table.balls), spots)
      {
        assert spots[k..][1..] == spots[k + 1..];
        table.SetBall(spots[k].id, spots[k].at);
        k := k + 1;
      }
      assert table.balls == PlaceAll(old(table.balls), spots);
      table.balls := Jitter(table.balls, noise);
    }

    /** `switchSides` of both classes. */
    method SwitchSides()
      modifies this
      ensures View() == SwitchEight(old(View()))
    {
      var temp := Truncate(timeLeft);
      timeLeft := timeLeftOpp;
      timeLeftOpp := temp;
      curPlayerStarted := !curPlayerStarted;
      switchedSides := !switchedSides;
      solids := !solids;
    }

    /** Racking for the break, as two decisions ask. */
    method Rerack(chance: Chance) returns (racked: bool)
      modifies this, table
      ensures racked <==> RerackEight(env, old(View()), chance).Prepared?
      ensures racked ==> View() == RerackEight(env, old(View()), chance).state
    {
      racked := chance.rack.Some?;
      if racked {
        Rack(chance.rack.value);
        turnType := Break;
      }
    }

    /** `preProcess`. */
    method PreProcess(shot: GameShot, chance: Chance) returns (code: Code, threw: bool)
      modifies this, table
      ensures threw <==> PreEight(env, old(View()), shot, chance).PreThrew?
      ensures !threw ==> Prepared(code, View()) == PreEight(env, old(View()), shot, chance)
    {
      hide RerackEight, Get, Truncate;
      code, threw := Rejected, false;
      ghost var start := View();
      RerackAnswer(env, start, chance);
      RerackAnswer(env, SwitchEight(start), chance);
      if shot.decision.Concede? {
        SwitchSides();
        turnType := Win;
        code := NoExecute;
        return;
      }
      match turnType {
        case FoulOnBreak =>
          if shot.decision.RerackOppShoot? {
            SwitchSides();
          }
          if shot.decision.RerackOppShoot? || shot.decision.Rerack? {
            var racked := Rerack(chance);
            threw := !racked;
            code := NoExecute;
          } else if shot.decision.KeepShooting? {
            turnType := BehindLine;
            code := NoExecute;
          }
        case EightOnBreak =>
          if shot.decision.Rerack? {
            var racked := Rerack(chance);
            threw := !racked;
            code := NoExecute;
          } else if shot.decision.KeepShooting? {
            turnType := if Get(table.balls, CUE).InPlay() then Normal else BehindLine;
            code := NoExecute;
          }
        case Break =>
          code := if shot.cue.y < env.table.HeadString() then Rejected else PlaceCue;
        case BehindLine =>
          code := if shot.cue.y < env.table.HeadString() || !CallInRange(shot) then Rejected else PlaceCue;
        case BallInHand =>
          code := if CallInRange(shot) then PlaceCue else Rejected;
        case Normal =>
          code := if CallInRange(shot) then Execute else Rejected;
        case _ =>
          threw := true;
      }
    }

    /** The TT_BREAK case of `processShot`. */
    method ProcessBreak(events: seq<Record>, chance: Chance) returns (threw: bool)
      requires events != [] && events[0].event.kind.CueStrike?
      modifies this, table
      ensures threw <==> JudgeBreak(env, old(View()), events, chance).None?
      ensures !threw ==> Some(View()) == JudgeBreak(env, old(View()), events, chance)
    {
      var railCollisions, pocketedBalls, eightBallPocketed, scratch := 0, 0, false, false;
      var itr := 1;
      while itr < |events|
        invariant itr <= |events| && View() == old(View())
        invariant railCollisions == Tally(events, itr, AnyRail)
        invariant pocketedBalls == Tally(events, itr, ObjectPocketed)
        invariant eightBallPocketed <==> PocketedBy(events, itr, EIGHT)
        invariant scratch <==> PocketedBy(events, itr, CUE)
      {
        var e := events[itr].event;
        if e.kind.Pocketed? {
          if e.ball1 == EIGHT {
            eightBallPocketed := true;
          }
          if e.ball1 == CUE {
            scratch := true;
          } else {
            pocketedBalls := pocketedBalls + 1;
          }
        } else if e.kind.RailCollision? {
          railCollisions := railCollisions + 1;
        }
        itr := itr + 1;
      }
      hide Tally, PocketedBy, Spotting.Spot, Truncate;
      threw := false;
      var legalShot := !scratch && !eightBallPocketed && (railCollisions > 3 || pocketedBalls > 0);
      openTable := true;
      if legalShot {
        turnType := Normal;
      } else if !scratch && !eightBallPocketed {
        turnType := FoulOnBreak;
        SwitchSides();
      } else if !eightBallPocketed {
        turnType := BehindLine;
        SwitchSides();
      } else {
        if scratch {
          SwitchSides();
        }
        turnType := EightOnBreak;
        var spotted := table.SpotBall(env, EIGHT, chance.spot);
        threw := !spotted.Spotted?;
      }
    }

    /** The first loop of the other case: is every ball of the shooter's group in a pocket? */
    method GroupIsDown() returns (down: bool)
      requires forall id: BallId :: id < BALLS ==> Find(table.balls, id) < |table.balls|
      modifies table
      ensures table.balls == old(table.balls)
      ensures down <==> GroupDown(table.balls, solids)
    {
      down := true;
      var name, endName := if solids then ONE else NINE, if solids then EIGHT else UNKNOWN_ID;
      while name < endName
        invariant (if solids then ONE else NINE) <= name <= endName
        invariant table.balls == old(table.balls)
        invariant down <==> forall id: BallId :: InGroup(solids, id) && id < name ==> Get(table.balls, id).IsPocketed()
      {
        var slot := table.GetBall(name);
        if !table.balls[slot].IsPocketed() {
          down := false;
        }
        name := name + 1;
      }
    }

    /** Its POCKETED case. */
    method NotePocketed(e: Event, shot: GameShot, scratch0: bool, eight0: bool, allSunk0: bool, legal0: bool)
      returns (scratch: bool, eightBallPocketed: bool, allSunk: bool, pocketedLegalBall: bool)
      requires e.kind.Pocketed?
      ensures scratch == (scratch0 || e.ball1 == CUE)
      ensures eightBallPocketed == (eight0 || e.ball1 == EIGHT)
      ensures allSunk == (allSunk0 && !InGroup(solids, e.ball1))
      ensures pocketedLegalBall == (legal0 ||
        (Called(e, shot) && (InGroup(solids, e.ball1) || (openTable && InGroup(!solids, e.ball1)) || (e.ball1 == EIGHT && allSunk0))))
    {
      scratch, eightBallPocketed, allSunk, pocketedLegalBall := scratch0, eight0, allSunk0, legal0;
      var ball1, pocket := e.ball1, e.kind.pocket;
      if ball1 == CUE {
        scratch := true;
      } else if ball1 < EIGHT {
        if solids {
          allSunk := false;
        }
        if shot.ball == ball1 && pocket == shot.pocket && (openTable || solids) {
          pocketedLegalBall := true;
        }
      } else if ball1 == EIGHT {
        eightBallPocketed := true;
        if allSunk && shot.ball == ball1 && pocket == shot.pocket {
          pocketedLegalBall := true;
        }
      } else if ball1 < UNKNOWN_ID {
        if !solids {
          allSunk := false;
        }
        if shot.ball == ball1 && pocket == shot.pocket && (openTable || !solids) {
          pocketedLegalBall := true;
        }
      }
    }

    /** The head-string check that opens each turn of the event loop. */
    method NotePast(r: Record, f: Facts) returns (past: bool)
      ensures past == NowPast(env, View(), r, f)
    {
      past := f.pastHeadString;
      if turnType.BehindLine? && !f.firstBallCollision && !past {
        past := Beyond(env, r);
      }
    }

    /** One turn of the event loop of the other cases. */
    method NoteEvent(r: Record, shot: GameShot, f: Facts) returns (g: Facts)
      ensures g == Noted(env, View(), r, shot, f)
    {
      hide InGroup, Called, Beyond;
      var past := NotePast(r, f);
      hide NowPast;
      g := f.(pastHeadString := past);
      match r.event.kind {
        case Pocketed(_) =>
          var scratch, eight, allSunk, legal :=
            NotePocketed(r.event, shot, f.scratch, f.eightBallPocketed, f.allSunk, f.pocketedLegalBall);
          assert legal == NowLegal(View(), r.event, shot, f) && allSunk == StillSunk(View(), r.event, f);
          hide NowLegal, StillSunk;
          g := g.(scratch := scratch, eightBallPocketed := eight, allSunk := allSunk, pocketedLegalBall := legal);
        case RailCollision(_) =>
          if g.firstBallCollision {
            g := g.(railCollision := true);
          }
        case BallCollision(ball2) =>
          if !g.firstBallCollision {
            g := g.(firstBallCollision := true, firstBall := ball2);
          }
        case _ =>
      }
    }

    /** That loop, told whether the group was found down: what it has noted when it ends. */
    method ReadEvents(events: seq<Record>, shot: GameShot, down: bool) returns (f: Facts)
      requires events != [] && events[0].event.kind.CueStrike?
      requires down <==> !openTable && GroupDown(table.balls, solids)
      ensures f == FactsOf(env, View(), events, |events|, shot)
    {
      ReadStrike(env, View(), events, shot);
      hide GroupDown, FactsOf, Noted;
      f := Facts(false, false, false, false, false, false, CUE, down);
      var itr := 1;
      while itr < |events|
        invariant 1 <= itr <= |events| && f == FactsOf(env, View(), events, itr, shot)
      {
        ReadOne(env, View(), events, itr, shot);
        f := NoteEvent(events[itr], shot, f);
        itr := itr + 1;
      }
    }

    /** The TT_NORMAL, TT_BALL_IN_HAND and TT_BEHIND_LINE cases of `processShot`. */
    method ProcessOther(events: seq<Record>, shot: GameShot)
      requires events != [] && events[0].event.kind.CueStrike?
      requires forall id: BallId :: id < BALLS ==> Find(table.balls, id) < |table.balls|
      modifies this, table
      ensures View() == JudgeShot(env, old(View()), events, shot)
    {
      ghost var s := View();
      var down := false;
      if !openTable {
        down := GroupIsDown();
      }
      var f := ReadEvents(events, shot, down);
      hide AllSunk, LegalBy, PocketedBy, ContactBy, RailAfterContact, PastHeadString, FirstBall, Truncate;
      var foul := false;
      if !f.firstBallCollision {
        foul := true;
      }
      if !f.railCollision && !f.pocketedLegalBall {
        foul := true;
      }
      if turnType.BehindLine? && !f.pastHeadString {
        foul := true;
      }
      if !openTable && solids && !f.allSunk && !(CUE < f.firstBall < EIGHT) {
        foul := true;
      }
      if !openTable && !solids && !f.allSunk && !(EIGHT < f.firstBall < UNKNOWN_ID) {
        foul := true;
      }
      if f.allSunk && f.firstBall != EIGHT {
        foul := true;
      }
      assert foul == FoulPlay(env, s, events, shot);
      hide FoulPlay;
      if f.eightBallPocketed {
        turnType := Win;
        if !f.allSunk || f.scratch || foul {
          SwitchSides();
        }
      } else if f.scratch || foul {
        SwitchSides();
        turnType := BallInHand;
      } else if f.pocketedLegalBall {
        turnType := Normal;
        if openTable {
          openTable := false;
          solids := shot.ball < EIGHT;
        }
      } else {
        turnType := Normal;
        SwitchSides();
      }
    }

    /** `processShot`, once the list has been seen to start with the cue strike. */
    method ProcessShot(events: seq<Record>, shot: GameShot, chance: Chance) returns (threw: bool)
      requires events != [] && events[0].event.kind.CueStrike?
      requires forall id: BallId :: id < BALLS ==> Find(table.balls, id) < |table.balls|
      modifies this, table
      ensures threw <==> ProcessEight(env, old(View()), events, shot, chance).None?
      ensures !threw ==> Some(View()) == ProcessEight(env, old(View()), events, shot, chance)
    {
      hide JudgeBreak, JudgeShot;
      threw := false;
      match turnType {
        case Break =>
          threw := ProcessBreak(events, chance);
        case Normal =>
          ProcessOther(events, shot);
        case BallInHand =>
          ProcessOther(events, shot);
        case BehindLine =>
          ProcessOther(events, shot);
        case _ =>
          threw := true;
      }
    }

    /** The physics call of `executeShot` and what follows it. */
    method Play(code: Code, shot: GameShot, chance: Chance) returns (outcome: Outcome)
      requires EightInv(View()) && ShotTurn(turnType) && (!code.PlaceCue? ==> OnTable(table.balls, CUE))
      modifies this, table
      ensures Answers(PlayEight(env, FastFiz(env, possible), old(View()), code, shot, chance), outcome, View())
    {
      hide EightInv, FastFiz, Simulate, ProcessEight, Told, Played, Place, OnTable;
      ghost var s := View();
      ghost var w := FastFiz(env, possible);
      FastFizLawful(env, possible);
      if code.PlaceCue? {
        table.SetBall(CUE, shot.cue);
      }
      ghost var aimed := Aimed(s.balls, code, shot);
      assert View() == s.(balls := aimed);
      var shotObject := new Shot(env, possible);
      var played := shotObject.SimulateShot(table, shot.params, true);
      assert played == Simulate(w, aimed, shot.params, true);
      match played {
        case Refused => outcome := Returned(ShotImpossible);
        case Failed(_) => outcome := Returned(ShotImpossible);
        case Raised(_) => outcome := Threw;
        case Finished(sim) =>
          PlayFinished(env, w, s, code, shot, chance);
          PlayedFull(s.(balls := sim.balls), sim.log);
          StrikeLeads(aimed, sim.balls, sim.log);
          var threw := ProcessShot(shotObject.shotEvents, shot, chance);
          outcome := if threw then Threw else Returned(if switchedSides then OkLostTurn else Ok);
      }
    }

    /** `executeShot`. */
    method ExecuteShot(shot: GameShot, chance: Chance) returns (outcome: Outcome)
      requires EightInv(View())
      modifies this, table
      ensures Answers(ExecuteEight(env, FastFiz(env, possible), old(View()), shot, chance), outcome, View())
    {
      hide EightInv, FastFiz, PlayEight, PreEight;
      ghost var s := View();
      ChargedInv(s, shot);
      switchedSides := false;
      if shot.timeSpent != 0.0 && timeLeft != 0.0 {
        timeLeft := timeLeft - shot.timeSpent;
        if timeLeft < 0.0 {
          return Returned(Timeout);
        }
      }
      ghost var charged := s.(game := Charge(s.game, shot));
      assert View() == charged;
      var code, threw := PreProcess(shot, chance);
      if threw {
        return Threw;
      }
      PreEightShoots(env, charged, shot, chance);
      match code {
        case Rejected =>
          outcome := Returned(BadParams);
        case NoExecute =>
          outcome := Returned(if switchedSides then OkLostTurn else Ok);
        case _ =>
          outcome := Play(code, shot, chance);
      }
    }
  }

  lemma RerackAnswer(env: Env, s: Eight, chance: Chance)
    ensures RerackEight(env, s, chance).Prepared? ==> RerackEight(env, s, chance).code.NoExecute?
  {
    hide Racked, EightSpots;
  }

  /** The flags of the event loop. */
  datatype Facts = Facts(
    pocketedLegalBall: bool, railCollision: bool, scratch: bool, eightBallPocketed: bool,
    firstBallCollision: bool, pastHeadString: bool, firstBall: BallId, allSunk: bool)

  /** What they mean after `n` entries. */
  ghost function FactsOf(env: Env, s: Eight, log: seq<Record>, n: nat, shot: GameShot): Facts
    requires n <= |log|
  {
    Facts(LegalBy(s, log, n, shot), RailAfterContact(log, n), PocketedBy(log, n, CUE), PocketedBy(log, n, EIGHT),
          ContactBy(log, n), s.game.turn.BehindLine? && PastHeadString(env, log, n), FirstBall(log, n, CUE), AllSunk(s, log, n))
  }

  /** The cue strike itself tells nothing. */
  lemma ReadStrike(env: Env, s: Eight, log: seq<Record>, shot: GameShot)
    requires log != [] && log[0].event.kind.CueStrike?
    ensures FactsOf(env, s, log, 1, shot) ==
      Facts(false, false, false, false, false, false, CUE, !s.openTable && GroupDown(s.balls, s.solids))
  {
    hide GroupDown;
    assert FirstBall(log, 0, CUE) == CUE;
  }

  /** Whether the head string is passed by the event after which `f` was noted. */
  predicate NowPast(env: Env, s: Eight, r: Record, f: Facts) {
    || f.pastHeadString
    || (s.game.turn.BehindLine? && !f.firstBallCollision && Beyond(env, r))
  }

  predicate NowLegal(s: Eight, e: Event, shot: GameShot, f: Facts) {
    || f.pocketedLegalBall
    || (Called(e, shot) && (InGroup(s.solids, e.ball1) || (s.openTable && InGroup(!s.solids, e.ball1)) || (e.ball1 == EIGHT && f.allSunk)))
  }

  predicate NowDown(was: bool, e: Event, b: BallId) { was || e.ball1 == b }

  predicate StillSunk(s: Eight, e: Event, f: Facts) { f.allSunk && !InGroup(s.solids, e.ball1) }

  /** The flags after one more event. */
  function Noted(env: Env, s: Eight, r: Record, shot: GameShot, f: Facts): Facts {
    var e := r.event;
    var g := f.(pastHeadString := NowPast(env, s, r, f));
    match e.kind
    case Pocketed(_) =>
      g.(pocketedLegalBall := NowLegal(s, e, shot, f), scratch := NowDown(f.scratch, e, CUE),
         eightBallPocketed := NowDown(f.eightBallPocketed, e, EIGHT), allSunk := StillSunk(s, e, f))
    case RailCollision(_) => if f.firstBallCollision then g.(railCollision := true) else g
    case BallCollision(ball2) => if f.firstBallCollision then g else g.(firstBallCollision := true, firstBall := ball2)
    case _ => g
  }

  /** Reading one entry keeps the flags true to the list. */
  lemma ReadOne(env: Env, s: Eight, log: seq<Record>, n: nat, shot: GameShot)
    requires 1 <= n < |log|
    ensures FactsOf(env, s, log, n + 1, shot) == Noted(env, s, log[n], shot, FactsOf(env, s, log, n, shot))
  {
    hide GroupDown, Beyond;
    ReadPocketed(log, n, CUE);
    ReadPocketed(log, n, EIGHT);
    ReadContact(env, log, n);
    ReadLegal(s, log, n, shot);
    hide LegalBy, RailAfterContact, PocketedBy, ContactBy, PastHeadString, FirstBall;
  }

  lemma ReadContact(env: Env, log: seq<Record>, n: nat)
    requires 1 <= n < |log|
    ensures ContactBy(log, n + 1) <==> ContactBy(log, n) || log[n].event.kind.BallCollision?
    ensures RailAfterContact(log, n + 1) <==> RailAfterContact(log, n) || (log[n].event.kind.RailCollision? && ContactBy(log, n))
    ensures PastHeadString(env, log, n + 1) <==>
      PastHeadString(env, log, n) || (!ContactBy(log, n) && Beyond(env, log[n]))
    ensures FirstBall(log, n + 1, CUE) ==
      if !ContactBy(log, n) && log[n].event.kind.BallCollision? then log[n].event.kind.ball2 else FirstBall(log, n, CUE)
  {
  }

  lemma ReadLegal(s: Eight, log: seq<Record>, n: nat, shot: GameShot)
    requires n < |log|
    ensures AllSunk(s, log, n + 1) <==> AllSunk(s, log, n) && !(log[n].event.kind.Pocketed? && InGroup(s.solids, log[n].event.ball1))
    ensures LegalBy(s, log, n + 1, shot) <==> LegalBy(s, log, n, shot) || LegalAt(s, log, n, shot)
  {
    hide GroupDown, LegalAt;
  }

  lemma PlayedFull(s: Eight, log: seq<Record>)
    requires Played(s, log)
    ensures forall id: BallId :: id < BALLS ==> Find(s.balls, id) < |s.balls|
  {
  }
}
