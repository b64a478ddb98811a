# FastFiz and libconfig, verified

A Dafny model of three parts of the repository, with proofs of what they promise.

**The shot simulator.** A shot is a run of a discrete-event scheduler: take the earliest predicted
event, move all balls to its time, push overlapping balls apart, apply the event, delete the queued
events that touch its balls and predict anew for those balls only. `Scheduling` says what the loop
computes over any physics; `SchedulerLaws` says what it needs of the physics; `SchedulerInvariants`,
`ShotStory`, `FirstContact`, `EventLimits`, `IncrementalQueue`, `QueueHistory` and `TieBreaks` prove what
every shot then guarantees. `Kinematics`, `ExactMotion`, `TransitionTimes`, `StateChanges`, `Prediction`,
`ContactTimes`, `Collisions`, `Overlapping`, `Pushes` and `Spotting` are the physics and the table of
FastFiz, `Physics` shows that they obey the laws, `StablePredictions` and `FrozenBall` which of its
predictions survive an update, `Clearance` and `CueGeometry` are the test of the cue stick, and
`TableStates` and `Shots` are the classes that run all of it in place.

**The rules of eight-ball and nine-ball.** `EightBall` and `NineBall` are the turn machines as
functions, `EightBallGames` and `NineBallGames` prove what holds over whole games, `EightBallCalls` and
`NineBallCalls` tell in full what one call does, `Racks` where the balls are racked, and
`EightBallStates` and `NineBallStates` are the classes that change their fields in place and call
the simulator. `HalfPlayed` and `Jams` say what a simulation that breaks off leaves of a game.

**The configuration tree of libconfig.** `ConfigTrees`, `Settings` and `SettingTrees` are the tree of
settings and what each change does to it, `ConfigWriter` and `ConfigParser`/`Parsers` the writer and
the parser at the level of tokens, `TreeBuilding`, `RoundTrip` and `ParserInvariants` their theorems,
`Paths` and `PathWalks` lookup and path printing, `StringLiterals` the text of string values.

## Conventions

- Numbers are reals. Trigonometric functions are any pair with `c*c + s*s == 1`, even and odd in the
  angle; the square root is any non-negative function that vanishes exactly at zero, and exact only
  where a statement says `ExactRoot` or `Exact`; the polynomial solvers return anything. A division
  by zero in a collision yields an arbitrary number.
- "Exact thresholds" means EPSILON and VELOCITY_EPSILON are 0 and the square root is exact; a
  threshold of 0 stands for an exact test. Everything else holds for any non-negative thresholds.
- Theorems about all shots hold for any clearance test of the cue stick; `Clearance` is the one of
  `isPhysicallyPossible`, and the strikes of `Jams` and `FrozenBall` are proved to pass it. Where a
  statement names the default table, cosine and sine have their values at the few angles used.
- Coefficients of friction and the length of the cue are positive.
- Random noise is an arbitrary displacement for each draw.
- A game is a run of calls from a racked constructor in which each call returns, none is made after
  TT_WIN, and each simulation returns normally or is refused before it starts.
- Settings live in an arena and pointers are positions in it. Booleans of the writer are true or
  false; integers are unbounded.

## Findings

- A setting whose name spells true or false in any mix of cases is accepted by
  `config_setting_add` and written, but cannot be read back: the scanner takes the name for a
  boolean. The round trip holds exactly without such names (`RoundTrip.RoundTripIff`).
- A string literal of two segments with a comment between that holds two end marks, `"a"/**/*/"c"`,
  matches the scanner's pattern, but `make_string` ends the comment at the first mark, takes the
  slash of the second for the start of another, and reads past the terminator
  (`StringLiterals.StringOverrun`; exactly when in `DecodesIff`).
- A sliding ball whose velocity passes through zero at the instant of an update is stopped by
  `updateState`, which tests the velocity before the slip; updates over split intervals agree with
  one update exactly when this does not happen (`TransitionTimes.MotionIsFlow`, `DrawStopped`).
- Two balls braked alike, such as two rolling along one line, give a quartic whose leading
  coefficient is zero. `gsl_poly_complex_solve` refuses it and the refusal is read as no collision
  (`ContactTimes.ChaseUnseen`; exactly then, `NoContactMissed`). One then runs into the other until
  the next event, where `fixOverlap` separates them or fails.
- The clearance test turns the frame of the ball the wrong way: it has the tip of the cue at the
  mirror image of the point that the strike meets, for a shot across the table on the far side of the
  cue ball. The two agree exactly if that point lies straight up or down the table from the middle of
  the ball (`Clearance.TipMirrored`).
- A strike off the ball is accepted if one of its offsets is the very radius: the depth of the tip is
  then not a number, and no comparison with it succeeds (`Clearance.MissAccepted`).
- A ball that hits a resting one full stops dead however it spins, because `updateState` tests the
  velocity before the slip: no follow and no draw (`Collisions.FullHitStops`).
- Friction between two balls is reckoned from the velocity of the first ball alone: the velocity of the
  second along the line of centres is commented out. If the first is the one that is caught up with,
  friction adds to the slip between them (`Collisions.CollisionRubs`).
- `FastFiz.h` documents rail damping of 0.6 along and 0.9 towards the rail as parameters of the table;
  the code never reads them and has 0.9 along and 0.6 towards (`Collisions.BounceSlows`).
- A ball on the line of a cushion, such as one frozen to it or just off it, makes `calcEventTime`
  report the present, which is not in the future, and this hides the time at which spin brings the
  ball back (`FrozenBall.ReturnMissed`). Predicted again once it is off the line, the return is found.
- A cushion reached, or a pair touching, at the very time of another ball's event stays in the
  incremental queue and is lost by recomputation, which looks strictly ahead
  (`StablePredictions.TieLost`, `TouchLost`). `BoundaryGoesOn` and `HitGoesOn` say exactly when
  predictions survive `updateTime`.
- `getFirstBallHit` returns UNKNOWN_ID when nothing is hit, where a comment in `FastFiz.h` promises
  the cue ball (`FirstContact.FirstBallHitAgrees`).
- A cue ball that lies exactly against another and is struck straight at it is driven into it: the
  contact at the present is not ahead and is not predicted, and at the end of its slide the two
  overlap too deeply for `fixOverlap` (`Jams.TouchLater`, `Jams.JamStays`).
- SR_SHOT_IMPOSSIBLE does not mean that nothing happened: after such an error in mid-simulation the
  table is left as it was at that moment (`Jams.ImpossibleNotUndone`; exactly when the game can go on,
  `HalfPlayed.InterruptedEight`, `InterruptedNine`).
- The foul of not leaving the area behind the head string is looked for on the wrong side: the cue
  ball has to be placed at or above the line, and the shot passes when an event finds it still above
  (`EightBallGames.BehindLineInverted`).
- The clock of a player whose turn ends is cut to whole seconds, and less than one second becomes 0,
  which is no limit (`Games.LastSecondUnlimited`).
- Eight-ball does not require the winning eight to be called if some ball reaches a rail after the
  first contact (`EightBallGames.EightDecides`).
- In `spotBall` with noise, the square root is taken of a negative number when the obstacle met lies
  more than two radii off the centre line (`Spotting.TryEnds`, `RootOfNegative`); the position is
  then not a number and the search of the model ends there.
- `config_setting_add` puts an element of any type into an array, which the setters of elements and the
  parser keep to one type (`SettingTrees.AddMixes`, `SetElemAppends`).
- `config_setting_set_int64_elem` on an element of type int stores 0 for a number that does not fit, and
  reports success (`SettingTrees.SetElemWrites`).
- `config_lookup` finds a setting for a path that ends in an opening bracket and names no element
  (`PathWalks.LookupIs`, `BracketFindsRoot`).

## Model

| member | source | states |
|---|---|---|
| ShotStory.ShotTold | FastFiz/FastFiz.cpp:1029-1237 | For every lawful physics and every table with unique balls, the cue ball in play and everything at rest: when a full simulation returns normally every ball in play is STATIONARY, each ball in play before is in play after or has exactly one POCKETED event and lies in a pocket, all others are untouched, the list is sorted by time, starts with the only cue strike, mentions no ball after it was pocketed, and up to the first ball collision, which is the cue ball hitting another ball, every entry is about the cue ball |
| SchedulerInvariants.StepInv | FastFiz/FastFiz.cpp:1035-1081 | Over any iteration of the main loop, whatever roots the solvers return: every queued event is not in the past and names balls in play, every moving ball has a state change queued, and the loop fails only because `fixOverlap` could not separate the balls; so neither the sanity check nor the exception about stepping back in time can happen |
| SchedulerInvariants.PredictedFresh | FastFiz/FastFiz.cpp:1753-1805 | Everything `addRelatedFutureEvents` appends lies ahead and names balls in play; predictions for one ball alone concern a ball of the last event |
| SchedulerInvariants.StartInv | FastFiz/FastFiz.cpp:1010-1027 | The queue holding only the cue strike satisfies the invariant on every table a caller may bring |
| SchedulerLaws.HandleEffect | FastFiz/FastFiz.cpp:691-903 | Handling an event writes only the balls it names; a real pocket puts its ball there, anything else leaves balls in play in play |
| SchedulerLaws.AdvanceShifts | FastFiz/FastFiz.cpp:1239-1251 | `updateTime` followed by `fixOverlap` keeps every ball in its slot and, beyond the motion of each ball, changes positions only |
| ShotStory.RunStory | FastFiz/FastFiz.cpp:1029-1229 | The whole story (order, accounting, finality of pocketing, first contact) is kept by every run from any state that satisfies it, up to an empty queue |
| ShotStory.ReactPocketingFinal | FastFiz/FastFiz.cpp:838-848 | Recording one more event never mentions a ball pocketed earlier |
| ShotStory.ReactAccounted | FastFiz/FastFiz.cpp:838-848 | One more iteration keeps each ball either in play or accounted for by exactly one POCKETED event |
| FirstContact.FirstBallHitAgrees | FastFiz/FastFiz.cpp:2576-2578 | Whenever the full simulation returns, the short one does too, its list is the full one cut after the first contact (same types, times and balls), and `getFirstBallHit` returns the object ball the rules will judge, never the cue ball; without contact it returns UNKNOWN_ID |
| FirstContact.RunShort | FastFiz/FastFiz.cpp:1135-1146 | From any state without a contact so far, the run with `fullSim` false ends with a prefix of the full list |
| EventLimits.EndsWithinLimit | FastFiz/FastFiz.cpp:1029-1236 | An allowed shot returns normally if and only if its events come to an end within 4999 iterations, and then records one entry for each |
| EventLimits.FailsBeyondLimit | FastFiz/FastFiz.cpp:1229-1236 | With something still queued after that it fails, and leaves the balls as they are then |
| QueueHistory.QueueIsLatestForecast | FastFiz/FastFiz.cpp:1191-1219 | After any number of iterations the queue holds, for each ball and each ordered pair, exactly the events predicted when one of its balls was last touched; only a hit of the pair that had just collided, within NEAR_FUTURE_EPSILON, is ever left out |
| QueueHistory.MatchesFullRecomputation | FastFiz/FastFiz.cpp:1191-1219 | If predictions survive `updateTime`, the incremental queue equals the ALL_EVENTS queue event for event, with multiplicities, minus exactly such dropped hits |
| IncrementalQueue.QueueOfBall | FastFiz/FastFiz.cpp:1677-1690 | Removing related events and predicting anew replaces the events of a touched ball by its forecast and leaves those of any other ball as they were |
| IncrementalQueue.QueueOfPair | FastFiz/FastFiz.cpp:1781-1794 | The same for the hits of an ordered pair of balls |
| Scheduling.MinIndex | FastFiz/FastFiz.cpp:1033-1035 | The first of the earliest events: nothing is earlier, and everything before it is strictly later |
| TieBreaks.TieBroken | FastFiz/FastFiz.cpp:1753-1805 | Of several events due first, one queued before is taken before any just predicted, and of the latter state changes come before hits and hits before rails and pockets |
| Scheduling.RemoveRelated | FastFiz/FastFiz.cpp:1677-1690 | Keeps exactly the events that share no ball with the last one |
| Shots.Shot.SimulateShot | FastFiz/FastFiz.cpp:980-1237 | Run in place on a table and an event list, the loop computes the specified run: normal return, POOLFIZ_ERROR, a string exception or refusal, and in each case the table and the list it leaves behind |
| Shots.Shot.UpdateTime | FastFiz/FastFiz.cpp:1239-1251 | Moves every ball in place, then separates them; reports a step back in time instead of making it |
| Shots.Shot.Handle | FastFiz/FastFiz.cpp:691-903 | Changes the table in place as the event demands, and leaves a slot for every ball it names |
| Shots.Shot.RemoveRelatedEvents | FastFiz/FastFiz.cpp:1677-1690 | Erasing from the list front to back keeps exactly the unrelated events, in order |
| Shots.Shot.AddRelatedFutureEvents | FastFiz/FastFiz.cpp:1753-1805 | Appends exactly the specified predictions, in the order of the code |
| Shots.Shot.AddRows | FastFiz/FastFiz.cpp:1773-1794 | Its loop over all ordered pairs |
| Shots.Shot.AddHits | FastFiz/FastFiz.cpp:1783-1792 | Its inner loop over the second balls |
| TransitionTimes.TransitionStable | FastFiz/FastFiz.cpp:1807-1844 | With exact thresholds, an update at any time up to the predicted transition leaves the ball in the same state with the very same transition ahead, or in a lower state; at the predicted time the state is strictly lower |
| TransitionTimes.SlidingUntil | FastFiz/FastFiz.cpp:1305-1331 | Slip shrinks at a constant rate along a fixed direction and vanishes exactly at the predicted time, where the ball rolls |
| TransitionTimes.RollingUntil | FastFiz/FastFiz.cpp:1333-1347 | Rolling keeps the slip at zero, slows at a constant rate, and stops exactly at the predicted time |
| TransitionTimes.SpinningUntil | FastFiz/FastFiz.cpp:1299-1303 | Vertical spin decays at a constant rate and is gone exactly at the predicted time |
| TransitionTimes.MotionIsFlow | FastFiz/FastFiz.cpp:1253-1372 | Updating over two intervals equals updating over their sum, up to the predicted transition, if and only if the ball is not a sliding ball whose velocity is exactly zero at the instant in between |
| TransitionTimes.DrawStopped | FastFiz/FastFiz.cpp:345-388 | A concrete draw shot for which updating in two steps stops a ball that one step would send back: the exception above does occur |
| TransitionTimes.UpdateStateExact | FastFiz/FastFiz.cpp:345-388 | With exact thresholds `updateState` classifies by velocity, then slip, then vertical spin, and classifying twice is classifying once |
| ExactMotion.SlideExact | FastFiz/FastFiz.cpp:1305-1331 | The rotated, translated computation of a sliding ball equals the closed form in table coordinates |
| ExactMotion.RollExact | FastFiz/FastFiz.cpp:1333-1347 | The same for a rolling ball |
| ExactMotion.SpinningSplits | FastFiz/FastFiz.cpp:1374-1383 | Decay of vertical spin over two intervals is decay over their sum, with no overshoot |
| StateChanges.RanksFall | FastFiz/FastFiz.cpp:1807-1844 | In any simulation with exact thresholds, a state change fires at exactly the time predicted at the last event of its ball, finds the ball already in a strictly lower state (SLIDING > ROLLING > SPINNING > STATIONARY) than then, and changes nothing more |
| StateChanges.AtMostThreeChanges | FastFiz/FastFiz.cpp:1253-1383 | The number of state changes of a ball since its last contact plus its rank never exceeds three |
| StateChanges.Follows | FastFiz/FastFiz.cpp:1253-1372 | Between two events of a ball, however many updates split that time, the ball stays on its predicted transition |
| Prediction.LeastPositiveRealRoot | FastFiz/FastFiz.cpp:2191-2206 | Returns the least root that is real and beyond the floor, or -1 exactly when there is none |
| Prediction.EventTimeLeast | FastFiz/FastFiz.cpp:2135-2162 | For up to two roots the time reported is that of the smallest root that is not negative, or -1 exactly when there is none |
| Prediction.NextCollisionEvent | FastFiz/FastFiz.cpp:1846-2033 | Names the two balls in order, lies strictly ahead and hits a ball in play; a pair of moving balls is predicted from one side only |
| Prediction.BoundaryAhead | FastFiz/FastFiz.cpp:2035-2131 | Boundary events of a ball lie ahead, concern that ball only, and name a rail or a real pocket; which, says StablePredictions.BoundaryFaces |
| ContactTimes.MeetingMeans | FastFiz/FastFiz.cpp:1909-1925 | With exact thresholds the quartic solved for two moving balls is the squared distance of their centres along the motion of `updateBall`, less four squared radii, at every time |
| ContactTimes.ReachingMeans | FastFiz/FastFiz.cpp:1976-1998 | The same for a moving ball and one that stays |
| ContactTimes.PredictedContact | FastFiz/FastFiz.cpp:1846-2033 | If the roots a solver reports are roots, then at a predicted collision, on the paths of `updateBall`, the two centres are exactly two radii apart, and the contact is ahead, by more than a hundred-millionth of a second if their distance is growing |
| ContactTimes.NoContactMissed | FastFiz/FastFiz.cpp:1846-2033 | If the quartic solver misses no root of a polynomial of degree four and refuses others, a pair that will touch is predicted to collide no later than that if and only if the two balls are not braked alike; otherwise nothing is predicted. Contacts within a hundred-millionth of a second of two balls whose distance is growing do not count |
| ContactTimes.LeadingIs | FastFiz/FastFiz.cpp:1909-1923 | The leading coefficient is zero exactly if the two decelerations are equal |
| ContactTimes.GrowingIs | FastFiz/FastFiz.cpp:1925-1998 | That distance is growing exactly if the linear coefficient of the quartic is positive |
| ContactTimes.StayingDiffers | FastFiz/FastFiz.cpp:1980-1996 | That never happens with a ball that stays where it is |
| ContactTimes.ChaseUnseen | FastFiz/FastFiz.cpp:2164-2189 | Two balls rolling up the middle of the default table, within the cushions, touch after one second, long before either stops, and no collision is predicted, because the solver refuses a zero leading coefficient |
| ContactTimes.CrossingMeans | FastFiz/FastFiz.cpp:2055-2131 | Each of the eight quadratics of rails and pockets is the distance of the ball from its line along the motion of `updateBall` |
| StablePredictions.CalmMatches | FastFiz/FastFiz.cpp:1191-1219 | For FastFiz with exact thresholds and right solvers: while untouched balls keep their state and their pairs and paths are calm in the sense of the two equivalences below, the incremental queue equals the ALL_EVENTS queue event for event, minus exactly the dropped hits |
| StablePredictions.HitGoesOn | FastFiz/FastFiz.cpp:1846-2033 | Predicting a pair again after an update gives what was predicted before, if and only if the contact, if there is one, is still ahead by more than is then overlooked, and none comes to light that was overlooked before; for a quartic solver that refuses zero leading coefficients |
| StablePredictions.BoundaryGoesOn | FastFiz/FastFiz.cpp:2035-2131 | Predicting rails and pockets again after an update gives the same list if and only if, for each line, the path of the ball is not on it up to the update, or runs along it, or starts on a cushion and is on it again just then or never later, or gets to a corner only just then |
| StablePredictions.LineGoesOn | FastFiz/FastFiz.cpp:2135-2162 | The same equivalence for one line and the time predicted for it |
| StablePredictions.NextOnIs | FastFiz/FastFiz.cpp:2066-2131 | The time predicted for a line is the first at which the path of the ball is on it, -1 if it never is or runs along it |
| StablePredictions.BoundaryFaces | FastFiz/FastFiz.cpp:2055-2131 | The event predicted for a line comes when the path of the ball is first on it, and by where it then is: on a long cushion the side pocket exactly within half a pocket width of the middle, the southern rail exactly below and the northern exactly above; on the others their rail or corner pocket |
| StablePredictions.TieLost | FastFiz/FastFiz.cpp:2066-2107 | A cushion reached at the very time of another event was predicted, and predicted again at that time it is not |
| StablePredictions.TouchLost | FastFiz/FastFiz.cpp:1925-1950 | So with a pair that touches at the very time of another event |
| StablePredictions.TransitionGoesOn | FastFiz/FastFiz.cpp:1807-1844 | A ball that stays in its state keeps its predicted transition |
| StablePredictions.PathGoesOn | FastFiz/FastFiz.cpp:1253-1372 | The path of a ball moved on within its state is the rest of the same path, for all later times |
| FrozenBall.ReturnMissed | FastFiz/FastFiz.cpp:1029-1229 | On the default table, with all balls between the cushions, none overlapping, and the cue ball frozen to the south cushion: a strike straight away from it with the cue raised by 69.995 degrees, 0.8354 of a radius low, at any allowed speed, is allowed by the clearance test; after it the ball is on its way back to the cushion within its slide, and no collision with that cushion is queued |
| FrozenBall.DrawAllowed | FastFiz/FastFiz.cpp:2355-2493 | The cue of that strike passes over every such ball and crosses the edge of the table above the rail |
| FrozenBall.ReturnUnseen | FastFiz/FastFiz.cpp:2135-2162 | So with every ball that slides straight away from the cushion line with more than seven times its speed of slip |
| FrozenBall.ReturnSeenLater | FastFiz/FastFiz.cpp:2135-2162 | Predicted a quarter of the way there, the return is found |
| Collisions.CollisionConserves | FastFiz/FastFiz.cpp:695-805 | With exact thresholds and a nonzero contact velocity a ball-ball collision conserves total linear velocity for every contact angle and spin |
| Collisions.CollisionExchanges | FastFiz/FastFiz.cpp:695-805 | In the frame of the angle taken for the line of centres the two balls exchange their velocities along the line; across it friction takes from one exactly what it gives to the other |
| Collisions.CentresExchange | FastFiz/FastFiz.cpp:722-805 | Where that angle is the one of the line from centre to centre, they exchange their velocities along that line on the table |
| Collisions.CollisionRubs | FastFiz/FastFiz.cpp:730-745 | Across the line, friction gives the second ball a hundredth of the velocity of the first along it, in the share that slip across has in the whole slip at the point of contact, written out in velocities, spins and 0.028575: with the slip if the first ball moves towards the second, against it if away; the first loses as much |
| Collisions.CollisionSpins | FastFiz/FastFiz.cpp:747-767 | A ball hit at rest gets spin about the vertical against the slip across and about the axis across with the slip upwards, which the first loses; a travelling one keeps its spin about the vertical, and so does the ball that hits it. Of balls that travel afterwards |
| Collisions.CollisionRolls | FastFiz/FastFiz.cpp:740-805 | After hitting a ball that was itself travelling, neither of the two slides |
| Collisions.FullHitStops | FastFiz/FastFiz.cpp:695-805 | The hitting ball is left without travel exactly if the other has no velocity along the line of centres and friction takes all of its own across it, whatever its follow or draw; so a ball that hits a resting one full, without side, stops dead |
| Collisions.BounceSlows | FastFiz/FastFiz.cpp:807-836 | A cushion keeps nine tenths of the velocity along it, turns back six tenths of that towards it, leaves at most nine tenths of the speed and a tenth of the spin, and stops no ball that moves |
| Collisions.DropIn | FastFiz/FastFiz.cpp:838-848 | A pocketed ball is out of play in that pocket, where it fell, without velocity and spin |
| Collisions.StrikeMoves | FastFiz/FastFiz.cpp:850-892 | A strike at positive speed with the cue not upright sets the cue ball travelling, at a speed that does not depend on its direction |
| Collisions.StrikeLaw | FastFiz/FastFiz.cpp:850-892 | The cue meets the ball on its surface; the impulse makes up for the two masses and for the arm of the push, and gives the ball its level part as velocity and its torque about the middle as spin |
| Overlapping.SeparateApart | FastFiz/FastFiz.cpp:2756-2802 | Separation shifts balls in play only; when it returns normally no two balls in play overlap at epsilon 0, and when it reports an error two of them do |
| Overlapping.SeparateAgain | FastFiz/FastFiz.cpp:2756-2802 | Balls that do not overlap are left alone, so separating twice is separating once |
| Pushes.NudgeSpreads | FastFiz/FastFiz.cpp:2750-2781 | Pushing two overlapping balls apart moves each by the threshold along the line of centres, away from the other, and changes nothing else; it throws exactly if the centres coincide |
| Pushes.PairParts | FastFiz/FastFiz.cpp:2756-2802 | Two balls alone on the table are parted by a number of passes exactly if they overlap by no more than two thresholds a pass; otherwise an error is reported |
| Pushes.PairFixed | FastFiz/FastFiz.cpp:2756-2802 | So `fixOverlap` parts two balls alone on the table exactly if they overlap by at most two hundred thresholds |
| Physics.TraceApart | FastFiz/FastFiz.cpp:1092-1149 | No two balls in play overlap at any recorded event of any simulation: handlers change how balls move, never where they are |
| Physics.FastFizShot | FastFiz/FastFiz.cpp:980-1237 | Everything said of shots holds for FastFiz with any thresholds and any solvers, and no two balls in play overlap at the end of a shot |
| Physics.FastFizLawful | FastFiz/FastFiz.cpp:691-2162 | The physics of FastFiz satisfies the laws the scheduler theorems assume |
| TableStates.TableState.FixOverlap | FastFiz/FastFiz.cpp:2756-2802 | The do-loop on the vector of balls, at most 100 passes, computes the specified separation |
| TableStates.TableState.OnePass | FastFiz/FastFiz.cpp:2762-2781 | One pass over all pairs in place |
| TableStates.TableState.CheckOverlap | FastFiz/FastFiz.cpp:2785-2800 | Tells exactly whether two balls in play overlap |
| TableStates.TableState.IsPhysicallyPossible | FastFiz/FastFiz.cpp:2355-2493 | The clearance test on the vector of balls, with its loops over balls and rails, reports exactly the specified faults |
| TableStates.TableState.FindBlocking | FastFiz/FastFiz.cpp:2414-2432 | Tells exactly whether some ball in play other than the cue ball is in the way of the cue |
| TableStates.TableState.RangeFaults | FastFiz/FastFiz.cpp:2376-2389 | Reports exactly the faults of the parameters alone |
| Clearance.TipMirrored | FastFiz/FastFiz.cpp:2394-2400 | The test has the tip of the cue at the mirror image, across the table, of the point where `CueStrikeEvent` meets the ball, and at that point exactly if it lies straight up or down the table from the middle of the ball |
| Clearance.MissAccepted | FastFiz/FastFiz.cpp:2376-2392 | With exact thresholds a strike that misses the ball passes the test if and only if speed and angles are in range, neither offset exceeds the radius and one of them is the radius itself, whatever is in the way of the cue |
| Clearance.UpAllowed | FastFiz/FastFiz.cpp:2355-2493 | A strike straight up the table, in range, passes the test if no ball is seen along the cue and the south rail is clear |
| Clearance.SteepClear | FastFiz/FastFiz.cpp:2609-2625 | A cue through the middle of the ball that rises over it meets no ball up the table that does not overlap the cue ball |
| Clearance.FlatClear | FastFiz/FastFiz.cpp:2609-2625 | A nearly level one meets no ball two radii or more ahead |
| Clearance.SouthOver | FastFiz/FastFiz.cpp:2440-2452 | A cue that rises at least as steeply as given crosses the south edge above the rail |
| CueGeometry.BallBlocksIs | FastFiz/FastFiz.cpp:2414-2432 | With exact thresholds a ball reported in the way is one that some point of the cue lies in; if neither end of the cue lies in the ball, it is reported exactly then |
| CueGeometry.RailBlocksIs | FastFiz/FastFiz.cpp:2434-2490 | With exact thresholds a rail is reported exactly if the tip is on its inner side, the butt end beyond it, and the cue passes over it no higher than the rail is |
| TableStates.TableState.GetBall | FastFiz/FastFiz.cpp:2289-2298 | The slot of the first ball of that name, which is appended when missing |
| TableStates.TableState.SetBall | FastFiz/FastFiz.cpp:2224-2235 | Puts one ball, new or old, stationary at a point and leaves all others |
| TableStates.TableState.FindOverlap | FastFiz/FastFiz.cpp:2277-2283 | The first other ball within reach, or -1 exactly when there is none |
| TableStates.TableState.SpotBall | FastFiz/FastFiz.cpp:2245-2275 | The loop of tries computes the specified search, including both exceptions |
| Spotting.SpotDescends | FastFiz/FastFiz.cpp:2245-2275 | Without noise a spotted ball stands on the centre line at or below the foot spot and overlaps nothing, every higher position from the foot spot down strictly intersects some ball, and the 100-try exception cannot happen |
| Spotting.SpotClear | FastFiz/FastFiz.cpp:2245-2275 | With any noise a spotted ball overlaps no other ball and no other ball has changed |
| Spotting.PassObstacle | FastFiz/FastFiz.cpp:2253-2269 | Each try goes strictly down past a ball not passed before, through positions that are all taken |
| Spotting.TryEnds | FastFiz/FastFiz.cpp:2251-2269 | A try that meets an obstacle takes the root of a negative number if and only if the obstacle lies more than two radii off the centre line; otherwise the next try touches it from below on that line, moved aside by the noise and never up, or is out of bounds |
| Spotting.AlwaysNumber | FastFiz/FastFiz.cpp:2245-2275 | With draws that move the ball sideways by no more than g, and no ball less than g beyond two radii off the centre line, that never happens |
| Spotting.RootOfNegative | FastFiz/FastFiz.cpp:2254-2256 | That bound is sharp: for every such g a table with one ball and any larger draw up to two radii more meets it |
| Spotting.Place | FastFiz/FastFiz.cpp:2224-2235 | One ball placed, with the velocity and spin it had, the others untouched |
| Games.RackedTable | FastFiz/Rules.cpp:499-532 | After racking every listed ball stands still on the table, whatever was there before and whatever the noise |
| Racks.Triangle | FastFiz/Rules.cpp:499-528 | Eight-ball racks five rows from the foot spot on, the balls numbered row by row from left to right, and the cue ball in the middle of the head string |
| Racks.Diamond | FastFiz/Rules.cpp:717-737 | Nine-ball racks rows of one, two, three, two and one, with the one at the foot spot and the nine in the middle |
| Racks.RackedAt | FastFiz/FastFiz.cpp:2495-2529 | Every listed ball ends at its spot moved by its own draw, and no other ball is added |
| Racks.LatticeStands | FastFiz/FastFiz.cpp:2300-2353 | Balls racked on such a lattice are a valid placement, between the cushions and free of overlap, whatever noise within three standard deviations each of them gets |
| Racks.EightRackStands | FastFiz/FastFiz.cpp:2495-2529 | On the default table neither check of `addNoise` fails for the eight-ball rack: the balls as placed are in a valid placement, and so they are after any such draws |
| Racks.NineRackStands | FastFiz/FastFiz.cpp:2495-2529 | The same for nine-ball |
| Games.LastSecondUnlimited | FastFiz/Rules.cpp:164-171 | A player whose turn ends with less than a second left plays on without a limit: the clock goes through an int, and 0 is no limit |
| Games.OnTableAfter | FastFiz/FastFiz.cpp:838-848 | A ball was on the table before a shot exactly if it is there after it or was pocketed in it, and never both |
| Games.TableAfter | FastFiz/FastFiz.cpp:1029-1237 | A complete shot leaves a full table at rest |
| EightBall.EightStep | FastFiz/Rules.cpp:108-162 | One call of `executeShot` keeps the invariant of eight-ball games and calls the physics only on tables it accepts |
| EightBall.PreEightInv | FastFiz/Rules.cpp:200-272 | Whatever a player decides or asks for keeps the invariant |
| EightBall.EightAnnounced | FastFiz/Rules.h:351-355 | The predicates of the header agree with `preProcess`: the cue ball is placed where a position is required, decisions suffice only where no shot is required |
| EightBall.ShotKeeps | FastFiz/Rules.cpp:343-488 | Judging a shot keeps the cue ball on the table unless the next shot places it, and the eight unless the game is won |
| EightBall.BreakKeeps | FastFiz/Rules.cpp:288-341 | So does judging the break, with the eight spotted when it was pocketed |
| EightBall.NewEightInv | FastFiz/Rules.h:300-304 | The racked constructor establishes the invariant |
| EightBallGames.EightHandshake | FastFiz/Rules.cpp:200-497 | In every state of every game the table holds each ball once, all at rest, the cue ball is in play unless the next shot places it, the eight is in play until the game is won, and every physics call meets the precondition of the simulator |
| EightBallGames.AllSunkBefore | FastFiz/Rules.cpp:358-451 | What the referee takes for all balls sunk, from the table after the shot and its events, holds exactly if the table was closed and the shooter's seven balls were in pockets before the shot |
| EightBallGames.EightDecides | FastFiz/Rules.cpp:343-488 | A shot other than the break ends the game exactly if it pockets the eight, and the shooter wins exactly if the table was closed with the seven balls down before the shot, the cue ball stayed up, the eight was hit first, a rail was reached or the called eight fell as called, and a ball in hand behind the line got past it |
| EightBallGames.BehindLineInverted | FastFiz/Rules.cpp:373-382 | A shot from behind the head string passes the test for leaving that area if and only if after some event up to the first contact the cue ball still lies strictly within it, so hitting a ball there is allowed, and having left it before the first event is a foul |
| EightBallGames.EightVerdicts | FastFiz/Rules.cpp:108-497 | The same for every shot of every game, with the table the shot was played on |
| EightBallCalls.JudgeTold | FastFiz/Rules.cpp:343-488 | What every shot but the break comes to, by the table before it and the events alone: if the eight stays up the player stays exactly if there is no foul and the called ball, of the own group or of either on an open table, fell as called; a foul gives ball in hand, anything else the turn; the groups are dealt exactly then. The foul is spelled out: cue ball pocketed, nothing hit, no ball made and no rail reached after the first contact, the head string left too early, or the wrong ball hit first |
| EightBallCalls.BreakJudged | FastFiz/Rules.cpp:288-341 | What the break comes to: the eight pocketed, the cue ball pocketed, a ball or four rails, or none of these; who then decides or shoots, and that the eight is spotted |
| EightBallCalls.EightCall | FastFiz/Rules.cpp:108-162 | One call of `executeShot` told in full: late, conceding, deciding, asking for what is not allowed, refused by the simulator, or played; with the answer, the clocks, the player at the table, the turn, the groups and the balls |
| EightBallCalls.EightGameCall | FastFiz/Rules.cpp:108-497 | So with every call of every game |
| EightBallGames.EightOwnership | FastFiz/Rules.cpp:108-497 | One call changes who owns which group only by closing the table, by a legally pocketed object ball of the shooter, who stays at the table; SR_OK_LOST_TURN is answered exactly if the player at the table changes |
| EightBallGames.EightGroups | FastFiz/Rules.cpp:194-497 | Over any game the owners change at most at the step that closes the table, and a closed table never reopens |
| EightBallStates.EightBallState.constructor | FastFiz/Rules.h:300-304 | Builds the specified racked state |
| EightBallStates.EightBallState.ExecuteShot | FastFiz/Rules.cpp:108-162 | Played in place, a call gives the specified answer or exception and leaves the specified state |
| EightBallStates.EightBallState.PreProcess | FastFiz/Rules.cpp:200-272 | Changes turn, sides and table in place as specified |
| EightBallStates.EightBallState.ProcessShot | FastFiz/Rules.cpp:274-497 | Chooses the case by the turn |
| EightBallStates.EightBallState.ProcessBreak | FastFiz/Rules.cpp:288-341 | The loop of the break case finds what is true of the whole list, and the case is decided as specified |
| EightBallStates.EightBallState.ProcessOther | FastFiz/Rules.cpp:343-488 | Fouls, the winner, the closing of the table and the next turn are decided as specified |
| EightBallStates.EightBallState.ReadEvents | FastFiz/Rules.cpp:373-451 | The flags after the event loop say what is true of the whole list |
| EightBallStates.EightBallState.GroupIsDown | FastFiz/Rules.cpp:358-371 | Tells exactly whether all seven balls of the group are in pockets |
| EightBallStates.EightBallState.SwitchSides | FastFiz/Rules.cpp:164-198 | Swaps the clocks, one of them through an int, and turns the three flags |
| EightBallStates.EightBallState.Rack | FastFiz/Rules.cpp:499-532 | Sixteen calls of `setBall` and noise |
| NineBall.NineStep | FastFiz/Rules.cpp:108-162 | One call of `executeShot` keeps the invariant of nine-ball games and calls the physics only on tables it accepts |
| NineBall.JudgeKeeps | FastFiz/Rules.cpp:633-715 | Judging a shot keeps both foul counters at most two and the nine on the table unless the game is won, and the cue ball unless the next shot places it |
| NineBall.PreNineKeeps | FastFiz/Rules.cpp:582-631 | Whatever a player decides or asks for keeps the invariant |
| NineBall.NineAnnounced | FastFiz/Rules.h:435-437 | The predicates of the header agree with `preProcess` |
| NineBall.NewNineInv | FastFiz/Rules.h:399-403 | The racked constructor establishes the invariant |
| NineBallGames.NineHandshake | FastFiz/Rules.cpp:582-715 | In every state of every game the table holds each ball once, all at rest, the cue ball is in play unless the next shot places it, the nine is in play and no counter exceeds two until the game is won, and every physics call meets the precondition of the simulator |
| NineBallGames.LowestBefore | FastFiz/Rules.cpp:645-667 | The ball taken for the lowest, from the table after the shot and its events, is the lowest object ball in play before it, NINE if no lower one was |
| NineBallGames.CountersTrail | FastFiz/Rules.cpp:574-715 | Each player's counter is the number of fouls that player has made in a row in the shots played out so far |
| NineBallGames.ThirdFoul | FastFiz/Rules.cpp:683-714 | The opponent wins a shot exactly by the shooter's third foul in a row, the shooter exactly by pocketing the nine without a foul and without a push out; nothing else but a concession ends a game |
| NineBallGames.PushOutOnce | FastFiz/Rules.cpp:592-714 | The phases break, first shot, push out, rest follow one another and none comes back |
| NineBallGames.NineTold | FastFiz/Rules.cpp:108-162 | What one call does to the counters, the winner, the phase and the answer, by the table before the shot |
| NineBallCalls.JudgeTold | FastFiz/Rules.cpp:633-715 | What every shot comes to, by the table before it and the events alone: the player stays exactly if there is no foul, no push out and some object ball fell; the next turn is ball in hand after a foul, else the first shot after the break, the decision after a push out, else normal; the third foul in a row loses and the nine so made wins. The foul is spelled out: cue ball pocketed, or without a push out the lowest ball not hit first, or nothing made and too few rails |
| NineBallCalls.FouledIs | FastFiz/Rules.cpp:683-692 | The fouls counted over a game are these |
| NineBallCalls.NineCall | FastFiz/Rules.cpp:108-162 | One call of `executeShot` told in full: late, conceding, answering a push out, asking for what is not allowed, refused by the simulator, or played |
| NineBallCalls.NineGameCall | FastFiz/Rules.cpp:574-715 | So with every call of every game |
| NineBallStates.NineBallState.constructor | FastFiz/Rules.h:399-403 | Builds the specified racked state |
| NineBallStates.NineBallState.ExecuteShot | FastFiz/Rules.cpp:108-162 | Played in place, a call gives the specified answer or exception and leaves the specified state |
| NineBallStates.NineBallState.PreProcess | FastFiz/Rules.cpp:582-631 | Changes turn and sides in place as specified |
| NineBallStates.NineBallState.ProcessShot | FastFiz/Rules.cpp:633-715 | Counters, sides, spotting and the next turn are decided as specified |
| NineBallStates.NineBallState.ReadEvents | FastFiz/Rules.cpp:654-682 | The notes after the event loop say what is true of the whole list |
| NineBallStates.NineBallState.LowestLeft | FastFiz/Rules.cpp:645-651 | The lowest of balls one to eight left in play, NINE if none |
| NineBallStates.NineBallState.SwitchSides | FastFiz/Rules.cpp:574-580 | Swaps the clocks and the counters and turns the flags |
| NineBallStates.NineBallState.Rack | FastFiz/Rules.cpp:717-740 | Ten calls of `setBall` and noise |
| HalfPlayed.InterruptedEight | FastFiz/Rules.cpp:128-138 | A call of an eight-ball game whose simulation breaks off answers SR_SHOT_IMPOSSIBLE and leaves a state the game can go on from if and only if no ball is moving, no POCKETED event of the eight was recorded, and none of the cue ball unless the next shot places it |
| HalfPlayed.InterruptedNine | FastFiz/Rules.cpp:128-138 | The same of nine-ball |
| HalfPlayed.EightUnplayed | FastFiz/FastFiz.cpp:1092-1149 | If the table handed over cannot be separated the call breaks off before the strike, and the game can go on |
| HalfPlayed.NineUnplayed | FastFiz/FastFiz.cpp:1092-1149 | The same of nine-ball |
| HalfPlayed.BrokenTable | FastFiz/FastFiz.cpp:1229-1237 | A simulation that breaks off leaves every ball in its slot, and on the table exactly those that were and have no POCKETED event |
| Jams.ImpossibleNotUndone | FastFiz/Rules.cpp:128-138 | On the default table, with right solvers and small thresholds, there is a strike the clearance test allows at the eight, the last ball of an eight-ball game, against which the cue ball lies, such that whatever is called the shot answers SR_SHOT_IMPOSSIBLE and leaves the cue ball moving: the invariant of games is broken |
| Jams.NineNotUndone | FastFiz/Rules.cpp:128-138 | The same shot at the nine |
| Jams.DriveAllowed | FastFiz/FastFiz.cpp:2355-2493 | That strike passes the clearance test: the cue stays over the table and the other ball is ahead |
| Jams.TouchLater | FastFiz/FastFiz.cpp:1952-2027 | The contact at the present is not predicted: a root taken for the cue ball and the ball it lies against is one long after the slide, for every solver whose roots, complex ones included, are roots |
| Jams.JamStays | FastFiz/FastFiz.cpp:2756-2802 | Two balls whose centres are one radius apart are not separated by 100 passes: fixOverlap gives up |
| RoundTrip.RoundTripIff | libconfig-1.3/libconfig.c:97-311 | Writing a well-formed configuration of any depth and parsing the result gives it back, names, types, formats, values and order, if and only if no setting in it is named by a word that spells true or false in some mix of cases; otherwise the text is rejected |
| RoundTrip.Members | libconfig-1.3/grammar.c:1446-1462 | The written members of a group, read through the name action and the value actions, are added in order as new settings |
| RoundTrip.Items | libconfig-1.3/grammar.c:1489-1512 | The written elements of a list are appended in order |
| RoundTrip.Elements | libconfig-1.3/grammar.c:1514-1683 | The written elements of an array are appended in order, all of one type |
| RoundTrip.RejectMembers | libconfig-1.3/scanner.l:173-175 | A member named by a boolean word makes the parser reject the text, at whatever depth it stands |
| ParserInvariants.ParserSound | libconfig-1.3/grammar.c:484-495 | On every sequence of tokens the parser accepts or rejects and never follows a null pointer; what it builds for an accepted one has valid, unique names in groups, scalars of one type in arrays, and values of their type |
| ParserInvariants.ParsedAgain | libconfig-1.3/libconfig.c:470-523 | Writing what was parsed and parsing it again changes nothing |
| ParserInvariants.StepKeeps | libconfig-1.3/grammar.c:1444-1708 | Every step keeps `ctx->parent` and `ctx->setting` where the expected symbols need them |
| ConfigParser.StepShrinks | libconfig-1.3/grammar.c:484-495 | Every step reads a token or lightens the stack, so parsing ends |
| Parsers.Parser.Parse | libconfig-1.3/libconfig.c:470-492 | The loop over stack and tokens, with actions that change the configuration in place, computes the specified parse |
| Parsers.Parser.NameRule | libconfig-1.3/grammar.c:1446-1462 | Adds the named setting and points `ctx->setting` to it, or gives up |
| Parsers.Parser.OpenRule | libconfig-1.3/grammar.c:1464-1512 | Opens an array, list or group as a new element or in the setting just named |
| Parsers.Parser.CloseRule | libconfig-1.3/grammar.c:1702-1708 | Returns to the parent |
| Parsers.Parser.ScalarRule | libconfig-1.3/grammar.c:1514-1683 | Sets the named setting or appends an element, with its format |
| TreeBuilding.FillFacts | libconfig-1.3/grammar.c:1444-1708 | Giving a new setting a value leaves exactly the tree of that value below it and touches nothing before it |
| TreeBuilding.GraftAllFacts | libconfig-1.3/libconfig.c:597-624 | Appending settings one after another appends their trees to those of the parent |
| ConfigWriter.Writer.Write | libconfig-1.3/libconfig.c:520-523 | The writer puts out exactly the tokens of the tree the settings stand for |
| ConfigWriter.Writer.WriteSetting | libconfig-1.3/libconfig.c:496-516 | Name, equals sign, value and end mark, each where the code puts it |
| ConfigWriter.Writer.WriteValue | libconfig-1.3/libconfig.c:97-311 | The value of a setting by its type; groups below the root in braces |
| ConfigWriter.Writer.WriteItems | libconfig-1.3/libconfig.c:218-272 | Elements with commas between them |
| ConfigWriter.Writer.WriteMembers | libconfig-1.3/libconfig.c:288-295 | Members one after another |
| Settings.AddSound | libconfig-1.3/libconfig.c:1221-1243 | Adding keeps names valid and unique among siblings and elements nameless, and fails exactly if the parent takes no children or the name is invalid or taken |
| SettingTrees.AddAppends | libconfig-1.3/libconfig.c:1221-1243 | Adding appends one empty tree, of that name in a group; it is found by its name, every other name finds what it found, and no other setting changes |
| SettingTrees.AddMixes | libconfig-1.3/libconfig.c:1221-1243 | It puts an element of any type into an array, so that the array keeps to one type exactly if the type asked for is its own |
| SettingTrees.RemoveKeeps | libconfig-1.3/libconfig.c:1247-1266 | Removing succeeds exactly if a member of a group bears the name; then the name is free, every other name finds what it found in this group and in all others, and the children are those before without that one |
| SettingTrees.UnlinkTrees | libconfig-1.3/libconfig.c:357-368 | The trees below the parent are those before without the one removed, in their order, and no tree the parent does not lie in changes |
| SettingTrees.RemoveElemKeeps | libconfig-1.3/libconfig.c:1270-1285 | The elements before the one removed keep their index, those after it move down by one, and no other setting loses any |
| SettingTrees.SetElemAppends | libconfig-1.3/libconfig.c:964-1159 | With a negative index an element setter appends that leaf, and succeeds exactly on lists, empty arrays, and arrays whose first element is of that type |
| SettingTrees.SetElemWrites | libconfig-1.3/libconfig.c:964-1159 | With another index it writes the leaf that is there and nothing else, and succeeds exactly if there is one that takes the value; a 64-bit number that does not fit an int is written as 0 |
| Settings.SetElemSound | libconfig-1.3/libconfig.c:964-1159 | The element setters keep the configuration sound |
| Settings.MemberIff | libconfig-1.3/libconfig.c:1181-1188 | A valid name is found exactly if a child bears it |
| Settings.Config.SettingAdd | libconfig-1.3/libconfig.c:1221-1243 | In place, as specified |
| Settings.Config.SettingCreate | libconfig-1.3/libconfig.c:597-624 | In place, as specified: the new setting is the last child |
| Settings.Config.SettingRemove | libconfig-1.3/libconfig.c:1247-1266 | In place, as specified |
| Settings.Config.SettingRemoveElem | libconfig-1.3/libconfig.c:1270-1285 | Unlinks the element at an index, if there is one |
| Settings.Config.SettingSetElem | libconfig-1.3/libconfig.c:964-1159 | In place, as specified, for integers of both sizes, booleans and strings |
| Settings.Config.VectorCheckType | libconfig-1.3/libconfig.c:426-445 | Empty vectors and lists take anything, arrays what their first element is |
| Settings.Config.ListSearch | libconfig-1.3/libconfig.c:330-355 | The first child that answers to the name |
| ConfigTrees.NameCompare | libconfig-1.3/libconfig.c:71-93 | Zero exactly if the two texts have the same first path component, else -1 or 1 as the first or the second comes before the other |
| ConfigTrees.ValidateName | libconfig-1.3/libconfig.c:449-466 | True exactly for the names of the scanner's pattern |
| Paths.LookupInverts | libconfig-1.3/libconfig.c:868-896 | Looking up the printed path of any setting of a sound configuration returns that very setting |
| Paths.PartFound | libconfig-1.3/libconfig.c:877-893 | One component of a path leads from a setting to its child, by name or by index |
| PathWalks.LookupIs | libconfig-1.3/libconfig.c:868-896 | For any path: the setting found is the one its parts lead to from the root, each by the name of a member or, in brackets, by the index of an element, and none if some part leads nowhere; the one exception is a path ending in an opening bracket where there is no first element, which finds the setting before it |
| PathWalks.PartsOf | libconfig-1.3/libconfig.c:875-892 | Every text can be read as parts between separators |
| PathWalks.AtoiReads | libconfig-1.3/libconfig.c:881-882 | What stands for `atoi` reads blanks, a sign and the decimal number that follows, and 0 where none does |
| PathWalks.BracketFindsRoot | libconfig-1.3/libconfig.c:881-895 | In an empty configuration an opening bracket alone finds the root |
| Paths.DecimalRead | libconfig-1.3/libconfig.c:881-882 | A printed index is read back |
| Paths.Lookup | libconfig-1.3/libconfig.c:868-896 | The loop over the path computes the specified lookup |
| Paths.PrintPath | libconfig-1.3/samples/c/sample3.c:15-36 | Prints the specified path, with a dot exactly below non-root settings |
| Paths.Index | libconfig-1.3/libconfig.c:1289-1307 | The position of a setting among its siblings |
| StringLiterals.MakeString | libconfig-1.3/scanner.c:650-730 | The decoder, in place on the character buffer, leaves the denoted string and its terminator where the text was, the write cursor never passing the read cursor, or tells that the read cursor passes the terminator, exactly as the specified decoding does |
| StringLiterals.DecodeInPlace | libconfig-1.3/scanner.c:659-725 | Its main loop, likewise |
| StringLiterals.SkipGap | libconfig-1.3/scanner.c:693-720 | Finds the opening quote of the next segment past blanks and comments, or runs into the terminator |
| StringLiterals.DecodesIff | libconfig-1.3/scanner.c:659-725 | A text is decoded if and only if, read character by character by what the decoder takes for segments, gaps and comments, it ends within a segment; otherwise the decoder runs off it |
| StringLiterals.DecodeRight | libconfig-1.3/scanner.l:149-150 | A string of the scanner whose block comments stop at their first end mark is decoded to what its segments denote |
| StringLiterals.StringOverrun | libconfig-1.3/scanner.l:149-150 | A string of the scanner, two segments with a comment holding two end marks between, that the decoder runs off |
| StringLiterals.DecodeEscaped | libconfig-1.3/scanner.c:650-730 | Decoding what the writer escaped gives the string back |
| StringLiterals.EscapeIsSegment | libconfig-1.3/scanner.l:149-150 | What the writer escapes is one segment of the scanner's pattern, free of terminators |
| StringLiterals.WriteString | libconfig-1.3/libconfig.c:175-216 | The loop puts out the quoted, escaped text |
| StringLiterals.ReadBack | libconfig-1.3/libconfig.c:175-216 | Writing any NUL-free string and decoding the text in place gives that string |

## Left out

- Numerical accuracy: rounding, the solvers' own algorithms, and what happens after an arithmetic
  result that is not a number (`Spotting` ends the search there and games exclude it).
- The search of `addNoise` and `randomize` for a valid placement: a rack is either given its noise or
  fails. `Racks` says when no search is needed.
- Copies of balls in events other than the first ball's; logging, serialisation, VERBOSE output.
- `handleEvent`, `addFutureEvents` and the other commented-out or unused earlier versions.
- Games that call `executeShot` again after an exception, after TT_WIN, or after a simulation that
  broke off.
- Floats in configurations (written with ten digits), automatic conversion, integers outside the
  range of `atoi`, null strings and names, hooks, destructors, files, line numbers.
- The flex automaton and the LALR tables: the grammar is the rule table itself, parsed by expected
  symbols; texts are sequences of tokens. Freed settings stay in the arena unlinked.
- C++ wrappers, bindings, AI players, clients and user interface.
- SchedulerInvariants.StepInv: holds with the `errors` flag of `simulateShot` off, as it is by default;
  with it on (`CHECK_ERRORS`, FastFiz/FastFiz.cpp:1122-1125 and 1158-1161) the loop fails also where
  `isValidBallPlacement` objects.
- QueueHistory.MatchesFullRecomputation: assumes that predictions survive `updateTime`; for FastFiz
  StablePredictions.CalmMatches says when they do, given solvers that are right.
- Prediction.NextCollisionEvent: is asked of moving first balls only, as its caller does.
- RoundTrip.RoundTripIff: leaves out that the Bison parser gives up beyond YYMAXDEPTH (10000) stack
  entries, so that trees nested some thousands deep are written but not read back.
- ParserInvariants.ParserSound: likewise.
- StringLiterals.DecodeRight: holds one way; a text whose comments hold further end marks may also be
  decoded to something, which need not be what the scanner's pattern takes for its segments.
- TableStates.TableState.SetBall: places balls in the state STATIONARY, as all its callers here do.
- TableStates.TableState.FindOverlap: is asked of balls on the table, as its caller does.
- EightBallStates.EightBallState.Rack: is given what `addNoise` draws, not its search for a valid
  placement.
- NineBallStates.NineBallState.Rack: likewise.
- EightBallStates.EightBallState.ProcessShot: starts after the test of the first event, which
  ShotStory.ShotTold shows to be the cue strike.
- NineBallStates.NineBallState.ProcessShot: likewise.
- Settings.Config.SettingAdd: is not asked to add a nameless child to a group.
