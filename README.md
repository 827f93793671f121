# Work-work timing engine in Dafny

This project models the game engine of a small browser game, held in `index.js`.
The player holds a key, a touch or a mouse button to keep a character (YH) working.
A supervisor (Leader) rises, peeps at the desk, lowers and stays absent, over and over.
The round is lost if the supervisor peeps while the character relaxes.
The longer the player survives, the faster the supervisor rises.

The model has seven modules: one of arithmetic facts and one per component of the engine.

- `Arith`: facts of real and integer arithmetic used by the timing proofs.
- `Animation`: the sprite frame an actor shows after `t` ms in a state. Frames play forward or in reverse over a frame window.
- `Chance`: `getRandomNum(min, max)`. The value of `Math.random()` is passed in as `u`, a real in [0, 1).
- `Scaling`: `updateDifficuty(hour)`, a clamped linear formula per parameter, and the hour bucket `floor(runningTime / 2000)`.
- `Worker`: the character (`YH`, states Relax, Work and Cry).
- `Supervisor`: the supervisor (`Leader`, states Rise, Peep, Lower, Absent and Mad).
- `Game`: the session controller (`Runner`, statuses Intro, Play and Summary). It covers the per-frame tick, the loss rule, presses and releases, and the guard that keeps at most one frame request outstanding.

The three objects of the source become classes: `Worker.YH`, `Supervisor.Leader` and `Game.Runner`.
Their fields are updated in place, as in the source.
Each class gives its abstract value through `Model()`, a datatype value.
Each method's `ensures` ties the new value to a pure function of the old one: `Worker.Advance`, `Supervisor.Advance`, `Supervisor.Enter`, `Game.Tick`, `Game.Press` and `Game.Release`.
The timing properties are lemmas about those functions.

Time is a Dafny `real`, so exact and rational.
`Math.floor` is `.Floor`; for the non-negative times involved, JavaScript's `%` agrees with Dafny's.
The host clock is an argument `now` of `Runner.Update`; the random draw is an argument `u`.

Points where the model follows the code rather than the description of the game:

- Peep and absent durations use the literal bounds [800, 1000] and [500, 2500] (index.js:518, 531). The four bounds that `updateDifficuty` recomputes (`minPeepTime` … `maxAbsentTime`) are stored but never read. So only the rise and lower duration depends on the hour.
- A new supervisor starts with `maxAbsentTime` 2000 (index.js:425), while the formula gives 1200 for hour 0. The value is never read.
- A negative delta is not clamped by the code. The model instead requires the host clock not to go backwards.
- The running time is reset on every accepted press from the intro as well as from the summary.
- Peeping does not set a playback direction. It keeps the one rising left, which is forward (`Supervisor.PeepPlaysForward`, preserved by `Supervisor.AdvanceKeepsConsistent`). A new supervisor's direction is undefined in the source, and so false; it is first used only after a rise.
- The first tick, and any tick whose recorded time is 0, sees a delta of 0 (`now - (time || now)`).

## Model

| member | source | states |
|---|---|---|
| `Animation.FrameIndex` | index.js:465-473 | the frame `floor(t/msPerFrame) mod span`, counted forward from frameStart or back from frameEnd, always lies in [frameStart, frameEnd]; before one frame time has passed it is the first frame of the direction |
| `Animation.ReverseMirrorsForward` | index.js:465-473 | the reverse formula gives the mirror image, within the window, of the forward one |
| `Animation.FrameIndexPeriodic` | index.js:357-359 | after any whole number of passes (span × msPerFrame ms each) the same frame is shown again |
| `Chance.GetRandomNum` | index.js:499-501 | `floor(u*(max-min+1)) + min` is an integer in [min, max] for every u in [0, 1) |
| `Chance.GetRandomNumCovers` | index.js:499-501 | every integer of [min, max] is produced by some u in [0, 1) |
| `Chance.GetRandomNumMonotone` | index.js:499-501 | a larger u never gives a smaller number |
| `Scaling.Defaults` | index.js:421-425 | a new supervisor starts with riseTime 3000/7 and maxAbsentTime 2000 |
| `Scaling.ForHour` | index.js:549-556 | riseTime lies in [1000/7, 3000/7], the peep bounds in [800, 1000] and [1000, 1200], the absent bounds in [200, 500] and [1000, 1200], each lower bound below its upper bound |
| `Scaling.ForHourMonotone` | index.js:549-556 | a later hour never lengthens the rise, never lowers a peep bound and never raises an absent bound |
| `Scaling.ForHourSaturates` | index.js:549-556 | from hour 40 on every parameter sits at its clamp (1000/7, 1000, 1200, 200, 1000) |
| `Scaling.ForHourRiseStep` | index.js:551 | below hour 40 each hour shortens the rise by 50/7 ms |
| `Scaling.HourOf` | index.js:178 | the hour bucket h satisfies 2000·h ≤ runningTime < 2000·(h+1) |
| `Scaling.HourOfMonotone` | index.js:178 | a longer running time never falls in an earlier hour |
| `Worker.WindowOf` | index.js:384-400 | every character status has a well-formed frame window (Relax [0,4], Work [5,8], Cry [9,11]) |
| `Worker.Entered` | index.js:381-383 | setting a status resets the timer to 0 |
| `Worker.Advance` | index.js:349-354 | an update adds delta to the timer; the status changes iff it is Work and the timer strictly exceeds 1500, and then it becomes Relax with timer 0; Relax and Cry never change |
| `Worker.Frame` | index.js:357-359 | the character's frame lies in its status' window |
| `Worker.MoodNeedsRest` | index.js:406-409 | a character in the mood to work is not working and has rested strictly more than 100 ms |
| `Worker.InTheMood` | index.js:406-409 | a press is accepted iff the character is not working and its timer is strictly above the threshold of its status (100 ms relaxing, 3000 ms crying) |
| `Worker.RunAtRest` | index.js:349-354 | over any sequence of updates a relaxing or crying character keeps its status and accumulates every delta |
| `Worker.RunWorkWithin` | index.js:349-354 | over updates whose total keeps the work timer at most 1500, work goes on and the timer is the total |
| `Worker.RunWorkEnds` | index.js:349-354 | work ends, with the timer reset, on exactly the update that first takes the total strictly past 1500 |
| `Worker.MoodAfterEntering` | index.js:406-409 | after entering Relax (Cry), a press is accepted iff strictly more than 100 (3000) ms have been accumulated there; exactly 100 (3000) is refused |
| `Worker.RelaxFrameAt2000` | index.js:385-388 | 2000 ms into relaxing the character shows frame 4 |
| `Worker.YH.constructor` | index.js:326-334 | a new character relaxes with timer 0 |
| `Worker.YH.SetStatus` | index.js:381-401 | enters the status, resets the timer and installs the status' window |
| `Worker.YH.Update` | index.js:349-376 | performs `Advance` in place and returns the frame drawn, inside the window |
| `Worker.YH.InTheMoodToWork` | index.js:406-409 | on the object's own fields: a press is accepted iff the character is not working and its timer is strictly above the threshold of its status |
| `Supervisor.Next` | index.js:446-459 | outside Mad the next status of the cycle is a different status and never Mad |
| `Supervisor.Exceeded` | index.js:445 | a defined duration is exceeded exactly when the timer is strictly past it; the mad supervisor's missing duration (NaN in the source) is never exceeded |
| `Supervisor.NextCycle` | index.js:446-459 | Peep follows exactly Rise, and four steps of Rise→Peep→Lower→Absent→Rise return to the start |
| `Supervisor.WindowOf` | index.js:510-541 | Peep [3,4] and Mad [5,7] windows are well formed; Rise and Lower use [0,2] with msPerFrame = duration/3; an absent supervisor has no window |
| `Supervisor.Enter` | index.js:506-544 | setting a status resets the timer; Rise and Lower last the current riseTime; Peep lasts a whole number of ms in [800, 1000] and Absent one in [500, 2500]; only Mad lasts forever; Peep and Absent keep the playback direction |
| `Supervisor.EnterConsistent` | index.js:506-544 | entering any status leaves a consistent supervisor (timer, window, duration and direction agree) |
| `Supervisor.Advance` | index.js:443-460 | an update adds delta to the timer; outside Mad, a timer strictly past the duration moves exactly one step along the cycle with a fresh timer, otherwise nothing but the timer changes; Mad never changes |
| `Supervisor.AdvanceKeepsConsistent` | index.js:443-460 | updates keep the supervisor consistent and keep peeping in the forward direction |
| `Supervisor.Frame` | index.js:463-473 | a present supervisor's frame lies in [0,2] while rising or lowering, [3,4] while peeping and [5,7] when mad |
| `Supervisor.Rescaled` | index.js:549-556 | the parameters become those of the hour; the running status keeps its duration, window and direction |
| `Supervisor.RescaledIdempotent` | index.js:549-556 | recomputing the parameters for the same hour twice is the same as once |
| `Supervisor.Initial` | index.js:416-426 | a new supervisor is absent, not playing forward, with the starting parameters, and consistent |
| `Supervisor.Leader.constructor` | index.js:416-426 | builds the initial supervisor, drawing the absent duration before the parameters are set |
| `Supervisor.Leader.SetStatus` | index.js:506-544 | performs `Enter` in place |
| `Supervisor.Leader.Update` | index.js:443-491 | performs `Advance` in place; the supervisor is drawn iff it is not absent, with the frame of `Frame` |
| `Supervisor.Leader.UpdateDifficulty` | index.js:549-556 | performs `Rescaled` in place |
| `Game.Initial` | index.js:22-110 | a new session (constructor, lines 22-43) after `init` has set the intro status (lines 106-110): time and running time 0, the character relaxing and the supervisor absent |
| `Game.InitialInvariant` | index.js:22-43 | the new session satisfies the session invariant |
| `Game.Delta` | index.js:152-154 | a tick's delta is 0 when no time was recorded and now − time otherwise |
| `Game.RunningTimeAfter` | index.js:158-160 | for a non-negative delta the running time grows by at most the delta, and it changes only in play |
| `Game.WorkerAfter` | index.js:166 | after its update the character's timer is non-negative, a working character is at most 1500 ms into work, and the status is kept or is Relax with timer 0 |
| `Game.LeaderAfter` | index.js:167-169 | during the intro the supervisor is left as it was; otherwise it keeps its status or takes the next one of the cycle; its timer stays non-negative |
| `Game.Caught` | index.js:171-172 | only a relaxing character (neither working nor crying) can be caught, and only by a peeping supervisor (not rising, lowering, absent or mad) |
| `Game.Tick` | index.js:150-193 | a tick leaves non-negative timers and records now as the time |
| `Game.TickInvariant` | index.js:158-179 | ticks keep the invariant: the character cries exactly in the summary, exactly when the supervisor is mad; the intro has the character relaxing and the supervisor absent; work never exceeds 1500 ms |
| `Game.TickLoss` | index.js:171-179 | a tick ends the round iff, after both updates, the character relaxes and the supervisor peeps; then the status was play, the character cries, the supervisor is mad and the difficulty is not updated; otherwise the status is kept and the difficulty is that of the hour reached |
| `Game.NoLossWhileWorking` | index.js:171-172 | a character that is still working after its update is never caught |
| `Game.TickRunningTime` | index.js:153-160 | the running time grows by the delta in play only; the first tick adds nothing |
| `Game.IntroFreezesLeader` | index.js:167-169 | during the intro the supervisor stays absent and its timer does not move |
| `Game.Press` | index.js:204-217 | a press is ignored unless the character is in the mood; otherwise the character works with timer 0 and the status is play; from the intro or the summary the supervisor is set absent and the running time to 0; in play both are kept |
| `Game.PressInvariant` | index.js:205-217 | presses keep the session invariant |
| `Game.PressTwice` | index.js:205-217 | a second press right after a press changes nothing |
| `Game.RestartAfterCrying` | index.js:205-214 | in the summary a press starts a new round iff the character has cried strictly more than 3000 ms |
| `Game.Release` | index.js:265-268 | a release sets a working character to relax with timer 0 and changes nothing otherwise |
| `Game.ReleaseInvariant` | index.js:265-268 | releases keep the session invariant |
| `Game.HoldPastMaxWork` | index.js:204-217 | from the intro, a press starts play; one 1600 ms tick later the character relaxes on its own, the running time is 1600, the round is not lost and the release is a no-op |
| `Game.Runner.constructor` | index.js:22-110 | builds the session of the constructor (lines 22-43) as `init` leaves it, in the intro (lines 106-110), with no frame requested |
| `Game.Runner.ScheduleNextUpdate` | index.js:295-300 | afterwards exactly one frame request is outstanding, whether or not one already was |
| `Game.Runner.Update` | index.js:150-193 | performs `Tick` in place, keeping the invariant, and leaves exactly one frame request outstanding |
| `Game.Runner.UpdateActors` | index.js:166-169 | updates the character, and the supervisor outside the intro |
| `Game.Runner.CheckLoss` | index.js:171-179 | applies the loss rule or the difficulty update so that the session is the one `Tick` specifies |
| `Game.Runner.OnKeyDown` | index.js:199-218 | performs `Press` in place; the frame request is untouched |
| `Game.Runner.OnKeyUp` | index.js:264-268 | performs `Release` in place |

## Left out

- Drawing: clearing the canvas, the background, the sprite rectangles and `drawImage` (index.js:157, 163, 361-375, 475-489). The model computes the frame index and nothing more.
- The clock hand (`updateClock`, index.js:302-319): drawing only, with floating-point `Math.sin` and `Math.cos`.
- The status text and its countdown (`innerHTML`, `Math.round`, index.js:180-189): display only.
- Image loading and the readiness count (`loadImages`, `checkLoadStatus`, `updateLoadStatus`, index.js:76-104): DOM event plumbing. The constructor models the runner once `init` has set the intro status.
- Event wiring and normalisation (`startListening`, `handleEvent`, the key code 87 test, touch and mouse events, `preventDefault`, index.js:113-148, 199-204, 265). They become the two entry points `OnKeyDown` and `OnKeyUp`.
- The host time source and scheduler (`getTimeStamp`, `performance.now`, `requestAnimationFrame`, index.js:14-16, 298). Time is the argument `now`. A frame request is a ghost counter of requests not yet delivered.
- `Math.random()`: replaced by the argument `u` in [0, 1). No distribution is modelled.
- The `Runner.instance_` singleton and the DOM lookups of the constructor (index.js:22-43).
- The `playing` flag: it is set once to true and never cleared, so the guard at index.js:155 always holds and is not modelled.
- IEEE double arithmetic: 1000/7, 3000/7 and the frame divisions are exact reals here. At a frame boundary the double-precision result can fall on the other side of an integer.
- `Game.Tick`: requires the host clock not to go backwards (`now >= time` once a time is recorded). The code does not clamp a negative delta, and that case is not modelled.
