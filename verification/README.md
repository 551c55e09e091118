# FlappyBingus: a verified model

This project models the logic of FlappyBingus - a browser game with a fixed simulation step, seeded randomness,
recorded runs and a small headless engine - in Dafny, and proves what its design promises about whole runs.
`dafny verify dfyconfig.toml` checks all of it.

Numbers are exact: JavaScript numbers are reals or integers, times in milliseconds are integers where the clock gives
integers. In the game, randomness, the difficulty curve and the outcome of every draw are arbitrary, so a statement holds
for all of them.

## How it is laid out

* **Record and replay.** `RandomPrograms` takes the game for an arbitrary deterministic program that may draw random
  numbers, run against a tape recorder, a tape player or a seeded generator. `GameTicks` is one simulation tick on either
  of the two paths that apply one; `LiveRecording` is the accumulator loop with its recording side and the picture that
  ends every frame; `TickFold` and `Playback` are the ticks applied with a schedule of pictures in between and the three
  schedulers over them. `Hearing` says what the game hears in a live run, from the events alone, and `FrameTime` how many
  ticks its frames pay for. `Fidelity` and `ReplayManager` are the theorems that a replay walks through the live states,
  `LateFrames` and `IntroLatch` the exact conditions for its end and for drawing pictures at other moments.
* **A run of the game.** `Game` is the run state machine, a class whose methods update its fields in the order of the
  source. What it keeps between ticks is one invariant: the score ledger (`Streaks`), the account of pipes (`Pipes`,
  `Census`), the story of the gaps (`GapHistory`), the promises of the spawn scheduler (`Spawning`). `RunModel` holds the
  values and the rules without state, `Stocks` what plans bring to the field, `PlayerMotion`, `PerfectGaps` and `Geometry`
  the rules of movement and contact, `Motion`, `GapJudging` and `SkillSettings` what these rules come to over many ticks and
  in the terms of a player, `Lists` what in-place loops do to lists. The fields marked as history exist for the
  specification only.
* **The engine.** `Kernel` (commands, abilities, physics, bounds, clock), `EventLog` (the log and the animation adapter),
  `SnapshotBuffer`, `FixedStepLoop`, `Rng`.
* **Around the game.** `Achievements`, `RateLimiter`, `Keybinds`.

## What came out

Some promises hold only under a condition. The code is modelled as it is, and the condition is proved:

* Drawing a picture can change the game. The pipe colour evaluates the difficulty, and the first evaluation at which the
  score has reached `introScore` notes the time, which shapes every later spawn. A replay with pictures where the live run
  drew them is always exact; the drivers draw them elsewhere. Every such replay agrees with the live run if and only if
  `introScore` is not positive or the run never reached it; past it, a replay agrees if and only if, wherever the time was
  still to be noted, it draws a picture before the next tick just if the live run did.
* `markEnded` waits for the network. If it lands on a run that is already being played and a frame advances that run, draws
  are made that no recorded tick repeats; a replay uses the tape up exactly if and only if there is no such frame.
* The driver keeps the old cursor coordinate where a recorded one is NaN or infinite, the replay code copies it; both keep
  it where one is missing. Without a flag the driver keeps the old one, the replay code clears it.
* A client may make 2 × limit - 1 calls within one window length, never more.
* An unlock with a timestamp below 1 is lost when the state is next normalized.
* The progress meter and the unlock check differ for a broken-pipe target of at most 0 when the statistic is missing.
* Pushing a player out of a pipe works from outside; for a centre inside, the penetration is measured to the wrong side,
  and the push clears exactly if the slack makes up for it.
* A player who moves more than half a gate's thickness in one tick - by a teleport, for instance - can pass it unseen.
* The marker pipe of a special wall never leaves the field and is only ever removed by a blast, a dash or a cap.
* The menu clears the buckets but keeps the score, so there the ledger balances if and only if the score is 0; it holds
  from the start of a run.
* A fractional buffer or log size keeps as many entries as the next whole number.
* Two different triggers can share one tracking key in the animation adapter, and then the second has no animation.
* The kernel's speed limit holds for all runs exactly if gravity is not negative.
* Rebinding keeps distinct bindings distinct; loading stored ones does exactly if the usable ones have tokens of their own
  and none of a binding that is kept.

## Model

| member | source | states |
|---|---|---|
| RandomPrograms.Exec | public/js/util.js:21-31 | Running any program against the tape recorder always completes, keeps the generator and only appends to the tape. |
| RandomPrograms.ExecMirrors | public/js/util.js:21-42 | Whatever the recorder served a program, a tape player or a fresh seeded generator standing at the same place serves again: same result, same number of draws, no underrun. |
| TickFold.StoppedAbsorbs | public/js/game.js:1735-1749 | Once a replay has thrown or the game is over, the remaining ticks change nothing, whatever pictures were drawn before. |
| TickFold.EveryScheduleIff | public/js/game.js:2018-2032 | For any game and any ticks: where pictures are drawn never shows in a state, at any tick, exactly if no picture changes a state on the way. |
| GameTicks.ApplyActions | engine/gameDriver.js:78-93 | Applying a list of actions to a recorded game never throws, keeps the movement input and only extends the tape. |
| GameTicks.CursorPathsAgree | engine/gameDriver.js:85-91 | The driver and the direct replay path set the same cursor, wherever it was before, exactly when no coordinate is NaN or infinite and the flag is given; a missing coordinate is kept by both. |
| GameTicks.CursorIs | engine/gameDriver.js:85-91 | A finite coordinate given is taken and a missing one kept, on both paths; where they differ, each keeps or takes its own way. |
| GameTicks.PathsAgree | public/js/replayUtils.js:21-45 | On such cursors it does not matter whether a tick is applied by the driver or by the replay code itself. |
| GameTicks.IdleActions | public/js/game.js:404-407 | Outside PLAY the actions of a tick move the cursor, and neither the game nor the random source. |
| GameTicks.ReplayFreezes | public/js/game.js:1735-1749 | OVER is absorbing for replayed ticks, on either path. |
| LiveRecording.LiveLoop.QueueAction | public/js/replayManager.js:138-141 | A press is queued, with the cursor of that moment, only while the run is recorded. |
| LiveRecording.LiveLoop.DrainPendingActions | public/js/replayManager.js:143-146 | Drains the whole queue in order; an ended run yields nothing. |
| LiveRecording.LiveLoop.RecordTick | public/js/replayManager.js:152-162 | Appends one tick with movement, cursor and actions unless the run has ended. |
| LiveRecording.LiveLoop.MarkEnded | public/js/replayManager.js:164-168 | Marks the run ended and changes nothing else, so that from then on nothing is queued or recorded. |
| LiveRecording.LiveLoop.DriverStep | engine/gameDriver.js:95-114 | The loop over the actions, then the update, is one run of the tick program against the current random source. |
| LiveRecording.LiveLoop.TickOnce | public/js/main.js:2220-2283 | One pass of the live loop refines the value-level tick: drain, record, step, subtract the step, drop the queue on game over. What that means for presses is in Hearing.RunHeard. |
| LiveRecording.LiveLoop.FrameCallback | public/js/main.js:2209-2291 | The accumulator loop of a frame and the picture at its end refine the recursive drain followed by one picture, for every frame time. |
| Hearing.ActionHeard | engine/gameDriver.js:78-93 | In PLAY an action with an id runs the game’s skill of that id with that action’s cursor; one without an id does nothing. |
| Hearing.RunHeard | public/js/main.js:2220-2291 | For every game whose skills play on, and any events before the run is marked ended: every press made in PLAY reaches the game, once, in order and with the cursor of its moment, before the update of the next tick; every tick is one update of 1/480 s with the input of its moment; every frame ends with one picture; and the recorded ticks say the same. |
| Hearing.PressesDelivered | public/js/replayManager.js:138-162 | The recorded actions followed by the queue are exactly the presses made in PLAY, each once, in order and with its cursor. |
| Hearing.EndedIsDeaf | public/js/replayManager.js:138-168 | After the run is marked ended no press is queued, recorded or heard, and what waited is kept or dropped as a whole. |
| Hearing.SpyingChangesNothing | public/js/main.js:2209-2291 | Writing the calls down changes nothing in a run, so all this holds of the run itself. |
| FrameTime.TicksPaidFor | public/js/main.js:2209-2288 | While a run is played and recorded, ticks recorded plus time kept are the time its frames were given - none for a clock that ran back, a twentieth of a second at most - and less than a tick is kept. |
| Fidelity.TickMirrors | public/js/replayUtils.js:21-45 | A live tick and its replay against the mirrored source end in the same game state with the sources still mirrored. |
| Fidelity.ReplayFidelity | public/js/replayManager.js:116-162 | For every game program, seed stream and history of frames, pointer moves and presses with finite cursors: replaying any prefix of the recorded ticks from startRun, with pictures where the live run drew them, gives exactly the live state after that tick, from the tape or from the seed, with exactly as many draws made. |
| Fidelity.TapeIsStream | public/js/util.js:21-31 | The tape of any run is the beginning of the seeded stream. |
| Fidelity.AnyScheduleIff | public/js/replayUtils.js:47-196 | A replay is in the live state after every tick whatever pictures it draws, exactly if no picture changes a state the live run had after a tick. |
| LateFrames.TapeExactlyExhausted | public/js/replayUtils.js:198-202 | For every game: if no frame owed a tick to a run that was marked ended and still in PLAY, the whole replay ends in the live state with the tape used up to its last number. |
| LateFrames.TapeExhaustedIff | public/js/replayManager.js:152-168 | For every game whose ticks in PLAY draw, or move a clock that pictures leave alone: it ends so if and only if there was no such frame. |
| LateFrames.EarlyFinishLeavesTape | public/js/replayManager.js:164-168 | Such frames do happen: a mark that lands while a run is being played leaves draws on the tape that no recorded tick makes. |
| IntroLatch.TwoSchedulesDiffer | public/js/game.js:532-540 | In any run of a game with the intro latch that comes to a state where the offset is due, a picture there and no picture from there on end in different states, or the tape runs out. |
| IntroLatch.QuietIff | public/js/game.js:532-537 | No picture changes a state of a run exactly if introScore is not positive or the score stays below it. |
| IntroLatch.FaithfulAnyhowIff | public/js/game.js:532-540 | So for every game with the latch and every run: a replay is in the live state after every tick, wherever it draws its pictures, if and only if introScore is not positive or was not reached. |
| IntroLatch.EndsAlikeIff | public/js/game.js:532-540 | And for a run without late frames every replay ends where the live run ended, the tape used up, under exactly the same condition. |
| IntroLatch.FollowsIff | public/js/game.js:532-540 | For one schedule of pictures: the replay is in the live state after each of the first n ticks if and only if, before each of them at which the offset was due, it draws a picture just if the live run drew one. |
| IntroLatch.ToySchedulesDiffer | public/js/game.js:2018-2032 | A concrete game with the latch, one tick, two schedules of pictures, two ends. |
| Playback.FinishedIsWhole | public/js/replayUtils.js:47-130 | A driver that stopped after the last tick, on game over or on an error holds what going through all ticks with its pictures gives. |
| Playback.SchedulersAgree | public/js/replayUtils.js:47-196 | If no picture changes a state on the way, whatever has finished - either driver or the controller - holds the fold of all ticks, so all agree. |
| Playback.PlaybackTicksDeterministic | public/js/replayUtils.js:47-130 | Goes through all ticks; draws one picture exactly after the ticks on the cadence, and after the last applied tick when renderFinal is set. |
| Playback.CadenceIsNearest | public/js/replayUtils.js:63-66 | Left to itself the cadence is the number of ticks nearest to a sixtieth of a second, and at least one. |
| Playback.ElapsedIsSpan | public/js/replayUtils.js:165-177 | Over frames at most a tenth of a second apart the time elapsed is the time they span and a sixtieth. |
| Playback.PlayFrame | public/js/replayUtils.js:179-195 | A frame applies the ticks paid for, in order, conserving accumulator plus applied ticks, and then draws one picture unless a tick threw. |
| Playback.ApplyDueTicks | public/js/replayUtils.js:160-190 | The inner loop applies whole ticks in order, and accumulator plus applied ticks is conserved. |
| Playback.PlaybackTicks | public/js/replayUtils.js:132-196 | For any frame times, each tick is applied once and in order: one per frame in capture mode, otherwise never more than the elapsed frame time pays for and, while it runs, no fewer; it ends with the first frame that pays for the last tick. Every consumed frame draws one picture, and the last picture shows the last tick. |
| Playback.PlaybackController.StepOnce | public/js/replayBrowserPlayer.js:128-143 | Applies exactly the next tick and draws a picture of it, unless at the end or an error. |
| Playback.PlaybackController.FrameLoop | public/js/replayBrowserPlayer.js:145-168 | With any number of callbacks pending: a paused callback changes nothing; a playing one applies exactly the ticks paid for by (ts - last) / 1000 × speed - nothing on the first frame or when the clock ran back - books the rest, draws one picture, and asks for one more frame unless at the end. |
| Playback.PlaybackController.PlayStretch | public/js/replayBrowserPlayer.js:145-168 | Over any stretch of frames at one speed, ticks applied plus time kept are the time spanned times the speed, and less than a tick is kept. |
| Playback.PlaybackController.SetSpeed | public/js/replayBrowserPlayer.js:202-206 | The speed is the value within 0.25 and 3, and 1 without one. |
| Playback.PlaybackController.Play | public/js/replayBrowserPlayer.js:170-178 | Playing twice adds no second callback; playing from the end restarts. |
| Playback.PlaybackController.Restart | public/js/replayBrowserPlayer.js:118-126 | Starts over on top of the current random source, which is not rewound. |
| Playback.PlaybackController.Watch | public/js/replayBrowserPlayer.js:118-206 | Any interleaving of play, pause, single steps, speeds and pending frames: until play is pressed at the end it is one pass, the game having gone from its start through the ticks before tickIndex, each once and in order. |
| ReplayManager.Play | public/js/replayManager.js:174-290 | Watching a finished run, in every mode: what is shown has gone through a prefix of the recorded ticks, each once and in order, from the start of the run; the deterministic mode through all of them. |
| ReplayManager.QuietRunIsWatched | public/js/replayManager.js:174-290 | If no picture changes a state of the run, no such playback throws, it shows the live state after every tick, and one that has finished shows - without late frames - the live end state with every draw repeated. |
| ReplayManager.BelowIntroIsWatched | public/js/replayManager.js:174-290 | For a game with the intro latch that is so for every run in which introScore was not reached. |
| ReplayManager.PlaybackFollowsIff | public/js/replayManager.js:174-290 | That condition for the pictures of any playback of a finished run. |
| ReplayManager.DeterministicFollowsIff | public/js/replayUtils.js:47-130 | For the deterministic playback: if and only if, wherever the offset was due, the live run drew a picture just after every eighth tick. |
| Game.Game.ResetRun | public/js/game.js:409-461 | A run starts with all books clear, no intro offset and every invariant below in force; the score is cleared only when asked. |
| Game.Game.StartRun | public/js/game.js:395-398 | Establishes the invariant of a run. |
| Game.Game.SetStateMenu | public/js/game.js:390-393 | Going to the menu clears everything but the score; the ledger, and with it the whole invariant, holds there exactly if the score is 0. |
| Game.Game.Difficulty01 | public/js/game.js:532-553 | An evaluation notes the time as the end of the intro exactly when the score has reached introScore and none is noted; its value is 0 in the intro and then the curve over what came after it. |
| Game.Game.Render | public/js/game.js:2018-2062 | A picture changes nothing but the offset of the intro, and that exactly when it is due. |
| Game.Game.PickOrb | public/js/game.js:1919-1935 | Combo, best combo, bucket, counter, timer and score after one orb; the ledger still balances. |
| Game.Game.BreakCombo | public/js/game.js:824-829 | The combo ends and a new streak begins in the ledger. |
| Game.Game.RecordPipeScore | public/js/game.js:274-277 | One dodged pipe in counter, bucket and score; the ledger still balances. |
| Game.Game.AwardPerfect | public/js/perfectGaps.js:84-109 | The gate is perfected once, the streak grows by one and pays for its new length, and the gap entry is marked. |
| Game.Game.OnGapPipeRemoved | public/js/game.js:839-852 | The entry of the gap after a pipe went, and that the streak ends exactly when the last pipe of an unbroken, missed gap goes. |
| Game.Game.OnGapGateRemoved | public/js/game.js:854-862 | The entry goes with the gate, and the streak ends exactly if the gap was neither perfected nor broken. |
| Game.Game.BreakPipe | public/js/game.js:996-1002 | Shattering a pipe moves it from the list to the broken ones, marks its gap, and never ends the perfect streak. |
| Game.Game.ShatterPipe | public/js/game.js:996-1002 | The search by identity: done exactly if the pipe is on the list, and then that very pipe is gone and no other. |
| Game.Game.DestroyPipesInRadius | public/js/game.js:1088-1097 | The backwards loop removes exactly the pipes that touch the circle, keeps the others in order, and the blast record is at most the number of pipes broken. |
| Game.Game.PushAll | public/js/pipes/pipeSpawner.js:51-53 | New pipes are appended in order with the next identities. |
| Game.Game.SpawnWall | public/js/pipes/pipeSpawner.js:111-128 | A wall opens a new gap: its pipes and gate carry the new number, and it gets an entry counting its pipes exactly if it has any. |
| Game.Game.TrimPipes | public/js/game.js:593-594 | A splice from the front keeps the newest pipes; the others are accounted for as dropped. |
| Game.Game.ExecutePlan | public/js/game.js:777-798 | A plan spawns nothing without room, and otherwise exactly its pipes and gate, the oldest pipes making way for the new. |
| Game.Game.RegisterPlanWarnings | public/js/game.js:711-725 | The warnings of a plan, in order, all for the same moment. |
| Game.Game.MaybeSchedulePipeWarning | public/js/game.js:755-764 | A plan becomes pending exactly when its spawn is within the lead time, and is announced for the moment its timer runs out. |
| Game.Game.MaybeScheduleSpecialWarning | public/js/game.js:766-775 | The same for special patterns. |
| Game.Game.SpawnPipe | public/js/game.js:1800-1804 | One round of the spawn loop keeps the promises, the pace and the books, and lengthens the timer by at least the shortest interval. |
| Game.Game.SpawnPipes | public/js/game.js:1797-1805 | The spawn loop ends for every tick length and every difficulty; after it nothing regular is due, and one plan was carried out per interval used. |
| Game.Game.SpawnSpecial | public/js/game.js:1808-1818 | A special pattern is carried out exactly in a tick whose timer has run out, the pending one if there is one; then the next cadence begins. The promises hold. |
| Game.Game.SpawnOrbs | public/js/game.js:1821-1829 | An orb appears exactly when its wait has run out and there is room on screen, and then the next wait begins. |
| Game.Game.CleanupWarnings | public/js/game.js:800-808 | Exactly the warnings whose moment has come are dropped. |
| Game.Game.SettleWarnings | public/js/game.js:1831 | At the end of the spawn phase the warnings on show are, as a multiset, those of the plans still pending. |
| Game.Game.SpawnPhase | public/js/game.js:1796-1831 | All spawns of a tick: pipes, gates, entries and numbers are a function of what was there and the plans carried out, the regular ones and then the special one; orbs and warnings settle. |
| Game.SpawnsOnlyAdd | public/js/game.js:1796-1831 | So the pipes in the middle of a tick are the newest of those that were there, untouched and in order, then new ones numbered on; no gate and no entry of before changes, and new ones belong to new gaps. |
| Stocks.PlansOnlyAdd | public/js/game.js:777-798 | The same for any list of plans and any spawn budget. |
| Stocks.GroupBrings | public/js/pipes/pipeSpawner.js:51-53 | A group brings the pipes of its parts, in order, as planned and without a gap. |
| Stocks.WallBrings | public/js/pipes/pipeSpawner.js:111-128 | A wall brings its pipes as planned, all of the new gap, after a motionless marker if it is a special one. |
| Game.Game.ResolveGapPerfect | public/js/perfectGaps.js:48-111 | The flags of the gate, the streak and the award for one gate and one tick. |
| Game.Game.JudgeGates | public/js/game.js:1850-1896 | Every gate is judged by its own gap and the player’s sweep, whatever was awarded before it in the same tick; the streak grows by the number of awards. |
| Game.Game.MovePipes | public/js/game.js:1906-1911 | Every pipe moves by its own velocity, slowed exactly if it touches the slow field; no pipe is lost. |
| Game.Game.UpdateOrbs | public/js/game.js:1914-1917 | Moving and dropping in one backwards loop leaves exactly the moved orbs that are still alive, in order. |
| Game.Game.PickUpOrbs | public/js/game.js:1920-1951 | Exactly the orbs within reach are taken, and the combo grows by their number. |
| Game.Game.RunDownCombo | public/js/game.js:1953-1964 | Without a new orb the combo runs down and breaks exactly when its time is up; afterwards combo > 0 exactly if the timer is running. |
| Game.Game.HandlePipeCollision | public/js/game.js:1099-1118 | Destroyed, reflected or fatal: which of them, and the player, the pipes and the mode after each. |
| Game.Game.Collide | public/js/game.js:1967-1983 | The first pipe that touches a vulnerable player decides; without a touch nothing changes. |
| Game.Game.RemoveDodged | public/js/game.js:1988-1996 | A pipe that has left is scored once, leaves its gap and goes. |
| Game.Game.RemoveOffPipes | public/js/game.js:1986-1998 | Exactly the pipes off the field go, each counted as dodged. |
| Game.Game.RemoveOffGates | public/js/game.js:1999-2005 | Exactly the gates off the field go, with their entries. |
| Game.Game.AdvanceTimers | public/js/game.js:1751-1770 | Clock, cooldowns and slow field, and the player’s movement against the walls: one who does not bounce is at the point of the field nearest to old position + velocity × dt. |
| Game.Game.Update | public/js/game.js:1735-2015 | One whole tick keeps the invariant, and its outcome phase by phase: what is on the field after the spawns is what the plans carried out make of what was there; it moves, gates are judged and orbs taken along the player’s sweep, the first touch decides, and unless it is fatal what left the field goes and the cap holds; without a dash the player is at the point of the field nearest to where its velocity leads, and with one too unless a wall or a bounce is in the way; orb timer, combo and specials follow their rules. Outside PLAY nothing changes. |
| Game.Game.UseTeleport | public/js/game.js:1207-1265 | Without a cursor nothing happens; otherwise the player lands inside the field and an exploding teleport destroys exactly the pipes it touches. |
| Game.Game.UseSlowField | public/js/game.js:1346-1393 | The field left behind, or the blast and the pipes it destroys. |
| Game.Game.UseSkill | public/js/game.js:1174-1287 | A cooling skill does nothing; a used one starts its cooldown, is counted once, and affects the pipes exactly by its blast. |
| Game.Game.HandleAction | public/js/game.js:404-407 | Skills only act in PLAY and never touch score, combo or perfect streak. |
| Game.Game.Session | public/js/game.js:395-407 | Any sequence of starts, menu visits, skills, pictures and ticks of any positive length keeps the books in order. |
| Game.ScoreLaw | public/js/game.js:249-287 | In every state of a run with whole settings: score = combo sums of the orb streaks + bonus × triangular numbers of the perfect streaks + price × pipes dodged, bucket by bucket, and bucket counts equal the counters; a price that is not whole is rounded down, a negative one is 0. |
| Game.MenuLedgerIff | public/js/game.js:390-393 | With the books cleared, as in the menu, the ledger balances if and only if no score is left over. |
| Game.PipeLaw | public/js/game.js:996-1031 | In every state of a run: live + dodged + broken + dropped = pipes ever made, no pipe has two fates, and the largest blast is at most the number broken. |
| Game.GapLaw | public/js/game.js:839-862 | In every state of a run: a gap ends the streak at most once and never after it was perfected or broken, is awarded at most once, and its removal ends the streak exactly if it was missed and whole. |
| Game.SpawnLaw | public/js/game.js:1797-1805 | In every state of a run: the number n of regular spawns by time T satisfies T/max < n ≤ T/min + 1, whatever the ticks and the difficulty. |
| Game.IntroLaw | public/js/game.js:532-559 | While the score has not reached introScore: every interval used is the clamped first setting t, and the number n of regular spawns after T seconds is exactly the one with (n - 1) t ≤ T < n t. |
| Game.PromiseLaw | public/js/game.js:755-764 | In every state of a run with warnings on: the i-th regular spawn was the i-th plan announced, at the first tick that reached the announced moment; a pending plan is announced for timeAlive + pipeT. |
| RunModel.ComboWindow | public/js/game.js:818-822 | The combo window lies between 5 and 10 seconds, is 10 for the first orb and 5 from the fortieth on. |
| RunModel.WindowShrinks | public/js/game.js:818-822 | In between it shrinks by a thirty-ninth of five seconds with each orb. |
| RunModel.DifficultyCounts | public/js/game.js:532-553 | Without an intro the difficulty counts time and score from the start, after one from where it ended, within 0 and 1. |
| RunModel.IntroEnds | public/js/game.js:532-540 | The intro ends once, at the first evaluation with enough score, and that moment is kept. |
| RunModel.SpawnInterval | public/js/game.js:555-559 | Every interval lies between the configured bounds. |
| RunModel.IntervalByDifficulty | public/js/game.js:555-559 | The interval is the clamped start at difficulty 0 and the clamped end at 1, straight in between where the bounds allow, and never grows with the difficulty if start ≥ end. |
| RunModel.MarkerNeverLeaves | public/js/game.js:639-645 | The marker pipe of a special wall stands just inside the margin and is never removed as having left. |
| RunModel.BalancedOrb | public/js/game.js:264-282 | The ledger balances after an orb at the next combo length. |
| RunModel.BalancedPerfect | public/js/game.js:269-287 | The ledger balances after a perfect at the next streak length. |
| RunModel.JudgedNext | public/js/game.js:1850-1870 | Awards given earlier in the same tick do not change the verdict on a later gate. |
| RunModel.ConsistentPipe | public/js/game.js:839-852 | The entries keep mirroring the history of the gaps when a pipe goes. |
| RunModel.ConsistentGate | public/js/game.js:854-862 | The same when a gate goes. |
| RunModel.ConsistentOpen | public/js/pipes/pipeSpawner.js:111-128 | The same when a wall is spawned. |
| RunModel.StreaksAfter | public/js/game.js:831-862 | What the removal of a pipe or gate does to the list of streaks. |
| Census.CensusRemoved | public/js/game.js:996-1002 | Taking a pipe off the list for one fate keeps every pipe accounted for. |
| Census.CensusTrimmed | public/js/game.js:593-594 | So does a splice from the front. |
| Census.CensusNew | public/js/pipes/pipeSpawner.js:51-53 | So does appending new pipes. |
| Census.GapsRemoved | public/js/game.js:839-852 | An entry keeps counting the pipes of its gap, those dropped by a cap included. |
| Census.GapsNewWall | public/js/pipes/pipeSpawner.js:111-128 | A new entry counts the pipes of its wall. |
| Pipes.CountsAddUp | public/js/game.js:588-595 | Accounted pipes add up: live + dodged + broken + dropped = made. |
| Pipes.OneFateEach | public/js/game.js:1985-2013 | No pipe has two fates, and a pipe on the list has none. |
| Pipes.DistinctIds | public/js/game.js:996-1002 | No pipe is on the list twice. |
| Streaks.PerfectPointsAreTriangular | public/js/perfectGaps.js:84-101 | With a whole bonus, the perfects bucket is the bonus times the triangular numbers of the streak lengths. |
| Streaks.OrbPointsAreComboSums | public/js/mechanics.js:3-7 | With whole settings, the orbs bucket is the combo sums of the combo lengths. |
| Streaks.PipePriceIs | public/js/game.js:1992 | A whole price is paid as it is, any other positive one rounded down, a negative one not at all. |
| Streaks.OrbPointsAreRounded | public/js/mechanics.js:3-7 | For any settings an orb pays base + bonus × (n - 1), rounded to the nearest, halves up. |
| Streaks.PerfectPointsAreFloored | public/js/perfectGaps.js:84-101 | For any bonus the n-th perfect in a row pays n × bonus, rounded down. |
| GapHistory.ResetOnceAndNeverAfter | public/js/game.js:839-862 | In a well-told history no gap ends the streak twice, or after being perfected or broken. |
| GapHistory.ResetIffMissed | public/js/game.js:839-862 | A gap’s removal ends the streak exactly if no earlier event perfected or broke it. |
| GapHistory.AwardedOnce | public/js/perfectGaps.js:51-53 | No gap is awarded twice. |
| Spawning.PromiseMade | public/js/game.js:755-764 | A plan announced becomes the one outstanding promise. |
| Spawning.PromiseHonoured | public/js/game.js:1801-1803 | Carrying out the pending plan when its timer has run out honours the promise, at the first tick that could. |
| Spawning.ShownLater | public/js/game.js:800-808 | As time passes, exactly the warnings not overtaken remain those of pending plans. |
| Spawning.ShownPromised | public/js/game.js:711-725 | Announcing a plan adds exactly its warnings. |
| Spawning.AnnouncedIff | public/js/game.js:711-725 | A plan is announced by exactly the signs its parts or its wall show, each for the moment of its spawn. |
| Spawning.SpawnCountBounds | public/js/game.js:1797-1805 | The two-sided bound on the number of spawns, from the sum of the intervals. |
| PerfectGaps.SweptPerpIsNearest | public/js/perfectGaps.js:69-78 | The measured point is on the player’s sweep and no point of the sweep is nearer to the centre of the gap. |
| PerfectGaps.PerfectIffSweepMeetsWindow | public/js/perfectGaps.js:60-79 | A crossing is perfect exactly when some point of the sweep lies within the window. |
| PerfectGaps.NoTunnelling | public/js/perfectGaps.js:60-64 | A player who changes sides of a gate in strides of at most half its thickness is seen crossing in some tick, however the gate moves. |
| PerfectGaps.LongStrideTunnels | public/js/perfectGaps.js:60-64 | Half the thickness is the limit: for every longer stride there is a passage no tick sees. |
| GapJudging.CrossedIff | public/js/perfectGaps.js:62-66 | A gate is crossed exactly if the player is within half its thickness of some place it passed in the tick. |
| GapJudging.WindowIs | public/js/perfectGaps.js:6-16 | The window is the scaled half of the gap, at least 3, and a tenth on top. |
| GapJudging.JudgedIff | public/js/game.js:1850-1870 | Which gates are cleared, perfected and awarded: whole, crossed along their own axis, and threaded across it. |
| GapJudging.MovedThenJudged | public/js/game.js:1850-1896 | Each gate of a tick moves first and is then judged, if perfects are to be had at all; none goes. |
| GapJudging.AwardedIff | public/js/game.js:1850-1896 | Awarded are exactly the gaps of the gates that earn it. |
| PlayerMotion.WallHitIffOutside | public/js/game.js:1431-1443 | A wall is met exactly where clamping would move the player. |
| PlayerMotion.WalkedStays | public/js/game.js:1395-1462 | The player’s own tick keeps it in the field and within the allowed number of bounces. |
| PlayerMotion.AtIsNearest | public/js/game.js:1445-1462 | The point of the field the player is put to is the nearest to where it was heading, and that place itself when it is in the field. |
| PlayerMotion.WalkedTo | public/js/game.js:1395-1462 | A player who does not bounce is at the point of the field nearest to old position + velocity × dt; without a dash, or while invulnerable, there is no bounce. |
| PlayerMotion.WalkedBounce | public/js/game.js:1431-1462 | A bounce throws the player back from the first wall in the way by as much as it was beyond it and the slack. |
| PlayerMotion.TickTo | public/js/game.js:1395-1462 | The same for walls and pipes together. |
| PlayerMotion.ReflectedStays | public/js/game.js:946-975 | So does a reflection. |
| PlayerMotion.ReflectedTo | public/js/game.js:946-975 | A reflection pushes the player off the side of the pipe its centre is furthest beyond, by that distance, its radius and the slack, to the nearest point of the field. |
| PlayerMotion.ReflectionClears | public/js/game.js:970-972 | A reflection that the walls do not interfere with leaves a player whose centre was outside the pipe clear of it. |
| PlayerMotion.FirstTouchIs | public/js/game.js:1970-1972 | The touch that decides is the first on the list. |
| PlayerMotion.TouchDecides | public/js/game.js:1099-1118 | On the first touch a destroying dash removes that pipe alone and is spent, and a dash with bounces left is reflected off it. |
| Geometry.InfoAgrees | public/js/util.js:91-138 | The two collision functions report the same hits, and every hit has one of the four axis directions as its normal. |
| Geometry.HitIs | public/js/util.js:98-138 | The side the centre is furthest beyond, or least short of, gives normal, contact point and penetration. |
| Geometry.PushClearsExactly | public/js/game.js:970-972 | Pushing along the normal by penetration plus slack clears the rectangle exactly if the centre was outside, or the slack exceeds what a centre inside still lacks. |
| Motion.CircleRectIff | public/js/util.js:91-96 | A circle touches a rectangle exactly if some point of the rectangle is no further from its centre than its radius. |
| Motion.CircleCircleOnAxis | public/js/util.js:140-143 | On a common axis two circles touch exactly if their centres are no further apart than both radii together. |
| Motion.ReadyAgain | public/js/mechanics.js:18-24 | Over any ticks a skill is ready again exactly when they add up to its cooldown. |
| Motion.FieldFades | public/js/game.js:1758-1761 | Over any ticks a slow field stays as it is until its time has run out, and is gone from then on. |
| Motion.PipeGlides | public/js/entities.js:28-38 | Over any ticks a pipe glides on a straight line at its own speed times its factor. |
| Motion.EnteredIff | public/js/entities.js:32-37 | It has entered exactly if it was in the field after one of the ticks, or had before. |
| Motion.SlowedIff | public/js/game.js:1906-1911 | A pipe is slowed exactly if some point of it lies in the slow field. |
| Motion.GoneIff | public/js/entities.js:40-42 | A pipe has left exactly if no point of it lies in the field widened by the margin. |
| Motion.GateGlides | public/js/entities.js:53-61 | Over any ticks a gate glides too, and remembers where it was before the last one. |
| Motion.OrbLives | public/js/entities.js:76-86 | Over any ticks an orb stays in the field, keeps its speed along both axes and lives exactly as long as it was given. |
| Motion.OrbTakenIff | public/js/game.js:1914-1924 | Of the orbs that have moved, exactly those are left that still live and are out of the player’s reach. |
| Motion.ComboOfTick | public/js/game.js:1919-1964 | The combo grows by the orbs taken; without one it ends exactly when its time is up. |
| Motion.StaysIff | public/js/game.js:1985-2005 | Exactly the pipes and gates off the field, margin and all, are removed as having left. |
| SkillSettings.TouchMeans | public/js/game.js:1099-1118 | What a touch means for each state of dash, bounces and invulnerability. |
| SkillSettings.BlastSpares | public/js/game.js:1088-1097 | A blast spares exactly the pipes it does not touch. |
| SkillSettings.UseCounted | public/js/game.js:1280-1286 | A use is counted once, for its own skill. |
| SkillSettings.BlastCounted | public/js/game.js:289-299 | A blast adds the pipes it broke and is the record if it broke more than any before. |
| SnapshotBuffer.SnapshotBuffer.Add | engine/snapshotBuffer.js:5-12 | Push, stable sort and trim insert the entry in place and keep the newest, up to the capacity rounded up; a time that is not finite is rejected. |
| SnapshotBuffer.SnapshotBuffer.Run | engine/snapshotBuffer.js:5-17 | After any additions, rejected ones included, and clears, the buffer holds exactly the additions since the last clear that rank last by time and arrival, in that order. |
| SnapshotBuffer.SnapshotBuffer.Sample | engine/snapshotBuffer.js:22-48 | The entry at or before the time, the nearest end outside, and interpolation only between the bracketing neighbours with a fraction strictly between 0 and 1. |
| SnapshotBuffer.FractionIsWeight | engine/snapshotBuffer.js:42-45 | The fraction handed to interpolate is the weight at which the two times give the time asked for. |
| SnapshotBuffer.SnapshotBuffer.Latest | engine/snapshotBuffer.js:19 | Of everything added since the last clear, the latest in time and the last to arrive of those; none exactly if nothing was added. |
| SnapshotBuffer.SnapshotBuffer.Earliest | engine/snapshotBuffer.js:20 | Of everything added since the last clear, ranked by time and arrival, the first that is not crowded out by those behind it. |
| SnapshotBuffer.TrimCommutes | engine/snapshotBuffer.js:7-11 | Trimming before or after an addition comes to the same. |
| SnapshotBuffer.BufferIsTail | engine/snapshotBuffer.js:5-12 | After any additions the buffer is the tail of the stable sort of all of them. |
| SnapshotBuffer.BufferHoldsLatest | engine/snapshotBuffer.js:5-12 | The buffer of any list of additions holds exactly those that rank last by time and arrival, in that order. |
| SnapshotBuffer.ArrivalOrderIrrelevant | engine/snapshotBuffer.js:5-12 | With distinct times the contents do not depend on the order of arrival. |
| FixedStepLoop.Loop.Advance | engine/fixedStepLoop.js:22-40 | The steps made are the steps due, up to maxSteps; accumulator plus steps is conserved even then; the queue is delivered once, in order, before the first step. |
| FixedStepLoop.Loop.DeliverQueue | engine/fixedStepLoop.js:27-32 | Commands are delivered in order; one that throws takes those behind it with it. |
| FixedStepLoop.Loop.Run | engine/fixedStepLoop.js:12-40 | Any enqueues and advances, errors included: time kept plus steps made is the time given, never negative beyond the tolerance; unless a command is refused, the commands given and then those waiting are what was enqueued, each once and in order. |
| FixedStepLoop.StepsDueUnique | engine/fixedStepLoop.js:24-26 | The number of steps due is the only one that uses the time up to less than a step. |
| FixedStepLoop.SplittingIsInvisible | engine/fixedStepLoop.js:22-40 | Feeding a span in any pieces gives the same calls and the same rest as feeding it at once, while maxSteps does not bind. |
| EventLog.HeldPush | engine/eventLog.js:14-21 | Trimming a trimmed log or the whole history after one more entry comes to the same. |
| EventLog.EventLog.PushEntry | engine/eventLog.js:14-21 | The log is the end of the full history, a fractional size counting as the next whole number; each version is given to one content only. |
| EventLog.EventLog.Emit | engine/eventLog.js:23-50 | The entry and after it, in order, each derived event that has a type; times stay in order as long as no derived event brings its own. |
| EventLog.EventLog.Clear | engine/eventLog.js:56-61 | Empties the log; an empty one keeps its version. |
| EventLog.EventLog.Run | engine/eventLog.js:14-61 | Any emits and clears: the version stays exactly if nothing was emitted and nothing was there to clear, so two moments with one version hold the same entries; times stay in order given a clock that does not run backwards and no derived event with its own time. |
| AnimationEvents.AnimationAdapter.React | engine/eventAdapters.js:59-103 | What the adapter derives depends on the history of entries offered alone; its memory is exactly the keys those used up. |
| AnimationEvents.ProducesIff | engine/eventAdapters.js:62-70 | An animation is derived exactly if the entry is of a producing kind, not passed over, and no earlier entry that was not passed over had its key. |
| AnimationEvents.OncePerKey | engine/eventAdapters.js:66-70 | Of all entries with one key at most one ever produces anything. |
| AnimationEvents.KeysCollide | engine/eventAdapters.js:66-70 | Keys are not unique to a trigger: two kinds and triggers can share one, and then the second goes without. |
| AnimationEvents.AnimationsEnd | engine/eventAdapters.js:72-100 | Every derived kind is an animation, so it derives nothing further, and none has a time of its own. |
| AnimationEvents.ScoreAnimated | engine/eventAdapters.js:1-52 | A score calls for its own animation, of its value, or else its delta, or else one. |
| AnimationEvents.TeleportAnimated | engine/eventAdapters.js:54-63 | A teleport calls for an explosion exactly if its variant, or else its behavior, or else its kind says so. |
| AnimationEvents.NothingElseAnimated | engine/eventAdapters.js:72-100 | Exactly scores, dashes, phases and teleports call for an animation. |
| AnimationEvents.Emit | engine/gameEngine.js:21-25 | The engine’s log with its one adapter: each event is followed by exactly the animation it is owed. |
| Kernel.Engine.Command | engine/actions.js:8-36 | The effect of each command and its event; an unknown action or dash direction changes nothing. |
| Kernel.Engine.TickAbilities | engine/systems/abilities.js:1-20 | A dash or phase runs on exactly while its time exceeds the tick; ends are announced once, and never outnumber starts. |
| Kernel.Engine.ApplyPhysics | engine/systems/physics.js:1-12 | Speed stays within the limit if gravity does not pull up; a dash is not pulled. |
| Kernel.Engine.Resolve | engine/systems/boundsHandler.js:10-36 | Each axis comes out contained, at the same speed, and a bounce is reported exactly where the player moved into a wall. |
| Kernel.Engine.HandleBounds | engine/systems/bounds.js:3-13 | The bounce counter equals the bounce events ever emitted. |
| Kernel.Engine.Step | engine/step.js:9-23 | One step keeps the invariant: inside the world, within the speed limit, clock = 1000 × time; a bad delta changes nothing. |
| Kernel.Engine.Run | engine/step.js:9-23 | So does any sequence of commands and steps. |
| Kernel.ContainedStays | engine/systems/boundsHandler.js:13-33 | An axis ends inside its bounds exactly if they have an inside, at unchanged speed, and untouched if it was inside. |
| Kernel.LimitKeptIff | engine/systems/physics.js:6-8 | Gravity keeps every speed within max(jump, dash, fall) for every tick exactly if it is not negative. |
| Kernel.FallsBy | engine/systems/physics.js:1-12 | Over any ticks, however time is cut up, a falling player is as fast as gravity times the time makes it, up to the limit. |
| Kernel.SpeedLimitNeedsGravity | engine/systems/physics.js:6-8 | With negative gravity one long step from the start breaks the limit. |
| Achievements.EvaluateRunForAchievements | public/js/achievements.js:468-708 | The loop computes the evaluation and lists exactly the ids that this run unlocked. |
| Achievements.EntryMatchesCheck | public/js/achievements.js:374-408 | One entry of the meter is full exactly when its check passes - except for a broken-pipe target of at most 0 with no statistic. |
| Achievements.CheckIs | public/js/achievements.js:602-660 | A maximum is compared with the figure of its kind and a minimum with its own, for figures that are given. |
| Achievements.EntryIs | public/js/achievements.js:374-408 | An entry is the share of the target reached, or of the maximum kept to; a target that is none is all or nothing. |
| Achievements.MeterIsAverage | public/js/achievements.js:374-408 | The meter is the average of its entries. |
| Achievements.MeterAgreesWithUnlock | public/js/achievements.js:588-705 | The averaged meter of a definition with several per-run requirements is 1 on exactly the runs that unlock it - exactly when no such entry is involved or another check fails. |
| Achievements.TotalsSaturate | public/js/achievements.js:343-347 | After any history each total is the stored one plus everything gained, capped once at 10^9. |
| Achievements.GainIs | public/js/achievements.js:468-560 | Which statistic feeds which total, and that a run counts as one. |
| Achievements.SkillsAdd | public/js/achievements.js:468-560 | Each skill’s count grows by its own uses, capped. |
| Achievements.BestScoreIsBest | public/js/achievements.js:343-347 | The best score is the best of the stored one and all runs, capped. |
| Achievements.UnlocksNeverDisappear | public/js/achievements.js:426-434 | What is unlocked stays unlocked through any history, given timestamps of at least 1. |
| Achievements.UnlockSurvives | public/js/achievements.js:428-433 | An unlock that nothing earns again survives the next evaluation exactly if its timestamp is at least 1. |
| Achievements.TotalUnlockIff | public/js/achievements.js:588-705 | A threshold on one total is unlocked after any history exactly if the final total reaches it, or it was before. |
| Achievements.ScoreUnlockIff | public/js/achievements.js:599-602 | The same for the score alone and the best score. |
| Achievements.UnlocksOrderFree | public/js/achievements.js:588-705 | Reordering or repeating definitions changes no unlock and no total over any history. |
| Achievements.BestPercentNeverDrops | public/js/achievements.js:590-597 | The stored percentage stays in [0, 1] and never goes down. |
| Achievements.StoredMeterIsBest | public/js/achievements.js:586-597 | Up to the run that unlocks a definition, its stored percentage is the best meter of any run, or the one it started from. |
| Achievements.UnlockedMeterStays | public/js/achievements.js:586-597 | Once it is unlocked, no run changes its stored percentage. |
| RateLimiter.ClientRateState.HitClientRateLimit | public/js/api.js:24-35 | One call changes its own endpoint’s entry as the table says, and no other. |
| RateLimiter.EntryIsLastWindow | public/js/api.js:24-35 | The entry is the count and end of the last window; a call is refused exactly if that window is open and has let its limit through. |
| RateLimiter.SlidingBound | public/js/api.js:24-35 | With a clock that does not run backwards, any span covered by c windows holds fewer than (c + 1) × limit accepted calls. |
| RateLimiter.OneWindowBound | public/js/api.js:24-35 | Any interval of one window length holds at most 2 × limit - 1. |
| RateLimiter.OneWindowBoundIsTight | public/js/api.js:24-35 | And there are calls, with a clock that runs forward, that reach it. |
| Rng.Mulberry32.Next | engine/rng.js:5-14 | The n-th call yields the n-th number of the stream of its seed - the mixed low 32 bits of seed + n × increment over 2^32 - and it lies in [0, 1). |
| Rng.StreamBegins | public/js/util.js:71-78 | Seed 0 begins with 1144304738, 1416247 and 958946056, each over 2^32. |
| Rng.Mulberry32.Int | engine/rng.js:20-25 | A whole number between the rounded bounds, and one draw; an empty range is refused without a draw. |
| Rng.Mulberry32.Float | engine/rng.js:26-30 | A number in the range; an empty range is refused without a draw. |
| Rng.StatesDistinct | public/js/util.js:71-78 | No state of the generator comes back within 2^32 draws. |
| Rng.OneCycle | public/js/util.js:71-78 | All seeds share one cycle: the stream of any seed is that of any other from a computable place on. |
| Rng.AccumulatorExact | public/js/util.js:71-78 | The unwrapped accumulator stays an exact integer for the first 4.9 million draws. |
| Keybinds.ApplyRebindWithSwap | public/js/keybinds.js:96-117 | The search finds the other holder of the binding, if any, and the two actions swap; nothing else changes. |
| Keybinds.DistinctAfterIff | public/js/keybinds.js:96-117 | When the tokens are distinct after a rebinding; distinct bindings stay distinct and every action stays bound. |
| Keybinds.RebindAll | public/js/keybinds.js:96-117 | Any sequence of rebindings, refused ones included, keeps distinct bindings distinct and usable ones usable, and the last one pressed is bound. |
| Keybinds.RebindBack | public/js/keybinds.js:96-117 | Taking the old binding back undoes a rebinding, swap and all. |
| Keybinds.MergeCanCollide | public/js/keybinds.js:54-59 | Loading stored bindings can give two actions the same one. |
| Keybinds.MergeApartIff | public/js/keybinds.js:54-59 | Onto distinct usable bindings, loading keeps bindings distinct if and only if the usable stored ones have tokens of their own and none that a binding kept has; what it yields is always usable. |
| Keybinds.LoadSavedIff | public/js/keybinds.js:118-126 | What was saved is loaded again, exactly if every binding is usable or the one to fall back on. |
| Keybinds.TokensTellApart | public/js/keybinds.js:27-32 | Equal tokens mean equal bindings. |
| Keybinds.NormalizeIs | public/js/keybinds.js:37-52 | Usable are exactly key codes of 1 to 32 letters and digits, blanks around them aside, and the three buttons. |

## Left out

- What a picture looks like, particles, floating texts, trails, audio, menus and the page: of all drawing only the evaluation of the difficulty changes the game, and that is modelled.
- Rounding of floating-point numbers: accumulators, timers and positions are exact reals here.
- 32-bit truncation (`| 0`) of scores, combos and bounce counts: they are unbounded here.
- The player's velocity: friction, acceleration, dash direction and the speed after a reflection use exponentials and square roots; each tick takes the resulting velocity as an arbitrary input.
- The shape of the difficulty curve and the building of plans: plans, cadences and waits are arbitrary choices by position and difficulty, the curve an arbitrary function of time and score; warning segments are part of a plan.
- Warning ids, flash parameters and line widths: display only.
- Walls without a gate and plans without a type: the plan builders never make them.
- Skills that are not configured and the defaults taken for missing or malformed settings: the configuration holds the numbers after those defaults.
- Game.Game.Session: ticks are of positive length, as the fixed step is; the tutorial's changes to the loop are not part of this model.
- RandomPrograms.Exec: a tick makes a bounded number of draws, the bound being part of the program; a game that could draw forever is not modelled.
- Fidelity.ReplayFidelity: random source and pictures are the only hidden inputs; configuration and screen size are the same live and in the replay.
- Playback.PlaybackController.Restart: what a second pass shows is not claimed to equal the live run, because the random source is not rewound.
- Replayed runs that went through the upload envelope, where cursors are floored.
- Errors thrown by an engine step inside the fixed-step loop; errors of commands are modelled.
- The string hash that turns a seed text into a 32-bit seed.
- Achievements.EvaluateRunForAchievements: totals supplied from outside are modelled in one evaluation, not over histories.
- EventLog.EventLog.Emit: what each adapter returns is an input of the method; only the animation adapter is modelled itself.
- Kernel.Engine.Run: the default systems in their default order; custom pipelines are not part of this model.
- Keybinds.ApplyRebindWithSwap: the four actions of the game; trimming knows blanks, tabs and line breaks only.
- Network requests, sessions, cookies, the wallet, settings, themes, admin pages, video capture and the server.
