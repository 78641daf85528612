# Whack-a-Mole session model

A Dafny model of the game session inside the `App` component of the
Whack-a-Mole game (`src/App.jsx`). A mole pops up in one of nine holes; the
player whacks it for 1 point, or 2 when the whack follows the previous hit
within 550 ms. Every hit speeds the game up, every miss slows it down, and a
mole that goes down unhit speeds the next one up a little. The clock counts
30 seconds; when it runs out the game is over and a score is committed to
the high score. As the code is written, that score is the one from when
Start, Restart or Resume was clicked, not the final score (see Findings).

The model has three parts:

- `Rules` (rules.dfy): the pure rules as functions — `rnd`, the choice of
  the next hole, the visible duration, the spawn gap, the speed clamps
  (300, 320 and 1200 ms), the combo points, the countdown updater and the
  high-score commit — with lemmas about them. One lemma shows that the
  speed stays in [300, 1200] after any run of hits, misses and despawns.
  Others show that the clock reads 0 after exactly 30 ticks, and that every
  hole other than the active one can come up next.
- `Popups` (popups.dfy): where a combo label is placed on the 3 x 3 board
  and how the label list grows and is filtered. The position is shown to
  identify the hole. Expiring a label keeps every other label in order.
- `Game` (session.dfy): the class `Session`, whose fields are the
  component's state and refs. Each button handler and each timer callback is
  a method. Its invariant `Valid()` holds after every handler and callback.
  It says the run flags are in one of four phases (idle, running, paused,
  over), the clock
  stays in [0, 30], the active hole is on the board, every speed is in
  [300, 1200], no mole timer is pending while the Start button shows, and a
  pending spawn finds the board empty or showing the hole it avoids.
  `Scenarios` (scenarios.dfy) holds client methods proved from these
  contracts alone: thirty ticks end a game, pausing then resuming keeps the
  progress, whacks after the end are ignored, back-to-back hits earn the
  combo, and which score each game commits.

Timers are not run. A pending `setTimeout` is a flag plus what its
callback captured. The caller fires a callback by calling its method. A
callback sees the state of the render that created it. The model keeps the
captured values that change the outcome. A spawn chain is a spawn timer,
the despawn timer its `popMole` arms, the spawn that despawn schedules, and
so on; every link uses the functions of the render that started the chain.
`spawnExcludes` is the `activeHole` that the pending spawn's `popMole`
compares its draw with: the hole active when Start, Restart or Resume was
clicked, or the hole just hit. `despawnExcludes` is the same value for the
chain that armed the pending despawn, which passes it on to the spawn it
schedules. `countdownScore` is the `score` the high-score commit
reads: the score when Start, Restart or Resume was clicked. The
countdown interval runs exactly while `playing` holds, so `Tick` requires
`playing`. Randomness (`Math.random`) is a parameter `u` with
`0.0 <= u < 1.0`. The clock (`Date.now`) is the parameter `now`. The popup
id is a parameter too.

Behaviour the model keeps as the code has it, where it differs from what a
reader might expect of the game:

- A whack when no mole is up, or on a hole with no mole, is a miss: it adds
  12 ms to the speed. It is not ignored.
- A despawn sets the speed from the speed the mole was spawned with. Misses
  and hits made while that mole was up are overwritten. `SpeedAfter` models
  this by giving each despawn event its own spawn speed.
- A hit starts a new spawn chain that holds the hole just hit as active, so
  its spawn avoids that hole. The hit does not cancel the despawn timer of
  the mole it hit. If that timer fires first, its older chain replaces the
  hit's spawn, and the hole just hit can come up again
  (`HitHoleCanComeBack`).
- A hit never stores a speed below 320 ms. At 300–319 ms, reachable through
  despawns, a hit slows the game to 320 (`SpeedAfterHit`).
- The hit path schedules the next spawn with `max(320, speed - 40)` but
  stores `max(320, speed - 24)` (`HitScheduleSpeed`).
- Game over cancels only the countdown. The spawn and despawn timers keep
  running, so moles keep appearing after the end and the speed keeps
  drifting down to 300. A hit does not cancel the despawn timer either.
- The Start button shows only while neither playing nor over. In those
  states no mole timer is pending, so `startGame` not cancelling the despawn
  timer does no harm. `RestartGame` cancels both timers itself.

## Model

| member | source | states |
|---|---|---|
| Rules.ScaledFloorInRange | src/App.jsx:82 | flooring a draw in [0,1) scaled by n > 0 gives an integer in [0, n) |
| Rules.Rnd | src/App.jsx:82 | `rnd(min, max)` lies in [min, max] whenever min <= max |
| Rules.NextHole | src/App.jsx:99-100 | the next hole is on the board (< 9) and differs from the active hole |
| Rules.NextHoleReaches | src/App.jsx:99-100 | every hole other than the active one is picked by some draw (h / 9 picks h) |
| Rules.VisibleFor | src/App.jsx:103 | a mole stays up at least 350 ms, and exactly the rounded product when that is larger |
| Rules.SpawnGap | src/App.jsx:94 | the spawn delay is at least 150 ms and, for a speed in [300,1200], within [speed-120, speed+180] |
| Rules.SpeedAfterHit | src/App.jsx:196 | a hit stores max(320, speed-24): at least 320, 24 faster or the floor; in-range speeds stay in range; below 320 a hit slows the game |
| Rules.HitScheduleSpeed | src/App.jsx:199 | the hit path schedules at max(320, speed-40), never slower than the speed the hit stores |
| Rules.SpeedAfterMiss | src/App.jsx:202 | a miss stores min(1200, speed+12): at most 1200, never faster than before; in-range speeds stay in range |
| Rules.SpeedAfterDespawn | src/App.jsx:107 | a despawn stores max(300, speed-12); in-range speeds stay in range |
| Rules.SpeedStaysInRange | src/App.jsx:196-202 | from any speed in [300,1200] (900 at start, line 69), any run of hits, misses and despawns stays in [300,1200]; a despawn steps from the speed its mole was spawned with (line 107), required to be in range as every scheduled speed is |
| Rules.MissesNeverSpeedUp | src/App.jsx:202 | a run of misses never lowers the speed and never passes 1200 |
| Rules.HitsNeverSlowDown | src/App.jsx:196 | from 320 or more, a run of hits never raises the speed and never goes below 320 |
| Rules.Points | src/App.jsx:191-192 | a hit is worth 2 exactly when it comes less than 550 ms after the previous hit, otherwise 1 |
| Rules.TickTime | src/App.jsx:116-134 | the countdown updater gives max(0, t-1) and is never negative |
| Rules.TimeAfterTicks | src/App.jsx:113-137 | n ticks from t >= 0 leave max(0, t-n) |
| Rules.ClockRunsOutAtInitialTime | src/App.jsx:116-134 | from 30 the clock reads 0 after n ticks exactly when n >= 30 |
| Rules.NewHighScore | src/App.jsx:124-130 | the committed high score is the larger of the stored one and the committed score, and changes only when that score beats it |
| Rules.CommitIsIdempotent | src/App.jsx:124-130 | committing the same score a second time leaves the high score as it is |
| Popups.PopupPosition | src/App.jsx:177-180 | a hole's label lies within [12, 240] on both axes; the top row sits at y = 12 and the left column at x = 12 |
| Popups.PositionIdentifiesHole | src/App.jsx:177-180 | the hole is recovered from its label position (column from x, row from y) |
| Popups.PositionsAreDistinct | src/App.jsx:177-180 | two different holes never share a label position |
| Popups.ComboText | src/App.jsx:198 | a 2-point hit is labelled "+2", any other "+1" |
| Popups.ComboPopup | src/App.jsx:175-181 | the label for a hit carries its id, its text and the hole's position |
| Popups.WithoutId | src/App.jsx:183 | the expiry filter keeps exactly the labels whose id differs, never more than before |
| Popups.WithoutIdAppend | src/App.jsx:183 | filtering a concatenation filters each part |
| Popups.WithoutAbsentId | src/App.jsx:183 | filtering an id no label carries changes nothing |
| Popups.ExpireUndoesShow | src/App.jsx:181-183 | adding a label with a fresh id and then expiring it gives back the list from before |
| Popups.ExpireKeepsLaterLabel | src/App.jsx:181-183 | expiring another id keeps a later label, at the end |
| Game.Session.constructor | src/App.jsx:63-79 | first render: score 0, no mole, clock 30, idle, speed 900, stored high score, no timer pending, both timers' captured speeds 900 and held holes none, countdown score 0 |
| Game.Session.ScheduleNextMole | src/App.jsx:92-96 | replaces the pending spawn by one at the given speed, avoiding the caller's active hole, after a delay of at least 150 ms |
| Game.Session.Begin | src/App.jsx:139-151 | score 0, clock 30, speed 900, running, no mole, last whack 0, spawn at 900 pending; the new spawn chain and countdown hold the active hole and score from before the reset; high score and labels kept |
| Game.Session.StartGame | src/App.jsx:139-151 | as Begin, from the states where the Start button shows (line 237), leaving no despawn pending |
| Game.Session.RestartGame | src/App.jsx:168-173 | cancels the mole timers, then as Begin: no stale despawn survives |
| Game.Session.PauseGame | src/App.jsx:153-159 | paused and not playing, every timer cancelled; score, clock, speed and mole kept |
| Game.Session.ResumeGame | src/App.jsx:161-166 | playing again with a spawn pending at the current speed, the spawn chain and countdown holding the current hole and score; score, clock and speed kept |
| Game.Session.ShowComboPopup | src/App.jsx:175-181 | appends one label at the hole's position |
| Game.Session.ExpirePopup | src/App.jsx:182-184 | the label list becomes the expiry filter of the old one |
| Game.Session.HandleWhack | src/App.jsx:187-204 | ignored unless running; a hit adds Points, records now, clears the mole, stores SpeedAfterHit, adds a label and starts a spawn chain at HitScheduleSpeed holding the hit hole, leaving the despawn timer and its chain as they were; a miss only stores SpeedAfterMiss; the score never drops and rises by at most 2 |
| Game.Session.SpawnMole | src/App.jsx:98-104 | a new mole on a hole other than the one the spawn chain holds as active, and other than the one on the board, up for VisibleFor, with the despawn armed by the same chain: the spawn's speed and the hole it held |
| Game.Session.DespawnMole | src/App.jsx:105-110 | the mole goes down, the speed becomes SpeedAfterDespawn of the mole's speed, and the chain that armed the despawn has a spawn pending at that speed, holding that chain's hole and replacing any pending spawn |
| Game.Session.Tick | src/App.jsx:115-136 | the clock follows TickTime; on the last second the game is over, the board cleared, and the score the countdown holds committed, stored only when it beats the high score |
| Scenarios.RunOutTheClock | src/App.jsx:113-137 | thirty ticks from 30 end the game with the score unchanged and the countdown's score committed |
| Scenarios.PlayIdleGame | src/App.jsx:139-151 | Start then thirty ticks with no whack end the game with score 0 and the stored high score |
| Scenarios.PauseThenResume | src/App.jsx:153-166 | pause then resume keeps score, clock, speed and the mole on the board |
| Scenarios.WhackAfterGameOver | src/App.jsx:188 | after game over a whack changes nothing: no field of the session changes |
| Scenarios.HitHoleCanComeBack | src/App.jsx:98-110 | when the hit mole's despawn fires before the hit's spawn, the next mole can come up on the hole just hit (hole 0, hit, despawn, hole 0 again) |
| Scenarios.ComboOnSecondHit | src/App.jsx:189-194 | a second hit less than 550 ms after the first earns 2 points |
| Scenarios.FirstGameKeepsHighScore | src/App.jsx:125 | the first game after load commits 0: a game that scores leaves a stored high score of 0 unchanged and writes nothing |
| Scenarios.NextGameCommitsPreviousScore | src/App.jsx:125 | Play Again then a full game commits the previous game's final score |

## Findings

| source | as written | input that shows it | evidently intended | confidence | as-written member | corrected member |
|---|---|---|---|---|---|---|
| src/App.jsx:125 | the high-score commit compares `score` held by the countdown's closure, the score when Start, Restart or Resume was clicked | fresh page, stored high score 0; Start, one hit (score 1), 30 ticks: the high score stays 0 and nothing is stored | commit the larger of the stored high score and the final score | high, not executed | Scenarios.FirstGameKeepsHighScore | Rules.NewHighScore |

The game-over overlay shows `Math.max(score, highScore)` (line 298), which
hides the stale value on screen. The session model commits what the code
commits. `Rules.NewHighScore` states the intended rule: applied to the final
score, it never falls below that score and changes only when the score beats
the stored value.

## Left out

- Sound: `useAudioSynth`, every `hitSound` and `gameOverSound` call, and the
  effect that suspends and resumes the audio context on mute. These are Web
  Audio side effects with no bearing on the session state.
- Rendering: the JSX, the animation library and the overlay. The button
  markup is used only to justify the preconditions of `StartGame`,
  `PauseGame` and `ResumeGame`.
- Storage: `localStorage` reads and writes and `parseInt` of the stored
  value. The constructor takes the stored high score as an integer (a
  malformed stored value is not modelled). `Tick` returns whether the new
  high score is written instead of writing it.
- Timer scheduling: `setTimeout` and `setInterval` are not run. A pending
  timer is a flag plus the speed it captured, and the delays are returned
  values. The 80 ms deferral of the high-score commit is not modelled: the
  commit happens in the same step as game over. The 700 ms label expiry is
  the caller calling `ExpirePopup`. The unmount cleanup (lines 84–90) is not
  modelled.
- Randomness and clock: `Math.random` draws are parameters in [0, 1),
  `Date.now` is a parameter, and the random popup id is a parameter whose
  uniqueness is not modelled (`ExpireUndoesShow` assumes a fresh id).
- Game.Session.SpawnMole: the visible duration takes the rounded product
  `Math.round(speed * (0.55 + Math.random() * 0.5))` as an integer
  parameter, because the floating-point factor is not modelled; only the
  350 ms floor is proved.
- React batching: each method applies all of its state updates at once, as
  a plain state machine. Of the values timer callbacks capture from older
  renders, the model keeps the spawn speed, the active hole `popMole`
  compares with and the score the commit reads. The `muted` flag the
  callbacks capture only gates sound, which is left out.
- Number width: JavaScript numbers are modelled as unbounded integers;
  every value in the session stays far below 2^53.
