# Red Light, Green Light: the simulation rules in Dafny

This project models the game core of a browser "Red Light, Green Light"
minigame. Players advance toward a finish line while the light is green.
A player still moving when the light is red is eliminated after a short grace period.
The model covers four parts of the program:

- `types.dfy` (module `GameTypes`): the round states, the four difficulty
  presets and their parameters, the player record, settings and statistics,
  and the four player configurations.
- `store.dfy` (module `GameStore`): the session store. It is a class whose
  fields are the round state, the light phase, the remaining time, the player
  list, the settings and the statistics. Its commands overwrite those fields.
  Each per-player command is a pure edit of the player list; the store's
  method assigns the result.
- `scene.dfy` (module `GameScene`): the per-frame step of a player's sphere.
  It moves the sphere left by the player's velocity and marks the player safe
  at the finish line. When the player moves on red, it queues an elimination
  check. The checks wait in an explicit queue and fire against the light and
  the store as they are at firing time.
- `app.dfy` (module `App`): the game loop's outcome evaluator (lost, won,
  timeout or continue, in that order), the round clock, the light scheduler's
  choice of phase durations, the start-of-round countdown, and the start,
  pause and restart commands. These live in a `Controller` class beside the store.

Timers, animation frames and randomness are explicit inputs. Each
controller or timer method is one firing of a timeout, interval or frame.
The random draw is a parameter `r` with 0 ≤ r < 1. Elapsed time is a
parameter in seconds. Positions, velocities and times are `real`s.

Behaviours of the code worth noting:

- `movePlayer` gives every player the fixed velocity 0.03, which is the
  medium preset's speed. It does not use the selected difficulty's `playerSpeed`.
- `eliminatePlayer` and `markPlayerSafe` do not consult each other's flag, so
  a player can be both eliminated and safe (`SafeAndEliminatedCanCoexist`).
- A phase delay is `r * (max - min) + min` with r < 1. It therefore lies in
  [min, max), not in [min, max].
- A best time of 0 counts as absent (`!stats.bestTime`), so a win replaces it.
- The store places new players at position 6. The scene starts a newly
  mounted sphere at x = 5.5 and never writes the position back to the store.
  A restart does not remount the spheres (see Findings).

## Model

| member | source | states |
|---|---|---|
| `GameTypes.Config` | src/types/game.ts:48-85 | every preset has 0 < greenLightMin < greenLightMax and 0 < redLightMin < redLightMax, and a positive time limit, detection delay and speed |
| `GameTypes.HarderIsStricter` | src/types/game.ts:48-85 | from easy to extreme, timeLimit (30, 20, 15, 10), detectionDelay (200, 150, 100, 50) and playerSpeed all strictly decrease |
| `GameTypes.PlayerMoveKeysDistinct` | src/types/game.ts:87-92 | the player table has exactly four entries, one per allowed player count, and no two entries share a move key |
| `GameStore.FindPlayer` | src/components/ui/MobileControls.tsx:10 | as `Array.prototype.find`: a found player carries the id and is the first player in the list that does; nothing is found exactly when no player carries the id |
| `GameStore.InitialPlayers` | src/stores/gameStore.ts:84-95 | exactly n players with ids 0..n-1, all distinct, each at position 6 with velocity 0, alive and not safe |
| `GameStore.Moved` | src/stores/gameStore.ts:98-105 | only an alive, not-safe player with the id gets velocity 0.03; every other player and every other field is unchanged |
| `GameStore.Stopped` | src/stores/gameStore.ts:108-113 | the matching player gets velocity 0 whatever its flags; nothing else changes |
| `GameStore.Eliminated` | src/stores/gameStore.ts:116-122 | the matching player becomes dead with velocity 0 and its safe flag is kept; other players are untouched |
| `GameStore.MarkedSafe` | src/stores/gameStore.ts:124-130 | the matching player becomes safe with velocity 0 and its alive flag is kept; other players are untouched |
| `GameStore.Repositioned` | src/stores/gameStore.ts:132-138 | only the matching player's stored position changes |
| `GameStore.EliminatedIdempotent` | src/stores/gameStore.ts:116-122 | eliminating the same player twice is the same as once |
| `GameStore.MarkedSafeIdempotent` | src/stores/gameStore.ts:124-130 | marking the same player safe twice is the same as once |
| `GameStore.SafeAndEliminatedCanCoexist` | src/stores/gameStore.ts:116-130 | eliminating a player and then marking it safe leaves it both dead and safe: the two flags are not exclusive |
| `GameStore.MoveVelocityIgnoresDifficulty` | src/stores/gameStore.ts:102 | the move velocity equals the playerSpeed of the medium preset and of no other preset |
| `GameStore.ApplyKeepsFlags` | src/stores/gameStore.ts:98-138 | no single player command revives a dead player, makes a safe player unsafe, or reorders or renumbers players |
| `GameStore.ApplyAllKeepsFlags` | src/stores/gameStore.ts:98-138 | the same holds for any sequence of player commands: both flags are one-way within a round |
| `GameStore.MergeSettings` | src/stores/gameStore.ts:141-145 | every supplied settings key takes the supplied value and every other key keeps its value |
| `GameStore.MergeSettingsEmpty` | src/stores/gameStore.ts:141-145 | merging no keys leaves the settings as they were |
| `GameStore.MergeStats` | src/stores/gameStore.ts:148-152 | every supplied statistics key takes the supplied value (null included) and every other key keeps its value |
| `GameStore.MergeStatsComposes` | src/stores/gameStore.ts:148-152 | merging nothing is the identity, and two merges in a row equal one merge of the second patch laid over the first |
| `GameStore.Store.constructor` | src/stores/gameStore.ts:68-75 | the store starts idle, green, with 20 s remaining, no players, the default settings and zeroed statistics with no best time |
| `GameStore.Store.SetGameState` | src/stores/gameStore.ts:78 | sets the round state and nothing else |
| `GameStore.Store.SetGreenLight` | src/stores/gameStore.ts:80 | sets the light phase and nothing else |
| `GameStore.Store.SetTimeRemaining` | src/stores/gameStore.ts:81 | sets the remaining time and nothing else |
| `GameStore.Store.InitializePlayers` | src/stores/gameStore.ts:84-96 | replaces the player list by `InitialPlayers(count)` and nothing else |
| `GameStore.Store.MovePlayer` | src/stores/gameStore.ts:98-106 | the player list becomes `Moved` of the old list; other fields are framed out |
| `GameStore.Store.StopPlayer` | src/stores/gameStore.ts:108-114 | the player list becomes `Stopped` of the old list |
| `GameStore.Store.EliminatePlayer` | src/stores/gameStore.ts:116-122 | the player list becomes `Eliminated` of the old list |
| `GameStore.Store.MarkPlayerSafe` | src/stores/gameStore.ts:124-130 | the player list becomes `MarkedSafe` of the old list |
| `GameStore.Store.UpdatePlayerPosition` | src/stores/gameStore.ts:132-138 | the player list becomes `Repositioned` of the old list |
| `GameStore.Store.UpdateSettings` | src/stores/gameStore.ts:141-145 | the settings become the merge of the old settings and the patch |
| `GameStore.Store.UpdateStats` | src/stores/gameStore.ts:148-152 | the statistics become the merge of the old statistics and the patch |
| `GameStore.Store.StartGame` | src/stores/gameStore.ts:155-159 | state `starting`, green light, and playerCount fresh players (1 to 4, distinct ids); statistics, settings and the clock are not touched |
| `GameStore.Store.PauseGame` | src/stores/gameStore.ts:161 | sets `paused` unconditionally |
| `GameStore.Store.ResumeGame` | src/stores/gameStore.ts:162 | sets `playing` unconditionally |
| `GameStore.Store.ResetGame` | src/stores/gameStore.ts:164-171 | idle, green light, 20 s remaining, no players; statistics and settings are not touched |
| `GameScene.FrameOutcome` | src/components/game/GameScene.tsx:72-92 | a dead or safe player is left alone; otherwise the new x is the old x minus the velocity (so velocity 0 keeps x); the player is marked safe exactly when the new x ≤ -5.5; a check is scheduled exactly when the light is red and the velocity is positive |
| `GameScene.PlayerSphere.constructor` | src/components/game/GameScene.tsx:99 | a sphere starts on the start line, x = 5.5 |
| `GameScene.PlayerSphere.Frame` | src/components/game/GameScene.tsx:72-92 | one frame moves the sphere, calls `markPlayerSafe` and queues a check exactly as `FrameOutcome` says for the player's current record; without a record nothing changes |
| `GameScene.DetectionTimers.Schedule` | src/components/game/GameScene.tsx:86-90 | a scheduled check joins the back of the queue |
| `GameScene.DetectionTimers.Fire` | src/components/game/GameScene.tsx:86-90 | the oldest check leaves the queue and eliminates its player only if, at firing time, the light is red and the player is still moving; otherwise it has no effect |
| `GameScene.StoppedPlayerIsSpared` | src/components/game/GameScene.tsx:85-90 | a player stopped before its check fires is never eliminated by that check, whatever the light |
| `GameScene.GreenCheckNeverEliminates` | src/components/game/GameScene.tsx:87 | a check that fires on green never eliminates |
| `GameScene.PlayerSphere.Remount` | src/components/game/GameScene.tsx:99 | a sphere for a new round is back on the start line, x = 5.5, as a newly mounted one |
| `GameScene.ActiveRunCoversDistance` | src/components/game/GameScene.tsx:73-77 | over a run of frames, each stepping the sphere as one frame does, while the player's records are alive and not safe, the sphere's x is the start minus the sum of the velocities those frames read |
| `GameScene.ActiveRunMarksSafeAtFinish` | src/components/game/GameScene.tsx:73-82 | while the player is active, a frame of the run marks it safe exactly when the distance covered up to and including that frame brings x to -5.5 or past it; the first such frame is the first that reaches the line |
| `GameScene.StillFramesKeepX` | src/components/game/GameScene.tsx:73-77 | frames of a dead, safe or stationary player leave the sphere's x as it was |
| `GameScene.InactiveRunStays` | src/components/game/GameScene.tsx:73 | once the player is dead or safe, no frame moves the sphere, marks the player safe or schedules a check |
| `GameScene.StationaryNeverFinishes` | src/components/game/GameScene.tsx:76-82 | a player whose velocity stays 0 keeps its sphere at x = 5.5 (line 99), right of the finish at -5.5, and no frame of the run marks it safe |
| `GameScene.KeptSphereFinishesAtOnce` | src/App.tsx:165-168 | a sphere left at or past the finish line by the last round marks the restarted round's fresh, stationary player safe on its first frame; on a remounted sphere the same player is not marked |
| `GameScene.CapturedCheckIgnoresGracePeriod` | src/components/game/GameScene.tsx:85-90 | the check as written re-tests the values captured when it was scheduled, so it always eliminates, even a player who has since stopped; the live re-test spares that player |
| `App.Remaining` | src/App.tsx:121-123 | remaining = max(0, timeLimit - elapsed): never negative, 0 exactly when elapsed ≥ timeLimit, and at most timeLimit when elapsed ≥ 0 |
| `App.AliveCount` | src/App.tsx:126-128 | the number of alive players is at most the list length, and is 0 exactly when no player is alive |
| `App.SafeCount` | src/App.tsx:127-129 | the number of safe players equals the list length exactly when every player is safe |
| `App.LoopStep` | src/App.tsx:120-153 | lost iff the list is non-empty and nobody is alive; won iff not lost and the list is non-empty and all are safe; timeout iff neither and elapsed ≥ timeLimit; otherwise continue. On a win gamesWon rises by exactly 1 and bestTime becomes the completion time iff it was absent, 0 or larger; no other verdict touches the statistics |
| `App.EmptyRoundOnlyTimesOut` | src/App.tsx:126-150 | an empty player list never yields won or lost, only timeout or continue |
| `App.WonMeansSafeAndNotAllDead` | src/App.tsx:131-137 | a win means every player is safe and some player is alive |
| `App.LostWhateverTheTime` | src/App.tsx:131-134 | whether the step yields lost does not depend on the elapsed time or the time limit |
| `App.LoneEliminatedPlayerLoses` | src/App.tsx:131-134 | a single player who has been eliminated loses, whatever the time left |
| `App.BestTimeNeverWorsens` | src/App.tsx:138-143 | a win never makes a positive best time worse: the new best is the old one or the completion time, and at most the old one |
| `App.BestTimeSequence` | src/App.tsx:138-143 | wins at 8.2 s, 9.0 s and 7.5 s starting from no best time give best times 8.2, 8.2, 7.5 and three games won |
| `App.LightDelay` | src/App.tsx:92-94 | for a draw in [0, 1) the delay lies in [min, max) of the range of the phase's colour for the difficulty |
| `App.NextPhase` | src/App.tsx:89-97 | a toggle leaving green enters red with a red-range delay, and one leaving red enters green with a green-range delay |
| `App.ScheduleAlternates` | src/App.tsx:89-102 | a round's phases start green, then alternate, each phase after the first is the toggle out of the one before it, and every delay is in its colour's range |
| `App.CapturedSwitchSticks` | src/App.tsx:89-97 | the toggle as written always enters the same colour, so after the first toggle the light never changes; the live toggle returns to the colour left |
| `App.CountdownTraceCounts` | src/App.tsx:52-64 | from n ≥ 1 the countdown shows n, n-1, …, 1, 0 (from 3: 3, 2, 1, 0) |
| `App.PauseToggled` | src/App.tsx:75-81 | playing becomes paused, paused becomes playing, and every other state is left as it is |
| `App.PauseToggleIsInvolution` | src/App.tsx:75-81 | pressing pause twice restores the state |
| `App.Controller.constructor` | src/App.tsx:32-33 | the countdown starts at 3 and hidden, with no countdown timer armed |
| `App.Controller.StartCountdown` | src/App.tsx:48-50 | shows the countdown at 3 and arms the interval |
| `App.Controller.CountdownTick` | src/App.tsx:52-64 | a tick at 1 or below shows 0, stops the interval and arms the one-second timeout; a tick above 1 takes one off |
| `App.Controller.FinishCountdown` | src/App.tsx:56-59 | hides the countdown and sets `playing` |
| `App.Controller.RunCountdown` | src/App.tsx:52-64 | ticks until the interval stops, shows exactly the countdown trace (3, 2, 1, 0 from 3), stops at 0, and only then sets `playing` |
| `App.Controller.HandleStartGame` | src/App.tsx:68-72 | starts a round, shows the countdown at 3, and adds exactly 1 to gamesPlayed with the rest of the statistics unchanged |
| `App.Controller.HandlePause` | src/App.tsx:75-81 | the round state becomes `PauseToggled` of the old state |
| `App.Controller.HandleRestart` | src/App.tsx:165-168 | resets and then starts a new round: `starting`, fresh players, 20 s on the clock, gamesPlayed + 1 |
| `App.Controller.RequestMove` | src/hooks/useKeyboard.ts:7-17 | a key press moves the player only while `playing` and only if the player is alive and not safe; otherwise nothing changes |
| `App.Controller.RequestStop` | src/hooks/useKeyboard.ts:19-27 | a key release stops the player in any round state |
| `App.Controller.StartLights` | src/App.tsx:99-102 | entering `playing` forces green and picks a first delay in the green range |
| `App.Controller.SwitchLight` | src/App.tsx:89-97 | one toggle flips the current phase and picks the next delay from the range of the phase entered |
| `App.Controller.StartClock` | src/App.tsx:115-116 | entering `playing` sets the remaining time to the difficulty's time limit |
| `App.Controller.GameLoopFrame` | src/App.tsx:120-153 | one frame publishes the remaining time, sets lost, won or timeout as `LoopStep` decides (or stays `playing`), applies its statistics update, and re-arms only on continue |

## Findings

| source | as written | input that shows it | evidently intended | confidence | as-written member | corrected member |
|---|---|---|---|---|---|---|
| src/App.tsx:89-97 | `switchLight` flips `isGreenLight` as captured when the scheduler effect started, because `isGreenLight` is missing from the effect's dependencies (line 109); every toggle therefore enters the same colour | a round entered with the light green: the first toggle sets red, the second sets red again, and the light stays red for the rest of the round | each toggle flips the current phase, so the light alternates green, red, green, … | high; not executed | `App.CapturedSwitchSticks` | `App.ScheduleAlternates` |
| src/App.tsx:165-168 | `handleRestart` runs `resetGame` and `startGame` in one click handler, so the only render sees the new player list. Its ids 0..n-1 equal the old keys (src/components/game/GameScene.tsx:195), so no sphere is remounted. The unchanged `position` prop is not re-applied, and each mesh keeps the x it had when the last round ended | a won round: every sphere is at x ≤ -5.5. After restart each fresh record (alive, not safe, velocity 0) is marked safe by the first frame, during the countdown, and the new round is won at once | a new round starts every sphere on the start line | medium (depends on React's reconciliation); not executed | `GameScene.KeptSphereFinishesAtOnce` | `GameScene.PlayerSphere.Remount` with `GameScene.StationaryNeverFinishes` |
| src/components/game/GameScene.tsx:85-90 | the delayed check re-tests the `isGreenLight` and `player.velocity` captured by the frame that scheduled it, so the re-test always passes | light red, player velocity 0.03 at a frame; the player releases the key and the light turns green before the detection delay ends; the player is still eliminated | eliminate only if, when the check fires, the light is still red and the player is still moving (the grace period) | high; not executed | `GameScene.CapturedCheckIgnoresGracePeriod` | `GameScene.StoppedPlayerIsSpared` |

The rest of the model uses the corrected behaviour. `Controller.SwitchLight` reads the current phase, and `DetectionTimers.Fire` reads the light and the store when the check fires. A new round's spheres start on the start line (`PlayerSphere.Remount`).

## Left out

- Rendering and UI: meshes, the doll's rotation, the runway, the 3D progress bar, the camera, and all modal, overlay, HUD and mobile-control components. The countdown overlay is kept only as the `showCountdown` flag.
- Audio playback, the persistence of settings and statistics to local storage (src/stores/gameStore.ts:173-179), and the dark-mode class toggling (src/App.tsx:42-45). These are calls into the browser or libraries.
- `gameMode`, `setGameMode` and `totalPlayersEliminated` are never changed by the game logic. The Player record also drops the cosmetic `name`, `color` and `controls`.
- Timer durations and the effect machinery: the model orders events but does not track time.
  - Detection checks fire in FIFO order, which matches their shared delay. The `detectionDelay` value itself is not used.
  - The game loop's effect restarts whenever `players` or `stats` change (src/App.tsx:162). That resets `startTime` and the clock. The model takes `elapsed` as a parameter, so it does not capture this reset. In the source the win is detected in the frame after the last `markPlayerSafe`, which changed `players`, so the recorded completion time is the time since that change, about one frame, and not the round's length.
  - Re-entering `playing` re-runs the light effect. A resume therefore restarts the light from green with a fresh delay (`StartLights`), but the model does not tie `ResumeGame` to that call.
  - Effect cleanup, which cancels the light timeout and the animation frame, appears only as the `requires store.gameState == Playing` on `StartLights`, `SwitchLight`, `StartClock` and `GameLoopFrame`.
  - The source cancels neither the countdown's final timeout nor the detection checks. The model does not gate them either.
- Keyboard wiring: keys are looked up by their code in the source. The model addresses players by id instead.
- The `!meshRef.current` guard of the frame step is left out: the sphere is always mounted.
- Floating point: all quantities are `real`, so there are no rounding claims and no `toFixed` formatting.
- Randomness: `Math.random()` is the parameter `r`.
- Patches: `MergeSettings` and `MergeStats` model supplied and absent keys. A key supplied with the value `undefined`, which a spread would copy, is not modelled.
