# MazeBlock game logic in Dafny

MazeBlock is an Android sliding-block maze. A red token sits on a grid of tile
codes (0 floor, 1 wall, 2 goal). A fling moves it in one of four directions,
and it keeps sliding until the next cell is off the board or a wall, or until
it enters a goal. Entering a goal raises the level-complete flag. The game
loop then shows a victory screen for 90 ticks and calls back into the
activity. The activity records the next level as unlocked and loads it, or
returns to the menu after level 10.

This project models that game logic as pure functions over immutable values:

- `board.dfy` (module `Board`): tile codes, positions, directions and the
  rectangular-grid and bounds predicates used by the slide loop.
- `slide.dfy` (module `Resolver`): `movePlayer`. It is modelled twice: as the
  recursive function `Slide`, and as the loop `MovePlayer`, which follows the
  Kotlin loop statement for statement and is proved equal to `Slide`. A
  declarative stopping rule, `SlideStop`, is proved to describe exactly the
  outcome `Slide` computes.
- `levels.dfy` (module `Levels`): the ten level tables, kept as constant
  data, and `getLevel`, with proofs that every table is one the game can be
  loaded with.
- `session.dfy` (module `GameSession`): GameView's per-level state and its
  state changes: `setLevel`/`loadLevelData`, `onFling` (with the
  gesture-to-direction decision) and the per-tick `update`.
- `progress.dfy` (module `Progress`): GameActivity's `onLevelComplete`, the
  restart button, the stored highest-unlocked level (SharedPrefs) and the
  level-select enabling rule.
- `nullable.dfy` (module `Nullable`): an `Option` type for Kotlin's nullable
  values (the gesture's down event, the intent extra, a preference key that
  was never written) and the elvis operator `?:`.

The wall clock (`System.currentTimeMillis`) is a `now: int` parameter of
every operation that reads it. The callback that `update` posts to the UI
thread is the `signal` flag that `Update` returns. `Progress.Tick` runs that
callback at once in the same step. Kotlin `Int` wrap-around is modelled for
`currentLevelId + 1` (`Progress.Succ`).

Notes on behaviour, following the code:

- There is no animation or interpolation. `movePlayer` assigns the final cell
  directly, so the model has no animated position and no separate sliding
  state.
- Levels are not validated when they are loaded; the code has no such check.
  Instead, the model proves that all ten tables are rectangular, have the
  start cell (1,1) on the board and off a wall, and contain a goal
  (`Levels.LevelsPlayable`).
- The start cell's own tile is never inspected. A slide only inspects the cells
  it steps into (`Resolver.StartTileIgnored`).

## Model

| member | source | states |
|---|---|---|
| `Resolver.Slide` | app/src/main/java/com/example/mazeblock/game/GameView.kt:227-250 | The token moves only along the swipe direction and never backwards. It ends where it started or on a cell that is on the board and not a wall. Every cell strictly before the last one is neither wall nor goal. The goal flag is raised exactly when the token moved and stopped on a goal. A slide that did not end on a goal cannot go one cell further. A blocked neighbour leaves the position unchanged and the flag down. |
| `Resolver.SlideCharacterized` | app/src/main/java/com/example/mazeblock/game/GameView.kt:231-246 | For every outcome `o`: the slide yields `o` if and only if `o` satisfies the declarative stopping rule. That rule says the cells before `o` are passed through, and either `o` is the first goal entered or the cell after `o` is off the board or a wall. |
| `Resolver.SlideStopUnique` | app/src/main/java/com/example/mazeblock/game/GameView.kt:231-249 | The stopping rule has at most one solution: any outcome satisfying it is the one the loop computes (proved by induction on the distance travelled). |
| `Resolver.ReapplyIsNoOp` | app/src/main/java/com/example/mazeblock/game/GameView.kt:235-249 | Swiping the same way again after a slide that did not end on a goal leaves the token where it is, and the flag stays down. |
| `Resolver.StartTileIgnored` | app/src/main/java/com/example/mazeblock/game/GameView.kt:231-244 | Changing the tile under the start cell to any code does not change the slide's outcome, so starting on a goal does not count as reaching it. |
| `Resolver.RoomSlides` | app/src/main/java/com/example/mazeblock/game/GameView.kt:227-250 | Worked example on a walled 4 by 4 room: floor slides stop against the wall, and the slide into the goal stops on it with the flag raised. |
| `Resolver.MovePlayer` | app/src/main/java/com/example/mazeblock/game/GameView.kt:227-250 | The while-loop, with the same bounds, wall and goal tests in the same order, returns exactly the final cell and goal flag of `Slide`. |
| `Levels.GetLevel` | app/src/main/java/com/example/mazeblock/game/GameView.kt:254-268 | Numbers 1 to 10 select tables 1 to 10, and any other number selects level 1. Whatever the number, the table returned is rectangular, has (1,1) on the board and off a wall, and holds a goal. |
| `Levels.LevelsPlayable` | app/src/main/java/com/example/mazeblock/game/GameView.kt:270-498 | All ten tables are non-empty and rectangular, have the hard-coded start (1,1) on the board and off a wall, and contain at least one goal cell. |
| `Levels.Level1Playable` | app/src/main/java/com/example/mazeblock/game/GameView.kt:270-282 | Level 1 (10 by 10) is rectangular, has (1,1) on the board and off a wall, and has a goal cell (witness (7,8)). |
| `Levels.Level2Playable` | app/src/main/java/com/example/mazeblock/game/GameView.kt:284-298 | Level 2 (12 by 12) is rectangular, has (1,1) on the board and off a wall, and has a goal cell (witness (10,10)). |
| `Levels.Level3Playable` | app/src/main/java/com/example/mazeblock/game/GameView.kt:300-316 | Level 3 (14 by 14) is rectangular, has (1,1) on the board and off a wall, and has a goal cell (witness (11,12)). |
| `Levels.Level4Playable` | app/src/main/java/com/example/mazeblock/game/GameView.kt:318-336 | Level 4 (16 by 16) is rectangular, has (1,1) on the board and off a wall, and has a goal cell (witness (13,14)). |
| `Levels.Level5Playable` | app/src/main/java/com/example/mazeblock/game/GameView.kt:338-358 | Level 5 (18 by 18) is rectangular, has (1,1) on the board and off a wall, and has a goal cell (witness (8,9)). |
| `Levels.Level6Playable` | app/src/main/java/com/example/mazeblock/game/GameView.kt:360-382 | Level 6 (20 by 20) is rectangular, has (1,1) on the board and off a wall, and has a goal cell (witness (18,1)). |
| `Levels.Level7Playable` | app/src/main/java/com/example/mazeblock/game/GameView.kt:384-408 | Level 7 (22 by 22) is rectangular, has (1,1) on the board and off a wall, and has a goal cell (witness (20,9)). |
| `Levels.Level8Playable` | app/src/main/java/com/example/mazeblock/game/GameView.kt:410-436 | Level 8 (24 by 24) is rectangular, has (1,1) on the board and off a wall, and has a goal cell (witness (23,22)). |
| `Levels.Level9Playable` | app/src/main/java/com/example/mazeblock/game/GameView.kt:438-466 | Level 9 (26 by 26) is rectangular, has (1,1) on the board and off a wall, and has a goal cell (witness (25,1)). |
| `Levels.Level10Playable` | app/src/main/java/com/example/mazeblock/game/GameView.kt:468-498 | Level 10 (28 by 28) is rectangular, has (1,1) on the board and off a wall, and has a goal cell (witness (27,26)). |
| `GameSession.LoadLevelData` | app/src/main/java/com/example/mazeblock/game/GameView.kt:62-80 | Loading installs the level's table and puts the player on (1,1). For any level number, that cell is on the board and not a wall. Loading restarts the clock and leaves the level number, the completion flag and the transition timer alone. |
| `GameSession.NewSession` | app/src/main/java/com/example/mazeblock/game/GameView.kt:48-53 | The intended constructor: a new view holds its start level's table (level 1's for an unknown number), with the player at (1,1), not complete, timer 0, the clock started at `now` and elapsed time 0. It satisfies the session invariant. |
| `GameSession.LevelField` | app/src/main/java/com/example/mazeblock/game/GameView.kt:254-271 | A level property reads as its table exactly when its initialiser has run, and as null before that. |
| `GameSession.ConstructView` | app/src/main/java/com/example/mazeblock/game/GameView.kt:20-53 | The constructor's field defaults followed by `loadLevelData(startLevel)`: the map is whatever the level property holds at that moment, the player is at (1,1), the flag is down, the timer is 0 and the clock starts at `now`. |
| `GameSession.MapSize` | app/src/main/java/com/example/mazeblock/game/GameView.kt:91-93 | Reading `map.size`, as `calculateDimensions` and `movePlayer` do first, throws exactly when the map is null, and otherwise gives the number of rows. |
| `GameSession.ConstructorLeavesMapNull` | app/src/main/java/com/example/mazeblock/game/GameView.kt:48-53 | As written, the `init` block runs before the level tables are initialised. So for every start level the constructed view has a null map, the first read of `map.size` throws, and the view differs from `NewSession`. |
| `GameSession.NewSessionIsConstructorInOrder` | app/src/main/java/com/example/mazeblock/game/GameView.kt:48-53 | With the tables initialised before the `init` block, the constructor yields exactly `NewSession`, and its map has the level's row count. |
| `GameSession.SetLevel` | app/src/main/java/com/example/mazeblock/game/GameView.kt:55-60 | From any state, the result is level `newLevel` with its table, the player at (1,1), the flag down, timer 0, elapsed time 0 and the clock restarted. The session invariant holds. |
| `GameSession.Move` | app/src/main/java/com/example/mazeblock/game/GameView.kt:242-249 | The player lands where the resolver says. The flag is never cleared, and it is raised exactly when the player moved onto a goal. No other field changes. From a valid session that is not complete, the result is valid. |
| `GameSession.FlingDirection` | app/src/main/java/com/example/mazeblock/game/GameView.kt:210-223 | A direction is chosen only on the dominant axis: horizontal exactly when `abs(dx) > abs(dy)`, so ties go vertical. Both distance and velocity on that axis must exceed 100. The sign of the displacement picks Right or Left and Down or Up. Conversely, whenever the dominant axis meets both thresholds, that axis's direction is chosen. |
| `GameSession.FlingMirrorSymmetric` | app/src/main/java/com/example/mazeblock/game/GameView.kt:213-223 | Mirroring a fling left to right (x coordinates and x velocity negated) mirrors the chosen direction. |
| `GameSession.FlingDiagonalGoesVertical` | app/src/main/java/com/example/mazeblock/game/GameView.kt:213-222 | On an exact diagonal the decision never picks Left or Right. A long enough, fast enough downward diagonal fling goes Down. |
| `GameSession.OnFling` | app/src/main/java/com/example/mazeblock/game/GameView.kt:207-225 | A complete level ignores flings. Otherwise a fling with a decided direction makes exactly the move in that direction, and a fling with none changes nothing. The session invariant is preserved. |
| `GameSession.Update` | app/src/main/java/com/example/mazeblock/game/GameView.kt:110-125 | The signal fires exactly on a completed tick that takes the timer past 90, and it then clears the flag and the timer. Other completed ticks add one to the timer. Elapsed time is frozen while complete. A tick that starts not complete only sets elapsed time to clock minus level start, so it never raises the flag or signals. A tick never moves the player or changes the level. The invariant keeps the timer within 0..90. |
| `GameSession.Ticks` | app/src/main/java/com/example/mazeblock/game/GameView.kt:110-125 | A run of ticks never moves the player or changes the level or its table, and it keeps the session invariant. |
| `GameSession.DwellIsSilent` | app/src/main/java/com/example/mazeblock/game/GameView.kt:111-114 | On the victory screen with timer `t`, each of the next `90 - t` ticks only raises the timer. No signal fires, and the player and elapsed time stay frozen. |
| `GameSession.SignalAfterDwell` | app/src/main/java/com/example/mazeblock/game/GameView.kt:111-120 | After a goal is reached, the first 90 ticks post nothing and the 91st posts the signal exactly once. The result is the same session with the flag cleared. |
| `GameSession.ElapsedNeverDecreases` | app/src/main/java/com/example/mazeblock/game/GameView.kt:121-124 | When the clock never runs backwards, the displayed elapsed time never decreases over any run of ticks. |
| `Progress.Succ` | app/src/main/java/com/example/mazeblock/GameActivity.kt:77 | `currentLevelId + 1` on Kotlin `Int`: one more for every value except the largest, which wraps to the smallest. |
| `Progress.GetHighestUnlockedLevel` | app/src/main/java/com/example/mazeblock/game/SharedPrefs.kt:15-17 | The stored record, or 1 when it was never written. |
| `Progress.SetHighestUnlockedLevel` | app/src/main/java/com/example/mazeblock/game/SharedPrefs.kt:20-22 | After a write, reading returns the value written. |
| `Progress.RecordProgress` | app/src/main/java/com/example/mazeblock/GameActivity.kt:78-83 | The record becomes the larger of the old record and the next level. Nothing is written when the old record is already at least the next level. |
| `Progress.OnCreate` | app/src/main/java/com/example/mazeblock/GameActivity.kt:30-34 | The activity starts on the intent's level, or on 1 when there is none. Its view is exactly `NewSession` on that level: that level's table, the player at (1,1), not complete. |
| `Progress.OnLevelComplete` | app/src/main/java/com/example/mazeblock/GameActivity.kt:76-93 | The record becomes max(old record, current + 1), so it never drops. When the next level is at most 10, it becomes current and the view is reset to it. Otherwise the activity finishes and the level number and view are unchanged. The view keeps showing the activity's level. |
| `Progress.Restart` | app/src/main/java/com/example/mazeblock/GameActivity.kt:55-58 | A restart reloads the current level through `setLevel` and leaves stored progress and the level number alone. A restart on the victory screen therefore cancels the pending level-complete signal. |
| `Progress.Tick` | app/src/main/java/com/example/mazeblock/game/GameView.kt:110-120 | One tick with the activity as host runs `onLevelComplete` exactly when `update` posts the signal. The record never drops, and the view stays valid and in step with the activity's level. |
| `Progress.CompletionUnlocks` | app/src/main/java/com/example/mazeblock/LevelSelectActivity.kt:44 | A level enabled in the menu before a completion stays enabled after it, and the level after the completed one becomes enabled. |
| `Progress.LastLevelStoresBeyondCount` | app/src/main/java/com/example/mazeblock/GameActivity.kt:77-91 | Completing level 10 with a record of at most 10 stores 11, one past the last level, and finishes the activity. |
| `Progress.Completions` | app/src/main/java/com/example/mazeblock/GameActivity.kt:76-93 | Over any number of completions the record never drops, and the view stays valid and in step with the activity's level. |
| `Progress.CompletionsStayInRange` | app/src/main/java/com/example/mazeblock/GameActivity.kt:86-88 | Starting on a level in 1..10, any number of completions keeps the level number in 1..10 and never lowers the record. After at least one completion the record exceeds the level it started on. |

## Left out

- `GameSession.NewSession`: models the constructor as evidently intended, with the level tables loaded. As written, the constructor leaves `map` null (see Findings).
- `Progress.OnCreate`: builds its view with `GameSession.NewSession`, so it starts from the intended constructor and not from the null map the written one produces (see Findings).

- `Resolver.Slide`: requires a rectangular grid. On a ragged grid the Kotlin code could index past the end of a short row and throw; the model does not represent that exception. Every shipped table is rectangular (`Levels.LevelsPlayable`).
- `movePlayer` takes arbitrary `(dRow, dCol)` integers, but `onFling` only calls it with the four unit directions, so the model has a four-valued `Direction`.
- Rendering: `draw` and `calculateDimensions` (GameView.kt:90-104, 127-177) are floating-point layout and canvas calls with no game logic.
- Thread lifecycle: `pause`/`resume`, the `GameThread` class (GameThread is not part of this model) and the surface callbacks. Concurrency is not modelled either. `onFling` on the UI thread and `update` on the game thread share fields without synchronisation, and `runOnUiThread` delays `onLevelComplete`. `Progress.Tick` runs the callback immediately, in the same step as the tick.
- The wall clock is a parameter. The 64-bit `Long` arithmetic of `currentTime` is not wrapped.
- Gesture coordinates and velocities are Kotlin `Float`. They are modelled as exact reals, so NaN, infinities and rounding are not represented. The gesture-detector callbacks other than `onFling` return constants and are left out, as is `onFling`'s constant `true` result.
- After `finish()` the activity is being destroyed. The model records `finished` but makes no claim about later ticks or flings.
- LevelSelectActivity builds buttons; only its enabling rule (`Progress.LevelEnabled`) is modelled. It calls `SharedPrefs.getHighestLevel`, which SharedPrefs does not define. The model reads the record through `getHighestUnlockedLevel`, the only getter that exists.
- Fullscreen setup, the restart button's layout and intents are Android plumbing.

## Findings

| source | as written | input that shows it | evidently intended | confidence | as-written member | corrected member |
|---|---|---|---|---|---|---|
| app/src/main/java/com/example/mazeblock/game/GameView.kt:48-53 | The `init` block calls `loadLevelData` → `getLevel` before the properties `level1`..`level10` (GameView.kt:271-498) are initialised, since Kotlin runs initialisers and `init` blocks in textual order. So `map` is set to null. | Any start level, e.g. `GameView(context, 1)`. Then `surfaceChanged` → `calculateDimensions` reads `map.isEmpty()`, or a fling reads `map.size` in `movePlayer`, and either throws a NullPointerException. | The view holds `getLevel(startLevel)` from construction on. | high, not executed | `GameSession.ConstructorLeavesMapNull` | `GameSession.NewSession` |
