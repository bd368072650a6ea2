# Car race: a verified model of the game core

This project models the core of a browser car-racing game written in
TypeScript. The player steers a car along a three-lane, 400-pixel road. Traffic
cars, oil slicks and broken-down cars come towards the player. Fuel cans, boosts
and coins can be picked up. Points come from distance and pickups. A collision
with an obstacle costs one of three lives. Every 100 units of distance raise the
level, which speeds up the road.

The model covers these parts:

- **Engine** (`engine.dfy`): the engine class `GameEngine`, with the same fields
  updated in place. Each of its methods is proved to end in the state computed
  by a pure step function in **EngineSpec** (`engine_spec.dfy`). The properties
  of those functions are lemmas in **EngineProperties** (`engine_props.dfy`):
  - the invariant every frame keeps;
  - that game over freezes the game;
  - velocity, road and level bounds;
  - what a crash and a pickup do;
  - which achievements the statistics can reach.
- **CollisionDetector** (`collision.dfy`): the rectangle-overlap, point and circle tests.
- **InputHandling** (`input_handler.dfy`): the key set driven by keyboard and
  touch events, and `getInput`.
- **GameContext** (`game_context.dfy`): the statistics merge
  `{ ...prev, ...updates }` and the achievement check of the React context.
- **AchievementsData** (`achievements.dfy`) and **CarsData** (`cars.dfy`): the
  two constant tables.
- **CarSelection** (`car_selection.dfy`): the wrap-around car picker.
- **App** (`app.dfy`): the screen state machine of the top-level component
  (menu, car selection, playing, game over, leaderboard, achievements).
- **ColorAdjust** (`color.dfy`): the renderer's `adjustColor`, which parses
  `#rrggbb`, shifts each channel and clamps it, then writes the colour back.
- **GameTypes** (`types.dfy`) and **Wrappers** (`wrappers.dfy`): the records
  and `Option`.

Every call to `Math.random()` becomes a parameter in `[0, 1)`. The draws of
one frame are grouped in `TickDraws`. The clock is the `currentTime`
argument of `GameLoop` and the `now` argument of `Start`. The engine's
callbacks (`onScoreUpdate`, `onLivesUpdate`, `onLevelUpdate`, `onGameOver`,
`playSound`, `updateStats`) are not called. Instead they are appended, in call
order, to an event log `events`; the lemmas count and inspect that log.

Three behaviours of the code a reader may not expect; the model follows the
code:

- **The displayed score can drop.** Each frame sets the score to
  `floor(distance * 10) + 50 * fuel + 100 * boosts`. A fuel can adds 50 to the
  score and a boost adds 0, but the formula counts 50 and 100 for them. A coin
  adds 100, which the formula does not count. So a coin's points are gone one
  frame later. `UpdateMotion` proves that the formula never goes down in a
  frame of non-negative length; the displayed score is not claimed monotone.
- **The first frame runs backwards.** `start()` sets `lastTime` to the clock
  and then calls `gameLoop()` with its default time 0, so the first frame
  runs for `-now`. `StartRunsBackwards` shows the road offset going negative.
  Every property that needs forward time therefore asks for `dt >= 0`.
- **The crash-free achievements can never be unlocked.** `handleCrash` resets
  the crash-free distance before it sends it as `longestNoCrashDistance`, so
  the value sent is always 0. No other statistics update sends that field, so
  "Road Warrior" and "Survivor" can never hold (`NoCrashAchievementsUnreachable`).
  Beyond that, no component calls the context's `checkAchievements`
  (src/contexts/GameContext.tsx:47-62), so the running app unlocks no
  achievement at all. The other four are reachable only through a caller
  outside this code; `CheckAchievements` models what such a call would do.

## Model

| member | source | states |
|---|---|---|
| CarsData.Find | src/game/GameEngine.ts:67 | `cars.find` by id: a result is a table entry with that id; no result means no entry has the id |
| CarsData.CarFor | src/game/GameEngine.ts:67 | the car chosen for an id is always a table entry; it has the id when some entry does, and is the first car when none does |
| CarsData.CarForIsFind | src/game/GameEngine.ts:67 | the lookup equals `find` with the first car as fallback |
| CarsData.CarIdsDistinct | src/data/cars.ts:3-52 | the table has six cars with pairwise distinct ids |
| CarsData.CarProfilesValid | src/data/cars.ts:3-52 | every rating is in [5, 10] and every colour is `#` plus six hex digits |
| CarsData.CarForListedId | src/data/cars.ts:3-52 | looking up a listed car's id gives that car |
| AchievementsData.Holds | src/data/achievements.ts:10-50 | definition; its properties are `TableConditions`, `ConditionMonotone`, `SurvivorImpliesFirst5km` |
| AchievementsData.TableShape | src/data/achievements.ts:3-52 | six achievements with distinct ids, none unlocked and none with an unlock date |
| AchievementsData.TableConditions | src/data/achievements.ts:10-50 | the id, the statistic and the threshold of each of the six conditions |
| AchievementsData.ConditionMonotone | src/data/achievements.ts:10-50 | raising statistics never falsifies a satisfied condition |
| AchievementsData.SurvivorImpliesFirst5km | src/data/achievements.ts:10-42 | a player who has earned "survivor" has also earned "first-5km" |
| CollisionDetector.CheckCollision | src/game/CollisionDetector.ts:9-16 | definition; its properties are `CollisionSymmetric`, `TouchingEdgesDoNotCollide`, `SelfCollision`, `CollisionTranslationInvariant`, `CollisionIffCommonInterior` |
| CollisionDetector.CheckCircleCollision | src/game/CollisionDetector.ts:18-26 | definition; its properties are `CircleCollisionBySqrt`, `CircleCollisionSymmetric`, `TangentCirclesDoNotCollide` |
| CollisionDetector.CheckPointInRectangle | src/game/CollisionDetector.ts:28-35 | definition; its properties are `CornersInside`, `EdgePointsInside`, `PointTestIsClosed` |
| CollisionDetector.CollisionSymmetric | src/game/CollisionDetector.ts:9-16 | the overlap test is symmetric |
| CollisionDetector.TouchingEdgesDoNotCollide | src/game/CollisionDetector.ts:9-16 | rectangles that only share an edge do not collide (strict comparisons) |
| CollisionDetector.SelfCollision | src/game/CollisionDetector.ts:9-16 | a rectangle collides with itself exactly when it has positive width and height |
| CollisionDetector.CollisionTranslationInvariant | src/game/CollisionDetector.ts:9-16 | moving both rectangles by the same offset does not change the outcome |
| CollisionDetector.CollisionIffCommonInterior | src/game/CollisionDetector.ts:9-16 | for positive sizes, the test holds exactly when some point is strictly inside both rectangles |
| CollisionDetector.CornersInside | src/game/CollisionDetector.ts:28-35 | the four corners of a rectangle pass the point test |
| CollisionDetector.EdgePointsInside | src/game/CollisionDetector.ts:28-35 | every point on an edge passes the point test |
| CollisionDetector.PointTestIsClosed | src/game/CollisionDetector.ts:9-35 | interior points are inside; a zero-size box collides exactly with the interior; an edge point is inside but does not collide |
| CollisionDetector.CircleCollisionBySqrt | src/game/CollisionDetector.ts:18-26 | for the square root `d` of the squared distance, the circle test is `d < r1 + r2` |
| CollisionDetector.CircleCollisionSymmetric | src/game/CollisionDetector.ts:18-26 | the circle test is symmetric |
| CollisionDetector.TangentCirclesDoNotCollide | src/game/CollisionDetector.ts:18-26 | circles exactly `r1 + r2` apart do not collide |
| InputHandling.KeyDownKeys | src/game/InputHandler.ts:21-27 | definition; its properties are `KeyDownAddsRecognised`, `KeyDownLowerCases`, `KeyUpUndoesKeyDown` |
| InputHandling.KeyUpKeys | src/game/InputHandler.ts:29-32 | definition; its properties are `KeyUpRemovesOnly`, `KeyUpUndoesKeyDown` |
| InputHandling.TouchMoveKeys | src/game/InputHandler.ts:47-69 | definition; its properties are `TouchMoveDirections`, `TouchNeverSteersBothWays`, `TouchMoveKeepsValid` |
| InputHandling.InputOf | src/game/InputHandler.ts:78-85 | definition; its properties are `InputDirections`, `TouchNeverSteersBothWays` |
| InputHandling.InputHandler.GetInput | src/game/InputHandler.ts:78-85 | definition: `InputOf` of the held keys; its properties are `InputDirections` |
| InputHandling.ToLower | src/game/InputHandler.ts:22 | `toLowerCase` keeps the length, maps `A`-`Z` to lower case and keeps every other character |
| InputHandling.Swipe | src/game/InputHandler.ts:54-69 | no direction for an offset within [-10, 10]; otherwise the direction of the offset's sign |
| InputHandling.InputHandler.constructor | src/game/InputHandler.ts:2-8 | no keys held and no touch origin |
| InputHandling.InputHandler.HandleKeyDown | src/game/InputHandler.ts:21-27 | the key set becomes the key-down set; only recognised keys are ever held |
| InputHandling.InputHandler.HandleKeyUp | src/game/InputHandler.ts:29-32 | the lower-cased key is removed; the touch origin is kept |
| InputHandling.InputHandler.HandleTouchStart | src/game/InputHandler.ts:34-38 | the touch origin becomes the touch point; the keys are kept |
| InputHandling.InputHandler.HandleTouchMove | src/game/InputHandler.ts:40-70 | no change when either origin coordinate is null or 0; otherwise the arrows follow the offset from the origin |
| InputHandling.InputHandler.HandleTouchEnd | src/game/InputHandler.ts:72-76 | no keys held and no touch origin |
| InputHandling.KeyDownAddsRecognised | src/game/InputHandler.ts:21-27 | key-down adds at most the lowered key, and adds it exactly when it is recognised; the held keys stay recognised |
| InputHandling.KeyDownLowerCases | src/game/InputHandler.ts:21-27 | `W` holds `w`, `ArrowUp` holds `arrowup`, `Enter` holds nothing |
| InputHandling.KeyUpRemovesOnly | src/game/InputHandler.ts:29-32 | key-up removes the lowered key and keeps every other key |
| InputHandling.KeyUpUndoesKeyDown | src/game/InputHandler.ts:21-32 | releasing a key that was not held before its press restores the key set |
| InputHandling.TouchMoveDirections | src/game/InputHandler.ts:47-69 | letters are kept; never both horizontal or both vertical arrows; each arrow exactly when the offset exceeds 10 in its direction |
| InputHandling.TouchNeverSteersBothWays | src/game/InputHandler.ts:47-85 | without `a`/`d` held, touch input never asks for left and right at once |
| InputHandling.TouchMoveKeepsValid | src/game/InputHandler.ts:47-69 | a touch move keeps the held keys within the recognised ones |
| InputHandling.InputDirections | src/game/InputHandler.ts:78-85 | each direction is on exactly when its arrow or its letter is held |
| GameContext.MergeAll | src/contexts/GameContext.tsx:43-45 | definition; its properties are `NoCrashDistanceStaysZero`, `EngineProperties.NoCrashAchievementsUnreachable` |
| GameContext.MergeStats | src/contexts/GameContext.tsx:43-45 | the fields the update carries overwrite; the others keep their previous value |
| GameContext.StatsExtensional | src/types/game.ts:51-58 | statistics that agree on every field are equal |
| GameContext.Combine | src/contexts/GameContext.tsx:43-45 | the combined update carries a field exactly when either update does |
| GameContext.MergeEmpty | src/contexts/GameContext.tsx:43-45 | an empty update changes nothing |
| GameContext.MergeIdempotent | src/contexts/GameContext.tsx:43-45 | the same update twice equals once |
| GameContext.MergeCompose | src/contexts/GameContext.tsx:43-45 | two updates in a row equal one combined update |
| GameContext.MergeOverwrites | src/contexts/GameContext.tsx:43-45 | a carried field's result does not depend on its old value (no accumulation) |
| GameContext.NoCrashDistanceStaysZero | src/contexts/GameContext.tsx:43-45 | updates that never send a positive crash-free distance keep it at 0, so "first-5km" and "survivor" never hold |
| GameContext.NewlyUnlocked | src/contexts/GameContext.tsx:48-54 | the filter result is no longer than the table |
| GameContext.NewlyUnlockedMembers | src/contexts/GameContext.tsx:48-54 | the filter keeps exactly the entries that are not yet unlocked and whose condition holds |
| GameContext.NewlyUnlockedDistinct | src/contexts/GameContext.tsx:48-54 | filtering a table with distinct ids gives distinct ids |
| GameContext.MarkUnlocked | src/contexts/GameContext.tsx:59 | each entry is kept, marked unlocked and dated `now` |
| GameContext.CheckAchievementsSpec | src/contexts/GameContext.tsx:47-62 | definition; its properties are `CheckAchievementsKeepsPrefix`, `CheckAchievementsAppends`, `CheckAchievementsNoneQualify`, `CheckAchievementsDistinct`, `CheckAchievementsTwice` |
| GameContext.CheckAchievementsKeepsPrefix | src/contexts/GameContext.tsx:47-62 | the old list is kept as a prefix; every appended entry is unlocked and dated `now` |
| GameContext.CheckAchievementsAppends | src/contexts/GameContext.tsx:47-62 | an achievement's id is appended exactly when it qualifies |
| GameContext.CheckAchievementsNoneQualify | src/contexts/GameContext.tsx:56-61 | when nothing qualifies the list is unchanged |
| GameContext.CheckAchievementsDistinct | src/contexts/GameContext.tsx:47-62 | distinct unlocked ids stay distinct |
| GameContext.CheckAchievementsTwice | src/contexts/GameContext.tsx:47-62 | a second check with the same statistics appends nothing |
| GameContext.GameContextState.constructor | src/contexts/GameContext.tsx:15-33 | the saved values when storage has them, otherwise initial statistics and an empty list |
| GameContext.GameContextState.UpdateStats | src/contexts/GameContext.tsx:43-45 | statistics become the merge; achievements are kept |
| GameContext.GameContextState.CheckAchievements | src/contexts/GameContext.tsx:47-62 | the unlocked list becomes the check's result; statistics are kept |
| GameContext.GameContextState.ResetStats | src/contexts/GameContext.tsx:64-69 | initial statistics and no achievements |
| CarSelection.JsRem | src/components/CarSelection.tsx:15-19 | JavaScript `%`: the remainder takes the sign of the dividend and is smaller in size than the divisor |
| CarSelection.JsRemNonNegative | src/components/CarSelection.tsx:15-19 | for a non-negative dividend it is the mathematical remainder |
| CarSelection.Previous | src/components/CarSelection.tsx:14-16 | definition; its properties are `StepsStayInRange`, `StepsAreInverse`, `StepsWrap` |
| CarSelection.Next | src/components/CarSelection.tsx:18-20 | definition; its properties are `StepsStayInRange`, `StepsAreInverse`, `StepsWrap`, `NextOfRemainder`, `StepsCycle` |
| CarSelection.StepsStayInRange | src/components/CarSelection.tsx:14-20 | previous and next keep the index within the table |
| CarSelection.StepsAreInverse | src/components/CarSelection.tsx:14-20 | previous undoes next and next undoes previous |
| CarSelection.StepsWrap | src/components/CarSelection.tsx:14-20 | previous from the first car gives the last car, and next from the last gives the first; in between they step by one |
| CarSelection.NextOfRemainder | src/components/CarSelection.tsx:18-20 | next of a remainder is the remainder of the successor |
| CarSelection.StepsCycle | src/components/CarSelection.tsx:18-20 | pressing next `k` times advances `k` places modulo six |
| CarSelection.CarSelectionState.constructor | src/components/CarSelection.tsx:12 | the picker starts at index 0 |
| CarSelection.CarSelectionState.HandlePrevious | src/components/CarSelection.tsx:14-16 | the index becomes its predecessor and stays in range |
| CarSelection.CarSelectionState.HandleNext | src/components/CarSelection.tsx:18-20 | the index becomes its successor and stays in range |
| CarSelection.CarSelectionState.CurrentCar | src/components/CarSelection.tsx:22 | the shown car is a table entry |
| CarSelection.CarSelectionState.Select | src/components/CarSelection.tsx:121 | the passed id is exactly the shown car's id, and the engine's lookup of it finds the shown car |
| App.Step | src/App.tsx:25-114 | definition; its properties are `StartGameEffect`, `SelectCarEffect`, `RestartEffect`, `MenuAndGameOverEffect`, `KeyPressEffect`, `KeyPressTwice`, `ToggleDayNightEffect`, `StepKeepsInv` |
| App.Enabled | src/App.tsx:74-134 | definition of which handlers each screen offers (the engine's score callback also on the game-over screen, see `EngineProperties.ScoreReportedAfterGameEnd`); its properties are `StepKeepsInv`, `RunKeepsInv` |
| App.Inv | src/App.tsx:16-125 | definition; its properties are `InitialState`, `StepKeepsInv`, `RunKeepsInv`, `StartFromMenuSelectsCar` |
| App.InitialState | src/App.tsx:16-22 | menu, no car, score 0, three lives, level 1, not paused, day mode; the invariant holds |
| App.StepKeepsInv | src/App.tsx:35-125 | every handler a screen offers keeps the invariant (playing and game over always have a car), including the score callback that arrives on the game-over screen |
| App.RunKeepsInv | src/App.tsx:16-125 | every reachable state satisfies the invariant |
| App.StartGameEffect | src/App.tsx:35-45 | without a car, start opens car selection only; with one, play starts with fresh counters |
| App.StartFromMenuSelectsCar | src/App.tsx:35-45 | from a reachable menu, start always opens car selection |
| App.SelectCarEffect | src/App.tsx:47-50 | the car is recorded and play starts without resetting the counters |
| App.RestartEffect | src/App.tsx:56-62 | restart resets the counters and the pause, enters play and keeps the car |
| App.MenuAndGameOverEffect | src/App.tsx:52-54 | back-to-menu clears the car; game over shows the game-over screen and nothing else changes |
| App.KeyPressEffect | src/App.tsx:25-29 | the pause flips exactly for space while playing; nothing else changes |
| App.KeyPressTwice | src/App.tsx:25-29 | the same key twice changes nothing |
| App.ToggleDayNightEffect | src/App.tsx:79 | the toggle negates day mode only; twice is no change |
| App.App.constructor | src/App.tsx:16-22 | the initial state |
| App.App.HandleKeyPress | src/App.tsx:25-29 | the state becomes the key-press step |
| App.App.StartGame | src/App.tsx:35-45 | the state becomes the start step |
| App.App.HandleCarSelect | src/App.tsx:47-50 | the state becomes the car-select step |
| App.App.HandleGameOver | src/App.tsx:52-54 | the state becomes the game-over step |
| App.App.RestartGame | src/App.tsx:56-62 | the state becomes the restart step |
| App.App.BackToMenu | src/App.tsx:64-67 | the state becomes the back-to-menu step |
| App.App.ShowLeaderboard | src/App.tsx:77 | the state becomes the leaderboard step |
| App.App.ShowAchievements | src/App.tsx:78 | the state becomes the achievements step |
| App.App.ToggleDayNight | src/App.tsx:79 | the state becomes the day/night step |
| App.App.TogglePause | src/App.tsx:98 | the state becomes the HUD pause step |
| App.App.Resume | src/App.tsx:111 | the state becomes the resume step |
| App.App.SetScore | src/App.tsx:104 | the state becomes the score-callback step |
| App.App.SetLives | src/App.tsx:105 | the state becomes the lives-callback step |
| App.App.SetLevel | src/App.tsx:106 | the state becomes the level-callback step |
| ColorAdjust.ParseInt16 | src/game/Renderer.ts:247 | definition; its properties are `ParseHexDigits`, `HexColorNumber` |
| ColorAdjust.ShiftRight8 | src/game/Renderer.ts:249 | definition; its properties are `UnpackBytes`, `SourceChannelsOfHexColor` |
| ColorAdjust.ShiftRight16 | src/game/Renderer.ts:248 | definition; its properties are `UnpackBytes`, `SourceChannelsOfHexColor` |
| ColorAdjust.PadStart | src/game/Renderer.ts:251 | definition; its properties are `PaddedRadixIsFixedHex`, `PackedIsSixDigits` |
| ColorAdjust.HexValue | src/game/Renderer.ts:247 | definition; its properties are `HexValueBound`, `HexValueOfFixedHex`, `FixedHexOfHexValue`, `ParseHexDigits`, `SixDigitsAsPairs` |
| ColorAdjust.ParseAfterFirstUnit | src/game/Renderer.ts:247 | definition of `parseInt(color.slice(1), 16)`, with `slice(1)` removing one UTF-16 unit; its properties are `AstralFirstCharacterReadsBlack`, `SourceChannelsOfHexColor` |
| ColorAdjust.SourceChannels | src/game/Renderer.ts:247-250 | definition; its properties are `SourceChannelsOfHexColor`, `FormatColorReadsBack`, `AdjustColorChannels`, `AstralFirstCharacterReadsBlack` |
| ColorAdjust.AstralFirstCharacterReadsBlack | src/game/Renderer.ts:247-252 | a first character above U+FFFF leaves a lone surrogate after `slice(1)`, so the colour reads as NaN, i.e. black, and the result is black adjusted |
| ColorAdjust.DigitValue | src/game/Renderer.ts:247 | a hex digit's value is below 16 |
| ColorAdjust.HexChar | src/game/Renderer.ts:251 | `toString(16)` writes a lower-case digit whose value is the given number |
| ColorAdjust.LowerDigit | src/game/Renderer.ts:251 | lower-casing a digit keeps its value |
| ColorAdjust.LowerHex | src/game/Renderer.ts:251 | lower-casing a digit string keeps its length and lowers each digit |
| ColorAdjust.Pow16 | src/game/Renderer.ts:247 | powers of 16 are positive |
| ColorAdjust.FixedHex | src/game/Renderer.ts:251 | the fixed-width encoding has exactly the width, in lower-case digits |
| ColorAdjust.TrimStart | src/game/Renderer.ts:247 | `parseInt` skips leading white space: the rest starts with a non-space |
| ColorAdjust.HexPrefix | src/game/Renderer.ts:247 | `parseInt` reads the longest prefix of hex digits |
| ColorAdjust.ToInt32 | src/game/Renderer.ts:248-250 | the 32-bit conversion of the shift operands lands in the signed 32-bit range |
| ColorAdjust.LowByte | src/game/Renderer.ts:249-250 | `& 0xFF` gives a byte |
| ColorAdjust.Clamp | src/game/Renderer.ts:248-250 | `max(0, min(255, v))`: a byte, equal to `v` inside the range, 0 below it and 255 above it |
| ColorAdjust.RadixString16 | src/game/Renderer.ts:251 | `toString(16)` is a non-empty string of lower-case digits |
| ColorAdjust.Repeat | src/game/Renderer.ts:251 | the padding has the requested length and only the fill character |
| ColorAdjust.Adjusted | src/game/Renderer.ts:248-250 | the three clamped channels are bytes |
| ColorAdjust.Pack | src/game/Renderer.ts:251 | packing three bytes gives a number below 2^24 |
| ColorAdjust.FormatColor | src/game/Renderer.ts:251 | the written colour is `#` plus six lower-case hex digits |
| ColorAdjust.AdjustColor | src/game/Renderer.ts:246-252 | every input, well-formed or not, gives `#` plus six lower-case hex digits |
| ColorAdjust.HexValueBound | src/game/Renderer.ts:247 | `k` hex digits denote less than 16^k |
| ColorAdjust.HexValueOfFixedHex | src/game/Renderer.ts:251 | reading back a fixed-width encoding gives the number |
| ColorAdjust.FixedHexOfZero | src/game/Renderer.ts:251 | zero is written as zeros |
| ColorAdjust.PaddedRadixIsFixedHex | src/game/Renderer.ts:251 | `toString(16).padStart(w, '0')` is the fixed-width encoding for numbers below 16^w |
| ColorAdjust.PackedIsSixDigits | src/game/Renderer.ts:251 | a packed value below 2^24 is written as `#` plus six digits |
| ColorAdjust.FixedHexOfHexValue | src/game/Renderer.ts:247-251 | rewriting a digit string at its own width lower-cases it |
| ColorAdjust.ParseHexDigits | src/game/Renderer.ts:247 | `parseInt` of a run of hex digits is their value |
| ColorAdjust.HexPrefixOfHexDigits | src/game/Renderer.ts:247 | the hex prefix of a digit string is the whole string |
| ColorAdjust.UnpackBytes | src/game/Renderer.ts:248-251 | the shifts and masks recover the packed bytes |
| ColorAdjust.SixDigitsAsPairs | src/game/Renderer.ts:247-250 | six digits denote their three pairs, most significant first |
| ColorAdjust.PairChannelsAreBytes | src/game/Renderer.ts:247-250 | the pairs of `#rrggbb` are bytes |
| ColorAdjust.PackPairs | src/game/Renderer.ts:247-251 | the packed pairs are the value of the six digits |
| ColorAdjust.HexColorNumber | src/game/Renderer.ts:247 | the parsed `#rrggbb` number is the packed pairs and fits in 32 bits |
| ColorAdjust.SmallToInt32 | src/game/Renderer.ts:248-250 | the 32-bit conversion keeps numbers below 2^31 |
| ColorAdjust.SourceChannelsOfHexColor | src/game/Renderer.ts:247-250 | on `#rrggbb` the shifts and masks read exactly the three pairs |
| ColorAdjust.AdjustHexColor | src/game/Renderer.ts:246-252 | on `#rrggbb` the result is the formatted adjusted pairs |
| ColorAdjust.FormatColorDigits | src/game/Renderer.ts:251 | the written colour is `#` plus the six-digit encoding of the packed channels |
| ColorAdjust.FormatColorReadsBack | src/game/Renderer.ts:247-251 | round trip: parsing a written colour gives back its channels |
| ColorAdjust.AdjustColorChannels | src/game/Renderer.ts:246-252 | for every input string, the output's channels are the input's channels plus the amount, clamped |
| ColorAdjust.AdjustColorPairs | src/game/Renderer.ts:246-252 | the same on the two-digit fields of `#rrggbb` |
| ColorAdjust.AdjustColorZero | src/game/Renderer.ts:246-252 | amount 0 gives the colour back with its digits lower-cased |
| ColorAdjust.AdjustColorMonotone | src/game/Renderer.ts:246-252 | a negative amount never raises a channel; a positive amount never lowers one |
| ColorAdjust.ExtremeDigits | src/game/Renderer.ts:251 | black is written `#000000` and white `#ffffff` |
| ColorAdjust.AdjustHexColorDigits | src/game/Renderer.ts:246-252 | on `#rrggbb` the output is the six-digit encoding of the packed adjusted pairs |
| ColorAdjust.AdjustColorSaturates | src/game/Renderer.ts:246-252 | an amount of at least 255 in size gives black or white |
| EngineSpec.InitialSession | src/game/GameEngine.ts:25-85 | definition; its properties are `EngineProperties.InitialSessionOK` |
| EngineSpec.StartSpec | src/game/GameEngine.ts:87-90 | definition; its properties are `EngineProperties.StartRunsBackwards` |
| EngineSpec.GameLoopSpec | src/game/GameEngine.ts:92-104 | definition; its properties are `EngineProperties.GameLoopKeepsInv`, `GameOverFreezes`, `PausedOnlyClock`, `BackwardsFrame` |
| EngineSpec.ClockAfter | src/game/GameEngine.ts:93-96 | definition; its properties are `EngineProperties.GameOverFreezes`, `PausedOnlyClock`, `StartRunsBackwards` |
| EngineSpec.UpdateSpec | src/game/GameEngine.ts:106-155 | definition; its properties are `EngineProperties.UpdateKeepsInv`, `UpdateMotion` |
| EngineSpec.ControlStep | src/game/GameEngine.ts:108-127 | definition; its properties are `EngineProperties.ControlStepVelocity` |
| EngineSpec.TravelStep | src/game/GameEngine.ts:130-134 | definition; its properties are `EngineProperties.TravelStepBounds`, `BackwardsFrame` |
| EngineSpec.ScoreFormula | src/game/GameEngine.ts:137 | definition; its properties are `EngineProperties.ScoreFormulaMonotone`, `HandleCollectEffect`, `UpdateMotion` |
| EngineSpec.ScoreStep | src/game/GameEngine.ts:137-138 | definition; its properties are `EngineProperties.UpdateMotion` |
| EngineSpec.LevelFor | src/game/GameEngine.ts:141 | definition; its properties are `EngineProperties.LevelMonotone`, `LevelStepEffect` |
| EngineSpec.LevelStep | src/game/GameEngine.ts:141-147 | definition; its properties are `EngineProperties.LevelStepEffect` |
| EngineSpec.ObstacleStep | src/game/GameEngine.ts:157-175 | definition; its properties are `EngineProperties.ObstacleStepBounds` |
| EngineSpec.CollectibleStep | src/game/GameEngine.ts:177-192 | definition; its properties are `EngineProperties.CollectibleStepBounds` |
| EngineSpec.HitsAny | src/game/GameEngine.ts:196-204 | definition; its properties are `EngineProperties.CheckCollisionsKeepsInv` |
| EngineSpec.CheckCollisionsSpec | src/game/GameEngine.ts:194-215 | definition; its properties are `EngineProperties.CheckCollisionsKeepsInv`, `CheckCollisionsFrame`, `ScoreReportedAfterGameEnd` |
| EngineSpec.HandleCrashSpec | src/game/GameEngine.ts:217-239 | definition; its properties are `EngineProperties.HandleCrashEffect`, `HandleCrashLog`, `CrashKeepsInv` |
| EngineSpec.RewardSpec | src/game/GameEngine.ts:245-258 | definition; its properties are `EngineProperties.HandleCollectEffect` |
| EngineSpec.NewObstacle | src/game/GameEngine.ts:267-284 | definition; its properties are `EngineProperties.NewObstacleShape` |
| EngineSpec.ObstacleKindFor | src/game/GameEngine.ts:272-273 | definition; its properties are `EngineProperties.ObstacleKindThirds` |
| EngineSpec.CollectibleKindFor | src/game/GameEngine.ts:297-310 | definition; its properties are `EngineProperties.NewCollectibleShape`, `Engine.GameEngine.PickCollectibleKind` |
| EngineSpec.NewCollectible | src/game/GameEngine.ts:292-319 | definition; its properties are `EngineProperties.NewCollectibleShape` |
| EngineSpec.GameOverSpec | src/game/GameEngine.ts:357-365 | definition; its properties are `EngineProperties.GameOverEffect` |
| EngineSpec.MoveObstacles | src/game/GameEngine.ts:159-166 | every obstacle is moved by the road shift, and traffic cars also by their drift; the order and the count are kept |
| EngineSpec.ObstaclesAbove | src/game/GameEngine.ts:169 | the filter keeps exactly the obstacles above the limit |
| EngineSpec.MoveCollectibles | src/game/GameEngine.ts:179-183 | every collectible moves when not collected; the order and the count are kept |
| EngineSpec.LiveCollectibles | src/game/GameEngine.ts:186 | the filter keeps exactly the uncollected items above the limit |
| EngineSpec.HandleCollectSpec | src/game/GameEngine.ts:241-265 | a pickup keeps the number of collectibles |
| EngineSpec.CollectFrom | src/game/GameEngine.ts:207-214 | the collectible loop keeps the number of collectibles |
| EngineSpec.Elapsed | src/game/GameEngine.ts:95 | the previous time plus the elapsed time is the current time |
| EngineProperties.NewObstacleShape | src/game/GameEngine.ts:267-284 | a spawned obstacle has a lane-centre `x` on the road, `y` = -100, the size of its type, and drift `2r - 1` for traffic cars |
| EngineProperties.ObstacleKindThirds | src/game/GameEngine.ts:272-273 | car, oil or broken for the lower, middle or upper third of the draw |
| EngineProperties.NewCollectibleShape | src/game/GameEngine.ts:292-319 | a spawned collectible is 30 by 30 at `y` = -50, uncollected, at the centre of lane 0, 1 or 2 of the road; fuel below 0.5, boost below 0.7, coin above |
| EngineProperties.ControlStepVelocity | src/game/GameEngine.ts:108-127 | for forward time the velocity stays in [0, 15], is unchanged without throttle, and up never lowers it while down never raises it; only position and velocity change |
| EngineProperties.TravelStepBounds | src/game/GameEngine.ts:130-134 | for forward time the road offset stays in [0, 100] and both distances grow |
| EngineProperties.LevelStepEffect | src/game/GameEngine.ts:140-147 | the level is `floor(distance / 100) + 1`; the road speeds up by 0.5 and one level-up sounds exactly when the level changed |
| EngineProperties.LevelMonotone | src/game/GameEngine.ts:141 | more distance never means a lower level |
| EngineProperties.ObstacleStepBounds | src/game/GameEngine.ts:157-175 | after the step every obstacle is above `height + 100` and well formed; nothing else changes |
| EngineProperties.CollectibleStepBounds | src/game/GameEngine.ts:177-192 | collected items do not move; afterwards every item is uncollected, above `height + 100` and well formed |
| EngineProperties.GameOverEffect | src/game/GameEngine.ts:357-365 | game over sets the flag and signals the end once, with no crash or level-up sound |
| EngineProperties.HandleCrashEffect | src/game/GameEngine.ts:217-239 | a crash costs one life, puts the car back in the centre at rest, resets the crash-free distance, keeps exactly the obstacles above `height - 200`, and ends the game exactly on the last life |
| EngineProperties.CrashEventsCount | src/game/GameEngine.ts:217-239 | one crash sound, one end signal exactly on the last life, and the statistics sent report a crash-free distance of 0 |
| EngineProperties.HandleCrashLog | src/game/GameEngine.ts:217-239 | the log is extended with the crash events and their counts |
| EngineProperties.HandleCollectEffect | src/game/GameEngine.ts:241-265 | the item is marked collected; fuel gives +1 fuel and +50 score, a boost gives +1 boost and maximum speed, a coin gives +100 score; the new score and the totals are reported |
| EngineProperties.HandleCollectShape | src/game/GameEngine.ts:241-265 | a pickup changes only the pickup fields and appends its events |
| EngineProperties.HandleCollectFrame | src/game/GameEngine.ts:241-265 | a pickup stays inside the pickup frame (no crash, level-up or end events) |
| EngineProperties.CollectFromFrame | src/game/GameEngine.ts:207-214 | the whole collectible loop stays inside the pickup frame |
| EngineProperties.CrashKeepsInv | src/game/GameEngine.ts:217-239 | a crash in a running game keeps the invariant |
| EngineProperties.PickupsKeepInv | src/game/GameEngine.ts:207-214 | the pickup loop keeps the invariant, the lives and the game-over flag |
| EngineProperties.CheckCollisionsKeepsInv | src/game/GameEngine.ts:194-215 | at most one crash per frame: the lives drop by one exactly when the hitbox overlaps an obstacle; the invariant holds afterwards |
| EngineProperties.MotionPhaseKeepsInv | src/game/GameEngine.ts:108-147 | the first four steps keep the invariant and change neither the entities nor the lives |
| EngineProperties.UpdateKeepsInv | src/game/GameEngine.ts:106-155 | one update of a running game keeps the invariant and loses at most one life |
| EngineProperties.GameOverFreezes | src/game/GameEngine.ts:93 | once the game is over a frame changes nothing, not even the clock |
| EngineProperties.PausedOnlyClock | src/game/GameEngine.ts:95-101 | while paused a frame only moves the clock |
| EngineProperties.GameLoopKeepsInv | src/game/GameEngine.ts:92-104 | every frame keeps the invariant and only extends the log |
| EngineProperties.ScoreFormulaMonotone | src/game/GameEngine.ts:137 | the score formula grows with the distance and the two counters |
| EngineProperties.UpdateMotion | src/game/GameEngine.ts:106-155 | for forward time the velocity, offset and distance stay in range, and the distance, the level and the score formula never go down |
| EngineProperties.InitialSessionOK | src/game/GameEngine.ts:45-85 | after construction: three lives, level 1, the chosen car (the first for an unknown id), three obstacles, two collectibles, and the invariant holds |
| EngineProperties.BackwardsFrame | src/game/GameEngine.ts:130-131 | a negative frame from rest moves the road offset below 0 |
| EngineProperties.StartRunsBackwards | src/game/GameEngine.ts:87-96 | `start()` runs its first frame for `-now` and leaves the clock at 0 |
| EngineProperties.CheckCollisionsFrame | src/game/GameEngine.ts:194-215 | collision handling never touches the road, the distance, the level or the pause |
| EngineProperties.ScoreReportedAfterGameEnd | src/game/GameEngine.ts:194-265 | in the frame that takes the last life, the end-of-game signal can be followed in the log by a pickup's score report |
| EngineProperties.PushedStats | src/game/GameEngine.ts:235-238 | every extracted statistics update was sent |
| EngineProperties.NoCrashAchievementsUnreachable | src/game/GameEngine.ts:221-238 | no statistics the engine sends can raise the crash-free distance above 0, so "first-5km" and "survivor" can never hold |
| Engine.GameEngine.constructor | src/game/GameEngine.ts:45-80 | the configuration of the canvas; the initial session with the chosen car and the spawned entities; clock 0; no keys held |
| Engine.GameEngine.Init | src/game/GameEngine.ts:82-85 | three obstacles and then two collectibles are appended |
| Engine.GameEngine.Start | src/game/GameEngine.ts:87-90 | the state becomes the start specification; the clock is read and then reset by the first frame |
| Engine.GameEngine.GameLoop | src/game/GameEngine.ts:92-104 | the state becomes the frame specification for the elapsed time; the clock moves unless the game is over; the invariant is kept |
| Engine.GameEngine.Update | src/game/GameEngine.ts:106-155 | the state becomes the update specification |
| Engine.GameEngine.Steer | src/game/GameEngine.ts:108-127 | the state becomes the control step |
| Engine.GameEngine.Travel | src/game/GameEngine.ts:130-134 | the state becomes the travel step |
| Engine.GameEngine.UpdateScore | src/game/GameEngine.ts:137-138 | the state becomes the score step |
| Engine.GameEngine.UpdateLevel | src/game/GameEngine.ts:141-147 | the state becomes the level step |
| Engine.GameEngine.UpdateObstacles | src/game/GameEngine.ts:157-175 | the state becomes the obstacle step |
| Engine.GameEngine.MoveAllObstacles | src/game/GameEngine.ts:159-166 | the obstacles become the moved sequence; nothing else changes |
| Engine.GameEngine.UpdateCollectibles | src/game/GameEngine.ts:177-192 | the state becomes the collectible step |
| Engine.GameEngine.MoveAllCollectibles | src/game/GameEngine.ts:179-183 | the collectibles become the moved sequence; nothing else changes |
| Engine.GameEngine.CheckCollisions | src/game/GameEngine.ts:194-215 | the state becomes the collision specification |
| Engine.GameEngine.CheckObstacles | src/game/GameEngine.ts:196-204 | one crash if the hitbox overlaps any obstacle, otherwise no change |
| Engine.GameEngine.GenerateObstacle | src/game/GameEngine.ts:267-284 | the spawned obstacle is appended |
| Engine.GameEngine.GenerateObstacles | src/game/GameEngine.ts:286-290 | three spawned obstacles are appended |
| Engine.GameEngine.PickCollectibleKind | src/game/GameEngine.ts:297-309 | the weight loop picks the type of the weighted choice |
| Engine.GameEngine.GenerateCollectible | src/game/GameEngine.ts:292-319 | the spawned collectible is appended |
| Engine.GameEngine.GenerateCollectibles | src/game/GameEngine.ts:321-325 | two spawned collectibles are appended |
| Engine.GameEngine.SetPaused | src/game/GameEngine.ts:353-355 | only the pause flag changes; the invariant is kept |
| Engine.GameEngine.GameOver | src/game/GameEngine.ts:357-365 | the state becomes the game-over specification |
| Engine.GameEngine.ResetAfterCrash | src/game/GameEngine.ts:218-225 | one life less, reported and sounded; the crash-free distance is reset; the car is centred at rest |
| Engine.GameEngine.HandleCrash | src/game/GameEngine.ts:217-239 | the state becomes the crash specification |
| Engine.GameEngine.HandleCollect | src/game/GameEngine.ts:241-265 | the state becomes the pickup specification |
| Engine.GameEngine.MarkCollected | src/game/GameEngine.ts:242-243 | the item is marked collected and the collect sound is logged |
| Engine.GameEngine.Reward | src/game/GameEngine.ts:245-258 | the state becomes the reward of the item's type |

## Left out

- Rendering: `render()`, the whole renderer except `adjustColor`, the canvas
  context and `isDayMode` (used only by the renderer). Nothing they draw feeds
  back into the game state.
- Frame scheduling: `requestAnimationFrame`, `animationId` and `destroy()`.
  `GameLoop` runs one frame and does not schedule the next. The host calls it
  once per frame.
- The clock `performance.now()` becomes the `now` parameter of `Start`.
- `Math.random()`: each draw is a parameter in `[0, 1)`.
- Floating point: JavaScript numbers are exact reals (or integers for the
  counters), so IEEE rounding is not modelled. `Math.sqrt` in the circle test
  is replaced by the equivalent comparison of squares, connected by
  `CircleCollisionBySqrt`.
- `ColorAdjust.AdjustColor`: `amount` is a JavaScript number but is modelled
  as an `int`. The only call passes -30 (src/game/Renderer.ts:97). A
  fractional amount gives fractional channels, which the `<<` and `|` of the
  packing then truncate; the model does not cover that.
- `ColorAdjust.SourceChannels`: a Dafny string is a sequence of Unicode scalar
  values. A JavaScript string holding an unpaired surrogate has no Dafny
  counterpart and is not covered. A paired surrogate as the first character
  is covered by `ParseAfterFirstUnit`.
- `ColorAdjust.ParseInt16`: `parseInt` keeps integers exact, so the model does
  not round above 2^53 the way a JavaScript number does.
- `InputHandling.ToLower`: only lowers ASCII; it does not case-fold other
  Unicode letters, and no key name the game recognises needs that.
- DOM events: `addEventListener` and `removeEventListener` are left out, along
  with `preventDefault` and the touch list. The handlers take the key or the
  first touch's coordinates directly.
- Sound playback, storage and the network: sounds and statistics updates are
  logged as events. The context's saved values are passed to its constructor
  as `Option`s. The storage writes of the two effects are left out. Writing
  scores to the leaderboard service is not part of this model.
- The date in `unlockedAt` is an integer clock reading `now`, passed to
  `CheckAchievements`.
- React: state updates are applied at once and in order. Batching and stale
  closures are not modelled; for example, the key handler reads the current
  pause flag.
- The presentation components (home page, HUD, pause menu, game-over screen,
  leaderboard and achievements pages) are left out. They are modelled only as
  the handlers App wires to them, with the screens that offer them (`App.Enabled`).
- Object identity: obstacles and collectibles are values in a sequence, so
  `handleCollect` receives an index into the sequence rather than an object
  reference. The loop guarantees both refer to the same item.
- The engine's canvas size is read once at construction; a resized canvas is not modelled.
- `InputHandling.InputHandler.HandleTouchMove`: the multi-touch list is
  reduced to the first touch; `touches[0]` missing (a runtime error in the
  source) is not modelled.
