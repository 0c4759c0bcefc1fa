# Flappy Dragon simulation core, in Dafny

This project models the simulation core of the two versions of the browser
"Flappy Dragon" game: a player (the beholder) flaps up through gaps between
stalactites and stalagmites that scroll in from the right.

- **www/game.js** is the newer, delta-time version. Sizes and speeds are
  fractions of a fixed 600 x 800 drawing buffer. Obstacles are recycled
  through an object pool. A point scored raises the high score and redraws
  the spawn distance, so obstacles come at varying distances. The ground
  scrolls, and the player is pinned to it after game over.
- **game.js** is the older, frame-based version. Per-frame constants are fixed,
  the spawn distance is fixed, obstacles are never pooled, and a restart after game
  over is debounced by 15 frames.

Each version has two modules:

- A module of pure rules, `DeltaRules` or `FrameRules`. It holds the
  constants, the gap draw, how one update scrolls and scores an obstacle, the
  list bookkeeping of the backward splice loop, the player integrator, the
  animation index and the collision test.
- A module of classes, `DeltaGame` or `FrameGame`:
  - The source's module-level globals become the fields of a `Game` object.
  - Each obstacle is an `Obstacle` object whose methods update its fields in
    place.
  - The `obstacles` and `obstaclePool` arrays are sequence fields. They are
    reassigned on push, pop and splice.

Every method is specified by the rules module. `Common` holds what both
versions share: the three-state mode, the player's box, and the narrowed
collision span.

Numbers are modelled as `real`. Each `Math.random()` value is a parameter
`r` with `0 <= r < 1`. The canvas size of game.js is a pair of constructor
parameters.

Three behaviours of www/game.js are stated as they are, because the source
really does them:

- `Obstacle.update` already lifts `highScore` to the score while playing, so
  `score <= highScore` always holds. The "new high score" branch at game over
  is therefore never taken, and the stored high score is never written:
  `DeltaGame.Game.Tick` ensures `!saved`.
- A point also redraws the `obstacleGap` global (www/game.js:326), but no
  obstacle in play uses the new value. Only the `Obstacle` constructor reads
  it (www/game.js:287). `reset` then overwrites the gap height with
  `canvas.height * OBSTACLE_GAP_FACTOR` (www/game.js:300), and `addObstacle`
  always calls `reset`. So every obstacle's gap height is fixed in this
  version too: `DeltaRules.Placed` ensures it, while `DeltaRules.Scored`
  states the redraw of the global.
- `resetGame` empties the active list before spawning three obstacles and
  moving them to the pool. The obstacles that were active are dropped, not
  pooled, and the game restarts with an empty active list.

## Model

| member | source | states |
|---|---|---|
| `Common.PlayerBox` | www/game.js:429-432 | the player's box is `size` wide and high and contains its centre |
| `Common.CollisionSpan` | www/game.js:450-451 | the collision span lies inside the drawn span, is 0.6 of its width and is inset equally on both sides |
| `Common.HitsObstacle` | www/game.js:453-454 | a player wholly inside the gap, or horizontally clear of the narrowed span, is never hit |
| `Common.DistinctConcat` | www/game.js:159-167 | pushing duplicate-free obstacles that are not in the pool keeps the pool duplicate-free |
| `Common.RestackedByConcat` | www/game.js:176-183 | taking up to three obstacles off the pool's end and pushing the three spawned ones back is a restacking |
| `Common.RestackKeeps` | www/game.js:159-167 | a restacked pool still holds every obstacle it held before |
| `Common.ScaledDrawBetween` | game.js:200 | a draw times a length lies between 0 and that length, for either sign |
| `DeltaRules.FallbackOnlyWithoutHeight` | www/game.js:301-306 | the centred fallback of `reset` is reachable only on a canvas with no height |
| `DeltaRules.GapCentre` | www/game.js:301-309 | the gap centre lies in [minGapY, maxGapY) when that range is non-empty, and is the canvas middle otherwise |
| `DeltaRules.Placed` | www/game.js:297-314 | `reset(startX)` gives `x = startX`, not passed, active, `0 <= topHeight`, `bottomY <= height`, both margins kept and gap height exact when the range is non-empty, centre when it is empty |
| `DeltaRules.GroundYAfterReset` | www/game.js:141-147 | the ground line is exactly the canvas height minus the ground image's height when that height is non-zero, and exactly 0.92 of the canvas height (one minus the margin fraction) otherwise |
| `DeltaRules.RedrawnGap` | www/game.js:326 | a redrawn gap lies in [0.20, 0.35) of the canvas height |
| `DeltaRules.RedrawnSpawnDistance` | www/game.js:327 | a redrawn spawn distance lies in [0.4, 0.7) of the canvas width |
| `DeltaRules.Scrolled` | www/game.js:316-323 | `update` leaves an inactive obstacle unchanged, moves an active one left by exactly speed times delta, never clears `passed`, and sets it exactly when the obstacle scores |
| `DeltaRules.ScoresAtMostOnce` | www/game.js:319-322 | over any number of updates an obstacle scores at most one point, and none once passed |
| `DeltaRules.TravelIsSpeedTimesTime` | www/game.js:318 | over several updates an active obstacle travels speed times the summed deltas |
| `DeltaRules.AfterTick` | www/game.js:655-664 | after a playing tick an obstacle is still active exactly when it was and is not wholly left of the canvas |
| `DeltaRules.AfterTicks` | www/game.js:651-671 | the tick acts on every obstacle of the list independently |
| `DeltaRules.Crossings` | www/game.js:319-320 | a tick scores at most one point per obstacle |
| `DeltaRules.LastRedraw` | www/game.js:326-327 | the difficulty globals after a tick come from one of the draws handed in |
| `DeltaRules.LastRedrawIffScored` | www/game.js:319-327 | the difficulty is redrawn in a tick exactly when some obstacle scores in it |
| `DeltaRules.Scored` | www/game.js:320-327 | a scoring event adds one point, keeps the high score at least the score and redraws both difficulty globals |
| `DeltaRules.TallyStep` | www/game.js:651-671 | one backward step adds its scoring event on top of the suffix already processed |
| `DeltaRules.SplitStep` | www/game.js:662-666 | one backward step either keeps the list or splices the obstacle out and pushes it on the pool |
| `DeltaRules.KeptAndDropped` | www/game.js:651-671 | the splice loop loses and invents nothing: kept and pooled obstacles add up to the list, kept ones are active, pooled ones inactive |
| `DeltaRules.Integrate` | www/game.js:208-221 | nothing moves at the start screen; velocity is updated before position while playing; after game over a player whose new position reaches the ground line is put exactly on it at rest, and never ends below it |
| `DeltaRules.PinnedIsFixedPoint` | www/game.js:215-219 | once pinned on the ground at rest after game over, later frames with `dt >= 0` change nothing |
| `DeltaRules.FreeFall` | www/game.js:212-214 | n equal frames add n times gravity times dt to the velocity and move the player by the closed-form distance |
| `DeltaRules.Rotation` | www/game.js:230-242 | the tilt stays within the two limits, is level at the start screen, points fully down when grounded after game over, equals the velocity-proportional target inside the limits and saturates at exactly the upper or lower limit outside them |
| `DeltaRules.NextFrameIndex` | www/game.js:223-228 | the animation index stays a valid frame, advances by one with wrap-around every 20 frames, and freezes after game over |
| `DeltaRules.ContactOf` | www/game.js:427-462 | the ceiling is checked first, then the ground (touching counts), then the obstacles; a player inside the canvas and inside every gap is clear |
| `DeltaRules.Resolve` | www/game.js:427-462 | the end-of-frame check from playing: game over exactly when `ContactOf` is not clear; a clear frame keeps the body and the player strictly inside the canvas; a ground contact pins the player on the ground line at rest |
| `DeltaRules.Settle` | www/game.js:688-721 | the player part of a frame: outside playing only `Integrate` acts and the state stays; while playing the integrated body is then `Resolve`d |
| `DeltaRules.SettleIsSettledFrom` | www/game.js:688-721 | every settled frame satisfies `SettledFrom`: it integrates the body, leaves a non-playing state alone, ends a playing frame in playing or game over, ends it on a ceiling contact, and pins it at rest on a ground contact |
| `DeltaRules.FrameDelta` | www/game.js:637-642 | the step is the elapsed seconds capped at 1/30, and never negative when time moves forward |
| `DeltaRules.ScrollGround` | www/game.js:592-600 | the ground scrolls left and jumps right by one tile width exactly when a whole tile has gone; it stays within one tile of the origin |
| `DeltaGame.Views` | www/game.js:281-295 | the value view of a list of obstacles, element by element |
| `DeltaGame.Obstacle.constructor` | www/game.js:282-295 | a new obstacle is inactive, unpassed, at 0 and sized by the current globals |
| `DeltaGame.Obstacle.Reset` | www/game.js:297-314 | the obstacle becomes exactly `Placed(startX, height, r)` |
| `DeltaGame.Obstacle.Update` | www/game.js:316-328 | the obstacle becomes `Scrolled`; on a scoring update the score rises by one, the high score follows it and the two difficulty globals are redrawn; otherwise none of them change |
| `DeltaGame.Obstacle.Deactivate` | www/game.js:377-379 | only the `active` flag changes, to false |
| `DeltaGame.Game.constructor` | www/game.js:42-59 | the global initialisers, with the stored high score read at www/game.js:798 |
| `DeltaGame.Game.AddObstacle` | www/game.js:383-395 | exactly one obstacle is appended, placed at `startX`; it is the pool's last element when the pool is non-empty, which shrinks by one, and a fresh object otherwise; both lists stay duplicate-free and disjoint |
| `DeltaGame.Game.SpawnInitialObstacles` | www/game.js:176-183 | the active list becomes exactly three obstacles placed one spawn distance apart, just past the right edge, taken last-first off the pool or fresh |
| `DeltaGame.Game.SpawnFirstTwo` | www/game.js:177-180 | the emptied active list receives its first two obstacles, placed at the first two spawn positions, taken last-first off the pool or fresh, and the pool loses at most its last two |
| `DeltaGame.Game.ResetGame` | www/game.js:117-174 | sizes rescaled, player at rest in the middle, score, state, counter, animation and ground reset, high score kept, active list empty, pool grown to at least three and keeping all it had, old active obstacles not pooled |
| `DeltaGame.Game.RespawnAndPool` | www/game.js:133-167 | the active list ends empty, the pool is restacked with the three spawned obstacles, and previously active obstacles are not pooled |
| `DeltaGame.Game.ResetDynamics` | www/game.js:117-147 | the sizes, player, score, state, counter, animation and ground line take their reset values |
| `DeltaGame.Game.PoolObstacles` | www/game.js:159-167 | every active obstacle is deactivated and pushed on the pool in list order; the active list ends empty |
| `DeltaGame.Game.ScrollObstacles` | www/game.js:651-671 | every obstacle is updated; exactly those that end wholly left of the canvas are deactivated, pushed on the pool in backward order and spliced out; the rest keep their order; active plus pooled count is preserved; the score grows by the number of crossings; the difficulty globals come from the last scoring draw |
| `DeltaGame.Game.SpawnDue` | www/game.js:674-680 | the spawn test: empty list, or last obstacle more than one spawn distance left of the right edge |
| `DeltaGame.Game.SpawnIfDue` | www/game.js:674-680 | exactly one obstacle is appended at the right edge if and only if the spawn test held |
| `DeltaGame.Game.UpdateGround` | www/game.js:592-600 | the ground offset becomes `ScrollGround` of the old one, with the image width or the canvas width as tile |
| `DeltaGame.Game.Beholder` | www/game.js:208-243 | the body becomes `Integrate` of the old one, the animation index `NextFrameIndex`, and the returned tilt `Rotation` |
| `DeltaGame.Game.AnyObstacleHit` | www/game.js:449-459 | the obstacle loop reports a hit exactly when some obstacle hits the player |
| `DeltaGame.Game.CheckCollisions` | www/game.js:427-462 | reports a hit exactly when `ContactOf` is not clear; a ground contact pins the player on the ground line at rest; nothing else changes |
| `DeltaGame.Game.HandleInput` | www/game.js:571-589 | at start or while playing the velocity becomes exactly LIFT and the state playing, and every other global, both lists and every pooled obstacle stay as they were; after game over the game is reset at once, with every value `ResetGame` states (sizes, player, score, state, counter, animation, ground offset and line, empty active list, pool grown to at least three keeping all it had, old active obstacles not pooled); the high score and the frame timestamp are kept |
| `DeltaGame.Game.ScrollScores` | www/game.js:651-671 | the score grows by the number of crossings and the high score follows it |
| `DeltaGame.Game.MoveObstacles` | www/game.js:651-680 | the loop and the spawn test together keep the lists valid and score the crossings |
| `DeltaGame.Game.Tick` | www/game.js:625-724 | changes only the globals a frame writes, never the speed, player column, sizes or width; the first frame only records the timestamp and leaves every other global and every obstacle as it was; a later frame with step `FrameDelta(timestamp, lastTime)` advances the counter, recomputes the ground line, settles the player and state as `SettledFrom` that step and advances the animation by `NextFrameIndex`; only while playing does it add the crossings to the score and scroll the ground by `ScrollGround`, and outside playing every obstacle, active or pooled, is left unchanged; the high score is never saved |
| `DeltaGame.Game.FrameStep` | www/game.js:644-721 | a frame after the first: while playing the score grows by the crossings and the ground offset becomes `ScrollGround` of the old one; otherwise score, ground offset, both lists and every obstacle in them are unchanged; in every state the player and state are `SettledFrom` the step, the animation index is `NextFrameIndex`, and the counter advances |
| `DeltaGame.Game.PlayingFrame` | www/game.js:651-721 | a frame that starts while playing: the crossings are scored, the ground scrolls by `ScrollGround`, and the player and state are `SettledFrom` the step |
| `DeltaGame.Game.MoveWorld` | www/game.js:651-685 | the obstacle pass and the ground scroll of a playing frame: the score grows by the crossings, the high score follows it, the ground offset becomes `ScrollGround` of the old one, and the lists stay valid |
| `DeltaGame.Game.SettleFrame` | www/game.js:688-721 | the ground line becomes the canvas height minus the image height; the player and state are `SettledFrom` the old body and state (integrated, ended on a ceiling contact, pinned at rest on a ground contact); the animation index is `NextFrameIndex`; the counter advances and the high score is not saved |
| `DeltaGame.Game.HandleGameStates` | www/game.js:697-721 | from playing, the new body and state are exactly `Resolve` of the old body against the ground line and the obstacles, so the game ends exactly when the player touches something; in other states body and state are unchanged; the high score is never saved; the counter advances in every state |
| `FrameRules.Built` | game.js:149-158 | a new obstacle is unscored, with a gap of exactly 150 centred on `gapY` and a stalagmite reaching the canvas bottom |
| `FrameRules.DrawnGapY` | game.js:197-201 | the gap centre lies in [minGapY, maxGapY) when that range is non-empty; there is no fallback, so on an inverted range it lies in (maxGapY, minGapY] |
| `FrameRules.Drawn` | game.js:197-203 | `addObstacle(xPos)` gives `x = xPos`, unscored, gap 150; on a canvas at least 210 high both parts keep 30 of the canvas free; on a shorter one the bottom margin is always broken |
| `FrameRules.Crosses` | game.js:185-193 | the two nested scoring tests amount to: unscored and the moved right edge left of the player's centre minus half its size |
| `FrameRules.Updated` | game.js:178-194 | `update()` moves the obstacle left by exactly 1.5, marks it scored exactly when it scores, and changes nothing else |
| `FrameRules.ScoresOncePastTheLine` | game.js:178-194 | over n updates an obstacle moves by n times 1.5 and scores exactly one point if it was unscored and ends past the score line, none otherwise |
| `FrameRules.SpawnedBeforeTheLine` | game.js:91-96 | an obstacle placed at or right of the canvas width, as the initial ones and those spawned at game.js:383 are, starts short of the score line, so the requirement of `ScoresOncePastTheLine` excludes no obstacle the game creates |
| `FrameRules.UpdatedAll` | game.js:360-377 | the playing frame updates every obstacle of the list independently |
| `FrameRules.Crossings` | game.js:187-193 | a frame scores at most one point per obstacle |
| `FrameRules.KeptExactly` | game.js:372-375 | the splice loop keeps exactly the obstacles that are still on screen and drops the others |
| `FrameRules.SplitStep` | game.js:372-375 | one backward step either keeps the list or splices the obstacle out |
| `FrameRules.Step` | game.js:139-146 | while playing, gravity is added to the velocity and then the velocity to the position; at the start screen the player hovers at the middle plus the bob, at rest; after game over nothing moves |
| `FrameRules.FreeFall` | game.js:139-142 | after n frames the velocity has grown by n times 0.15 and the position by the closed-form distance |
| `FrameRules.FlapRisesFor26Frames` | game.js:139-142 | after a flap the player rises for 26 frames and falls from the 27th |
| `FrameRules.NextFrameIndex` | game.js:103-107 | the animation index stays a valid frame, advances by one with wrap-around every 15 frames, and freezes after game over |
| `FrameRules.Collides` | game.js:235-266 | leaving the canvas at the top or bottom is a collision; a player inside the canvas and inside every gap, or clear of every narrowed span, is not |
| `FrameGame.Views` | game.js:149-158 | the value view of a list of obstacles, element by element |
| `FrameGame.Obstacle.constructor` | game.js:149-158 | the new object holds exactly `Built(x, gapY, height)` |
| `FrameGame.Obstacle.Update` | game.js:178-194 | the obstacle becomes `Updated`, and the score rises by one exactly when it crosses |
| `FrameGame.Game.constructor` | game.js:428-459 | after the globals and `resetGame` of `window.onload`: the player at rest in the middle, start state, and the three initial obstacles |
| `FrameGame.Game.AddObstacle` | game.js:197-203 | exactly one fresh obstacle is appended, `Drawn(xPos, height, r)`; the rest of the list is kept |
| `FrameGame.Game.SpawnInitialObstacles` | game.js:91-96 | three fresh obstacles are appended at width+100, width+300 and width+500 |
| `FrameGame.Game.ResetGame` | game.js:79-89 | player at rest in the middle, score, counter, state and animation reset, and exactly three fresh obstacles at width+100, +300, +500, in ascending order |
| `FrameGame.Game.Beholder` | game.js:99-147 | the animation index becomes `NextFrameIndex` and the body `Step`; at the start screen the player stays within 5 of the middle |
| `FrameGame.Game.CheckCollisions` | game.js:235-266 | changes nothing and returns exactly `Collides` of the player's box and the obstacles |
| `FrameGame.Game.HandleInput` | game.js:331-343 | from start the state becomes playing with velocity exactly LIFT; while playing the velocity becomes LIFT; after game over the game resets only when the counter exceeds 15, with every value `ResetGame` states (player at rest in the middle, score, counter, state and animation reset, exactly three fresh obstacles at width+100, +300, +500 in ascending order), and nothing changes otherwise |
| `FrameGame.Game.ScrollObstacles` | game.js:360-377 | every obstacle is updated; exactly those still on screen are kept, in order; the score grows by the number of crossings |
| `FrameGame.Game.SpawnDue` | game.js:380-385 | the spawn test: empty list, or last obstacle more than 200 left of the right edge |
| `FrameGame.Game.SpawnIfDue` | game.js:380-385 | exactly one obstacle is appended at the right edge if and only if the spawn test held |
| `FrameGame.Game.MoveObstacles` | game.js:360-385 | the loop and the spawn test together score the crossings and keep the list duplicate-free |
| `FrameGame.Game.Tick` | game.js:346-411 | outside playing, the state, score, list and every obstacle in it are unchanged and the counter advances; while playing, the score grows by the crossings, and the frame ends in game over exactly when `Collides` holds for the player's final box against the final obstacles, with the counter at 1; otherwise it stays playing with the counter advanced |
| `FrameGame.Game.HandleGameStates` | game.js:394-407 | from playing, a collision means game over with the counter restarted at 1, and no collision means still playing with the counter advanced; in other states the counter advances |

## Left out

- Rendering is not modelled. This covers every `draw`/`drawImage` path, the image choice and canvas transforms in `Beholder`, the overlays, and `wrapText`. `drawGround`'s one state write, the ground line, is modelled.
- The `drawGround` fallback branch (www/game.js:618) is not modelled. It reads a `GROUND_HEIGHT` whose declaration is commented out, so it would throw. It is unreachable because the loop starts only after every image, including the ground image, has loaded (www/game.js:726-728). `SettleFrame`, `PlayingFrame` and `FrameStep` therefore require a non-zero ground image height. `Tick` requires it for every frame after the first.
- Asset and readiness plumbing is not modelled: image loading, `setupAnimationFrames`, `startGameIfReady`, the event listeners and the resize handler.
- Audio is not modelled, and neither is the `localStorage` access. The stored high score is a constructor parameter of `DeltaGame.Game`. The save is the `saved` result of `DeltaGame.Game.Tick`.
- Scheduling by `requestAnimationFrame` is not modelled: one call of `Tick` is one frame. Tick's `!ctx || !canvas` guard is left out, because both are set before the loop starts.
- `manageObstacles` is left out in both files (www/game.js:397-424, game.js:205-232). It is dead code that nothing calls.
- `isGameOver` (game.js:88) is left out. It is written and never read.
- Floating-point rounding is not modelled: numbers are `real`.
- The tilt is kept in degrees. `degToRad` only multiplies by a positive constant, which commutes with the clamp.
- The start screen's bob `Math.sin(frameCount * 0.1) * 5` (game.js:144) is the parameter `bob`, with `-5 <= bob <= 5`.
- DeltaGame.Game.ResetGame: does not state where the three pooled obstacles were placed, only that they are pooled. Their placement is stated by `SpawnInitialObstacles`, and `addObstacle` resets them again before use.
- DeltaGame.Game.RespawnAndPool: states the same as `ResetGame` about the pooled obstacles, for the same reason.
- DeltaGame.Game.Tick: states the ceiling and ground ends of a playing frame through `SettledFrom`, but not the obstacle contact. `HandleGameStates` states that one, as `Resolve` against the obstacles' views at that point. Tick also does not restate the difficulty redraws and the final lists of the obstacle pass. They are stated by `ScrollObstacles` and `MoveObstacles`. Restating the obstacle views after the lists have changed makes the proof of the composed frame too costly.
- DeltaGame.Game.FrameStep: states the same as `Tick` about the frame, for the same reason.
- DeltaGame.Game.PlayingFrame: states the same as `FrameStep` about a playing frame, for the same reason.
- DeltaGame.Game.MoveWorld: states the scoring and the ground scroll, but not the final lists. They are stated by `ScrollObstacles` and `SpawnIfDue`.
- DeltaGame.Game.SettleFrame: states a playing frame's ceiling and ground ends but not its obstacle contact. A frame that ends in game over without touching the ceiling or the ground keeps the integrated body; `HandleGameStates` states when that happens.
- DeltaGame.Obstacle.Update: assumes that the coin sound buffer exists. `coinSoundBuffer` (www/game.js:332) is declared nowhere; only `loadGameSounds` creates it (www/game.js:1054), and that function returns early while the audio context is not running (www/game.js:1045-1048). If no point sound was loaded, the first scoring update throws. It does so after score, high score, difficulty and `passed` were written. The throw escapes `gameLoop` before `requestAnimationFrame` (www/game.js:723), so the animation stops. The model continues the frame instead.
- DeltaGame.Game.constructor: takes the stored high score as a `nat`. `parseInt(...) || 0` (www/game.js:798) can give a negative number when the stored text is negative. Then `score <= highScore` fails at the start and the save at game over (www/game.js:706-710) becomes reachable. The claim that the high score is never saved holds only for a non-negative stored value.
- DeltaGame.Game.MoveObstacles: states the scoring of the pass but not the final lists. They are stated by `ScrollObstacles` and `SpawnIfDue`.
- FrameGame.Game.MoveObstacles: states the scoring but not the final list. It is stated by `ScrollObstacles` and `SpawnIfDue`.
- FrameGame.Game.Tick: does not state the player's motion. It is stated by `Beholder`. Tick also does not state the final obstacle list of a playing frame. It is stated by `ScrollObstacles` and `SpawnIfDue`.
