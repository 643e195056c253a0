# SpaceWar — a verified model of the simulation step

SpaceWar is a browser arcade shooter. The player's ship sits at the bottom of a
playfield the size of the browser window (800×600 at scale 1) and fires upward at a grid of enemies. The grid marches side to side,
steps down at each wall and fires back. A kill:
- scores 10 points;
- leaves 20 sparks;
- one time in five, drops a power-up that widens the shot.

The game is over when an enemy bullet hits the ship or an enemy's lower edge reaches the
ship's line. The level is complete when no enemy is left. Final scores go onto a
persisted top-ten scoreboard.

This project models the core of that game in Dafny:
- the entities and their per-frame updates;
- the ship's movement, fire cooldown, power-up timer and spread shot;
- the enemy grid and the difficulty formulas of each level;
- the frame step `update(dt)`: backward splice loops over the bullet, power-up and
  particle lists, the formation's march, enemy fire, and the two collision passes;
- the scoreboard update;
- the start, restart and next-level buttons, the key and pointer handlers, and the
  frame gate that runs `update` only while the game is playing.

Modules follow the program's structure:

- `Entities` holds the value entities (`Bullet`, `Enemy`, `PowerUp`, `Particle`) and
  their updates.
- `Lists` holds `Apply`/`Filter` and the generic backward pruning loop `PruneBackward`.
  `PruneBackward` is proved equal to filtering the updated list.
- `Levels` holds the enemy grid, `SpawnEnemies` (nested loops proved to build `Grid`) and
  the level formulas.
- `Formation` holds the march, as a function `Step`. Its two `forEach` loops are methods
  proved against it.
- `PlayerShip` holds the class `Player`. `Update` and `DragTo` update its fields in
  place; `Shoot` returns the bullets that `update` pushes onto the player-bullet list.
- `Combat` holds the player-bullet/enemy pass: the nested backward loop with its `break`
  is the method `ShootDown`, proved against the function `ResolveHits`.
- `Scoreboard` holds push, sort highest first and keep ten, as a function, with lemmas
  on what survives.
- `SpaceWar` holds the class `World`: every global of the game, the phases of `update`,
  `Update` itself, the frame gate `Frame`, `InitLevel`, and the button and input
  handlers. The datatype `Scene` is a snapshot of everything a frame reads and writes:
  the lists, the scalars, the ship's fields, and the inputs (held keys, the drag and the
  fire button). `update` is the function `Advance` on a scene, one small function per
  phase. Every method of the step is proved to move the world's scene by its phase
  function, and the lemmas about `Advance` carry the step's promises.

Randomness enters as parameters:
- `shooterRoll` in [0, 1) picks the enemy that fires (`Math.floor(roll * n)`);
- `dropRolls[k]` is the roll of the k-th kill of the frame, and a power-up drops when it
  is below 0.2.

The animation clock is the `timestamp` parameter of `Frame`. Persisted values, the high
score and the scoreboard, are fields of `World` that start from constructor parameters.

As written, every call of the game-over screen records the final score once. So a frame
in which several enemy bullets hit, or several enemies reach the ship's line together,
records the same score several times. The model keeps this: see `RecordTimes`,
`Scoreboard.RecordTimesRepeats` and `SpaceWar.World.CheckOutcome`.

## Model

| member | source | states |
|---|---|---|
| Entities.EdgeIsOutside | www/index.js:328-332 | The hit test's comparisons are strict: a point on any edge of a rectangle is never inside it. |
| Entities.BulletsMoveStraight | www/index.js:155 | A bullet keeps its x and its speed. When time passes, a player bullet (speed -400) rises and an enemy bullet (speed 200) falls. |
| Entities.ParticleFades | www/index.js:204-206 | A frame of dt takes dt of a particle's life and dt / 0.5 of its opacity. The particle survives the pruning exactly when it had more than dt of life left. |
| Lists.ApplyAt | www/index.js:300-303 | Element i of the updated list is the update of element i. |
| Lists.FilterDrops | www/index.js:352-364 | A pruning pass that rejects any one element returns fewer elements than it was given. |
| Lists.FilterKeepsAll | www/index.js:352-364 | A pruning pass that accepts every element returns its input unchanged. |
| Lists.FilterSound | www/index.js:300-307 | Every element kept by a pruning pass is an accepted element of the input. |
| Lists.FilterConcat | www/index.js:300-307 | Pruning works piecewise, so survivors keep their relative order. |
| Lists.FilterMultiset | www/index.js:300-307 | Pruning keeps every occurrence of an accepted value and no occurrence of a rejected one. |
| Lists.PrunedExactly | www/index.js:379-382 | A value survives the update-then-prune pass exactly when the test accepts it and it is the update of some input element. |
| Lists.PruneBackward | www/index.js:300-303 | The backward loop — update element i, splice it out when rejected, step back — yields exactly the accepted elements of the updated list, in order. |
| Levels.SpawnEnemies | www/index.js:231-248 | The nested row and column loops push exactly the level's grid, row by row. |
| Levels.GridShape | www/index.js:234 | The grid has 10 × min(6, 3 + level) enemies: 40 at level 1 and 60 from level 3 on. |
| Levels.GridCell | www/index.js:240-245 | Enemy k is in row k / 10 and column k % 10, at (50 + 50·col, 50 + 40·row). It is 30×20 and its kind is the row's parity. |
| Levels.GridRowMajor | www/index.js:240-247 | The grid is in row-major order and no two enemies overlap. |
| Levels.FireInterval | www/index.js:262 | The fire interval is at least 500 ms, is 2000 at level 1 and 500 from level 9 on; otherwise it is 2000 - (level - 1)·200. |
| Levels.HarderWithLevel | www/index.js:260-262 | A later level never fires less often and never marches slower. |
| Formation.StepMeaning | www/index.js:308-317 | Every enemy moves by the same dx. The formation reverses and steps down by dy exactly when some moved enemy's left edge is at or past 0 or its right edge is at or past the wall. |
| Formation.StepIsRigid | www/index.js:308-317 | The march keeps the distance between any two enemies, and their sizes and kinds. |
| Formation.ClearOfWallsKeepsGoing | www/index.js:312-317 | A formation strictly clear of both walls after the move neither reverses nor descends. |
| Formation.ShiftAll | www/index.js:310-313 | The first `forEach` shifts every enemy and reports whether any shifted enemy is at a wall. |
| Formation.LowerAll | www/index.js:316 | The second `forEach` steps every enemy down by dy. |
| PlayerShip.Clamp | www/index.js:103 | The left edge ends in [0, width of field - width of ship]: unchanged inside, and pushed to the nearer bound outside. |
| PlayerShip.VolleyLayout | www/index.js:116-136 | A shot at power-up level N is N + 1 bullets at the ship's y with speed -400. One bullet sits at the centre; several are evenly spaced, the first at the left edge and the last at the right edge. |
| PlayerShip.Player.constructor | www/index.js:89-99 | The ship is 40×20, centred, 50 above the bottom, with speed 300, cooldown 0.3, no power-up and timers at 0. |
| PlayerShip.Player.Shoot | www/index.js:116-136 | The push loop returns exactly the volley for the current power-up level, powerUpLevel + 1 bullets, and nothing else changes. |
| PlayerShip.Player.DragTo | www/index.js:43 | The ship's centre is put under the pointer, unclamped. |
| PlayerShip.Player.Update | www/index.js:100-115 | The ship moves by the held keys and is clamped. The cooldown counts down, and the ship fires the volley of the old level when fire is held and the cooldown has run out, which resets the cooldown. A running power-up counts down and drops back to level 0 on expiry. |
| Combat.LastHitMeaning | www/index.js:326-333 | The enemy the inner loop stops at is hit by the bullet, and the bullet hits no enemy after it. |
| Combat.LastHitUnique | www/index.js:326-349 | Those two facts pin the index down: it is the highest index the bullet hits, or -1. |
| Combat.FindTarget | www/index.js:326-350 | The inner backward loop with `break` returns that index. |
| Combat.ResolveHits | www/index.js:324-351 | Every bullet of the pass either survives or kills exactly one enemy, and every enemy either survives or is killed. |
| Combat.KillsAreRemovedEnemies | www/index.js:335 | The surviving enemies and the kills together are the formation as it was, as a multiset. |
| Combat.SurvivorsAreInputBullets | www/index.js:334 | The surviving bullets are bullets of the input. |
| Combat.NoHitLeft | www/index.js:324-351 | After the pass no surviving bullet lies inside any surviving enemy. |
| Combat.KillsWereHit | www/index.js:328-335 | Every killed enemy was strictly hit by some bullet. |
| Combat.PushBurst | www/index.js:342-344 | The 20 pushes add one kill's burst of sparks at the kill's centre. |
| Combat.Reward | www/index.js:336-347 | One kill gives 10 points, raises the best score when passed, adds 20 sparks and, when its roll is below 0.2, adds a power-up at its centre. |
| Combat.ShootDown | www/index.js:324-351 | The nested loop gives the bullets, formation, score, high score, sparks and power-ups of `ResolveHits`: 10 points per kill; a best score that follows the points once anything is killed; the debris of every kill and the drops their rolls allow. |
| Scoreboard.SortDescSorts | www/index.js:271 | The sort orders highest first and is a permutation. |
| Scoreboard.PrefixHoldsLargest | www/index.js:272 | The first n entries of a sorted list are its n largest. |
| Scoreboard.KeepsTopTen | www/index.js:268-274 | The new board is sorted, holds min(n + 1, 10) entries drawn from the old board and the new score, and every score left out is at most every score kept. |
| Scoreboard.NewScoreListedWhileNotFull | www/index.js:270-272 | On a board of fewer than ten entries the new score is always listed. |
| Scoreboard.NewScoreListedWhenItBeatsAnEntry | www/index.js:270-272 | On a full board a new score above any one entry is listed. |
| Scoreboard.NewScoreDroppedBelowEveryEntry | www/index.js:270-272 | On a full board a new score below every entry is not listed. |
| Scoreboard.RecordTimesKeepsBoard | www/index.js:411-414 | However many game-over screens a frame shows, the board stays at most ten entries and sorted. |
| Scoreboard.RecordTimesRepeats | www/index.js:383-388 | Recording one score n times onto an empty board leaves it in min(n, 10) places. |
| SpaceWar.ShooterIndex | www/index.js:320 | `Math.floor(roll * n)` is an index below n, the floor of roll · n. |
| SpaceWar.SquaredDistanceAgrees | www/index.js:370-371 | For a distance d ≥ 0, d < reach holds exactly when the reach is positive and d² < reach², so the squared test is the square-root test. |
| SpaceWar.ReachedCount | www/index.js:383-388 | The count of enemies at the ship's line is positive exactly when some enemy's lower edge reaches it. |
| SpaceWar.AdvanceTradesEnemiesForPoints | www/index.js:298-393 | Over a whole frame, 10 × the number of enemies + the score is unchanged: an enemy leaves the formation only as a kill worth 10 points. |
| SpaceWar.AdvanceRaisesHighScore | www/index.js:336-340 | From a scene whose score is within its high score: after a frame the high score is the larger of the old high score and the new score, the score never falls, and it stays within the high score. |
| SpaceWar.AdvanceKeepsShipOnField | www/index.js:100-103 | After a frame the ship's left edge is at least 0 and, when the ship fits, at most the width of the field less the ship's width. |
| SpaceWar.AdvanceOutcome | www/index.js:352-392 | How a frame ends. The level is complete when no enemy is left. Otherwise the game is over when an enemy has reached the ship's line or an enemy bullet, after moving, lies inside the ship; and with neither cause the state is exactly the one the frame began in. From play, the level is complete exactly when no enemy is left. |
| SpaceWar.AdvanceKeepsBoard | www/index.js:352-392 | However many game-over screens a frame shows, a board of at most ten entries keeps at most ten, and a sorted board stays sorted. |
| SpaceWar.Reckon | www/index.js:383-388 | The `forEach` over the enemies counts exactly the enemies at the ship's line and records the final score once for each. |
| SpaceWar.ShipHits | www/index.js:352-364 | The backward loop removes exactly the enemy bullets strictly inside the ship. It records the final score once per hit. |
| SpaceWar.Pickups | www/index.js:365-378 | The corrected pickup loop: every power-up falls once. Those within reach are removed, each raising the power-up level by one. The timer is 5 after any catch and unchanged otherwise. |
| SpaceWar.WrittenUpdatePass | www/index.js:365-378 | The pickup loop of `update` as written: a catch removes the power-up, sets the timer and the unused `poweredUp` flag, and leaves the level unchanged. |
| SpaceWar.WrittenSparkRounds | www/index.js:208-221 | The pickup loop inside `Particle.update` as written, run once per live spark: power-ups fall again every round, and each catch raises the level by one. |
| SpaceWar.WrittenCatchGivesNoUpgrade | www/index.js:372-375 | With no live spark, a power-up at the ship's centre is removed as written but the level stays 0; the corrected pass catches it. |
| SpaceWar.WrittenPowerUpFallsPerSpark | www/index.js:208-210 | With one live spark, a power-up out of reach falls twice per frame as written: from y 100 to 110 with dt = 1. |
| SpaceWar.World.constructor | www/index.js:14-25 | The page at load: the menu is up, level 1, direction 1, speed 20, step 10, fire interval and timer 2000, empty lists, and the stored high score and scoreboard. The ship of `new Player()` (line 229) is centred 50 above the bottom, with cooldown 0 (it can fire on the first frame of play), no power-up and the power-up timer at 0. |
| SpaceWar.World.SteerShip | www/index.js:100-115 | `player.update` on the world: the ship steers by the held arrow or a/d keys and fires on space or the fire button; its shots join the player-bullet list. The scene changes by `Steered` and nothing else, and the ship ends on the playfield. |
| SpaceWar.World.AdvancePlayerBullets | www/index.js:300-303 | The player bullets move and those above the top are removed; the scene changes by `PlayerBulletsFlown` and nothing else. |
| SpaceWar.World.AdvanceEnemyBullets | www/index.js:304-307 | The enemy bullets move and those below the bottom are removed; the scene changes by `EnemyBulletsFlown` and nothing else. |
| SpaceWar.World.AdvanceParticles | www/index.js:379-382 | The particles age and the spent ones are removed; the scene changes by `Aged` and nothing else. |
| SpaceWar.World.MarchFormation | www/index.js:308-317 | The formation becomes the march `Step` by direction · speed · dt. The direction flips exactly when it reversed, no enemy is gained or lost, and the scene changes by `Marched` and nothing else. |
| SpaceWar.World.EnemyFire | www/index.js:318-323 | The timer counts down by dt·1000. When it has run out and enemies are left, the chosen enemy fires from its bottom centre at speed 200 and the timer restarts at the interval; otherwise nothing fires. The scene changes by `Fired` and nothing else. |
| SpaceWar.World.ResolvePlayerHits | www/index.js:324-351 | The world's player bullets, enemies, score, high score, sparks and power-ups become those of `ResolveHits` with its rewards; the scene changes by `Struck` and nothing else. |
| SpaceWar.World.ResolveEnemyHits | www/index.js:352-364 | Exactly the enemy bullets inside the ship are removed, the score is recorded once per hit, and any hit ends the game; the scene changes by `ShipStruck` and nothing else. |
| SpaceWar.World.CollectPowerUps | www/index.js:365-378 | The corrected pickup pass on the world's list and the ship: the power-ups left are those out of reach after falling, the level rises by the number caught, and the timer is 5 after a catch. The scene changes by `Collected` and nothing else. |
| SpaceWar.World.CheckOutcome | www/index.js:383-392 | Each enemy at the ship's line ends the game and records the score once. Then an empty formation completes the level, overriding a game over. The scene changes by `Decided` and nothing else. |
| SpaceWar.World.MovePhase | www/index.js:299-323 | The movement half of the step moves the scene exactly by `Moved`: the ship steers and fires, both bullet lists fly and are pruned, the formation marches, an enemy may fire. No enemy is gained or lost and the ship ends on the playfield. |
| SpaceWar.World.CollidePhase | www/index.js:324-364 | The collision half moves the scene exactly by `Collided`: kills trade enemies for 10 points each, and the board stays a sorted top ten. |
| SpaceWar.World.SettlePhase | www/index.js:365-392 | The closing half moves the scene exactly by `Settled`: pickups, aging, and the outcome check. The board stays a sorted top ten. |
| SpaceWar.World.Update | www/index.js:298-393 | One step moves the scene exactly by `Advance`. The invariant holds; 10·enemies + score is conserved; the high score is the larger of the old one and the score; the ship is on the playfield; the board stays a sorted top ten. The step ends complete when no enemy is left; otherwise an enemy at the ship's line ends the game, and else the state is kept or the game is over. |
| SpaceWar.World.Frame | www/index.js:289-296 | dt is the time since the last frame in seconds, 0 on the first. The timestamp is remembered. Outside play the scene is unchanged. In play the scene moves by `Advance` and every promise of `Update` holds, with the level complete exactly when no enemy is left. |
| SpaceWar.World.InitLevel | www/index.js:250-266 | The lists are empty, the ship is back at its start, the level's grid, speed, step and interval are set, the timer equals the interval, and the power-up level is 0. |
| SpaceWar.World.NewGame | www/index.js:432-447 | Start and restart: playing level 1 with score 0, 40 enemies of `Grid(1)`, speed 20, interval and timer 2000, empty lists, the ship at its start without a power-up; the high score, the board and the direction are kept. |
| SpaceWar.World.NextLevel | www/index.js:448-453 | One level up with the score, high score, board and direction kept: the new grid, empty lists, an interval no longer than before with the timer at it, a faster march, and the ship at its start without a power-up. |
| SpaceWar.World.KeyDown | www/index.js:33-35 | A key is recorded as held only while playing. |
| SpaceWar.World.KeyUp | www/index.js:36 | A key is released in any state. |
| SpaceWar.World.SetShooting | www/index.js:76-86 | The fire button's press and release set the shooting input. |
| SpaceWar.World.PointerDown | www/index.js:38-45 | mousedown and touchstart: while playing, a drag starts and the ship is centred under the pointer; otherwise nothing changes. |
| SpaceWar.World.PointerMove | www/index.js:46-52 | mousemove and touchmove: during a drag while playing the ship follows the pointer; otherwise nothing changes. |
| SpaceWar.World.PointerUp | www/index.js:53-54 | mouseup, mouseleave and touchend end the drag. |

## Left out

- Drawing, the DOM overlays, the score display and `updateScoreboardOverlay`: presentation only; the core's state does not depend on them.
- `localStorage`: the high score and the scoreboard are `World` fields, read once through the constructor; writing them back is I/O. The JavaScript coercion of the stored high-score string is not modelled.
- `resizeCanvas` and `scaleFactor`: the canvas takes the window's width and its height less the scoreboard bar. The model takes both as constructor parameters, fixed for the game, and takes the scale factor as 1, so every size and speed is its base constant.
- `Math.random`: the shooter roll and the drop rolls are parameters. New sparks get velocity 0 instead of a random one, because their motion is cosmetic.
- `Math.sqrt` in the pickup test: the model compares squared distances, and `SpaceWar.SquaredDistanceAgrees` shows the two tests agree.
- The particle's `alpha` field: `Entities.Alpha` computes it from the life instead of storing it.
- `requestAnimationFrame` scheduling: `Frame` is one callback, with the timestamp as a parameter.
- `initLevel` re-assigns the ship's width, height and speed to the same constants: these are `const` fields of `Player`.
- The pickup loop pasted into `Particle.update` and the `poweredUp` flag: the world runs the corrected single pickup pass (see Findings). They are modelled as written only in `SpaceWar.WrittenUpdatePass` and `SpaceWar.WrittenSparkRounds`.
- Real numbers are exact: floating-point rounding of positions and timers is not modelled.

## Findings

| source | as written | input that shows it | evidently intended | confidence | as-written member | corrected member |
|---|---|---|---|---|---|---|
| www/index.js:365-378 | A catch in `update` only sets the unused `poweredUp` flag and the timer, so the power-up level never rises there. The level is raised only by a copy of the loop inside `Particle.update` (lines 208-221), which runs once per live spark, so power-ups also fall once more per spark. | No live spark, ship at (380, 530), power-up at (400, 540): the power-up is removed, the timer is 5, and the level stays 0. With one spark, a power-up out of reach at y 100 ends a frame of dt = 1 at y 110 instead of 105. | One pickup pass per frame: every power-up falls once, and each catch raises the power-up level by one and sets the timer to 5. | high; not executed | SpaceWar.WrittenCatchGivesNoUpgrade | SpaceWar.Pickups |
