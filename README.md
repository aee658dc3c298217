# pacman.js game core in Dafny

This project models the game engine of `pacman.js`, a browser Pac-Man.

- **Board.** A fixed 21 x 19 tile map holds walls (`X`), pellets, the four ghosts (`b`, `o`, `p`, `r`) and pacman (`P`).
- **Loading.** `loadMap` turns the map into the wall, pellet and ghost Sets plus the pacman Block.
- **Tick.** Every 50 ms `update` calls `move`. Pacman steps and is rolled back off walls and the board edge; the ghosts then move in order.
- **Ghosts.** One ghost, the chaser drawn by `assignChaser`, pursues pacman greedily by Manhattan distance. The others wander in random directions.
- **Scoring and lives.** Touching a ghost costs a life, or ends the game on the last life. Eating a pellet scores 10 points. An empty board ends the level.
- **Controls.** `handleInput` turns pacman when the snapped turn is clear. `startGame`, `resetGame`, the start button and three timer callbacks manage the score, the lives and the game flags.

Modules, in dependency order:

- `Geometry` (geometry.dfy):
  - the board constants and `collision`;
  - the board-bounds test and headings with their velocities;
  - JavaScript's `%` and `Math.round(x / tileSize)`.
- `WorldMap` (worldmap.dfy): the tile map, and what the nested loops of `loadMap` have created once they stand at row r, column c. Cells are indexed by (row, column).
- `Actors` (actors.dfy): the `Block` class as class `Actor`. Each method that changes a Block is proved against a function on its `Pose`, which holds position, heading and velocity.
- `GhostAI` (ghostai.dfy):
  - `chooseBestChaseDirection`;
  - the per-ghost part of `move`: house exit, tile-centre decision and wall rollback.
- `Rules` (rules.dfy): the whole game state as a value `World`, and each operation as a function from World to World. The lemmas about the game are proved on these functions, including the invariant `Sane` that every operation keeps.
- `Game` (game.dfy): the globals of the script as class `Session`. Each operation is a method that changes the session in place. Each method is proved to satisfy `View() == F(old(View()), ...)`, where `F` is the matching function of `Rules`, and to keep `Valid()`.

Randomness is a parameter:

- A `sort(() => Math.random() - 0.5)` shuffle is supplied from a list `rng` of heading orders. Each operation gives every place where it may draw a shuffle a fixed slot of `rng`, whether or not an earlier place drew one: in `move`, ghost i uses slots 2i and 2i + 1; in `resetPositions` and the ready timer, ghost i uses slot i. Operations that draw in two phases take two separate lists. The rows under "## Model" give the slots. `OrderAt(rng, i)` falls back to U, D, L, R when `rng` is too short.
- The colour picked by `assignChaser` is a parameter `c`.

The body of each `setTimeout` callback is a method of its own.

In these places the code does less than a reader might expect, and the model follows the code:

- **Turning.** `attemptDirectionChange` has no exception for reversing. A moving pacman that asks to turn back is snapped to a tile and tested like any other turn.
- **Chaser's wall test.** The chaser drops a heading only when it overlaps a wall; the board bounds are not tested.
- **Chaser with no candidate.** The chaser has no reversal fallback. When no heading is a candidate it keeps its heading, and its velocity is recomputed from that heading, so a stopped chaser starts moving again.
- **Wall rollback.** The ghost rollback subtracts the velocity in force after the tile-centre decision, which is not always the velocity that was just applied. Its board-bounds test sits inside the loop over the walls, so it runs only when some wall exists.
- **Missing pacman.** A map without `P` raises no error: `move` and `handleInput` simply do nothing.

## Model

| member | source | states |
|---|---|---|
| Geometry.JsRem | pacman.js:560 | `ghost.x % tileSize` truncates: the magnitude of the remainder is `|a| mod n` and its sign is the dividend's |
| Geometry.CollisionSharesPixel | pacman.js:669-674 | for boxes of positive size, `collision(a, b)` holds exactly when some pixel lies inside both boxes |
| Geometry.CollisionSymmetric | pacman.js:669-674 | `collision(a, b)` equals `collision(b, a)` |
| Geometry.TouchingBoxesDoNotCollide | pacman.js:669-674 | boxes that only share an edge do not collide |
| Geometry.Velocity | pacman.js:957-975 | each heading moves exactly `tileSize / 4` pixels along one axis (U and D vertically, L and R horizontally), with up being negative y and left negative x |
| Geometry.Opposite | pacman.js:888-894 | the opposite heading differs from the heading and has the negated velocity |
| Geometry.OppositeInvolutive | pacman.js:888-894 | taking the opposite of the opposite heading gives back the heading |
| Geometry.RoundToTile | pacman.js:808-809 | `Math.round(x / tileSize)` is the tile index n that satisfies `32n - 16 <= x < 32n + 16` |
| Geometry.Snap | pacman.js:808-815 | the snapped coordinate is a multiple of 32 in the half-open window (x - 16, x + 16], so an exact half tile rounds up as `Math.round` does |
| Geometry.GridTilesCollideOnlyIfEqual | pacman.js:305-308 | two 32x32 grid-aligned walls overlap exactly when they coincide |
| Geometry.SnapKeepsClear | pacman.js:808-815 | snapping a 32x32 box that is on the board and clear of grid walls gives a box that is still on the board and clear |
| Geometry.CollidesWithAnyWall | pacman.js:919-924 | the wall scan with early `break` reports exactly whether some wall overlaps the box |
| WorldMap.TileMapShaped | pacman.js:25-47 | the tile map has 21 rows of at least 19 characters |
| WorldMap.GhostOf | pacman.js:312-327 | exactly the letters b, o, p, r spawn a ghost, and each letter gets its own colour: b blue, o orange, p pink, r red |
| WorldMap.PacmanCellBefore | pacman.js:328-330 | the recorded pacman cell lies among the cells already visited |
| WorldMap.WallsBeforeMembers | pacman.js:305-308 | a wall exists exactly at each visited `X` cell, as that cell's 32x32 box |
| WorldMap.FoodsBeforeMembers | pacman.js:333-339 | a 4x4 pellet exists exactly at each visited ' ', `P` or ghost cell |
| WorldMap.PacmanCellBeforeIsLastP | pacman.js:328-330 | pacman stands on the last `P` visited; with no `P` there is none |
| WorldMap.WallsAreTiles | pacman.js:305-308 | every loaded wall is a whole grid tile |
| WorldMap.OpenCellIsClear | pacman.js:297-330 | the box of any non-`X` cell is on the board and overlaps no loaded wall |
| Actors.Without | pacman.js:854 | filtering out a heading drops every copy of it and keeps every other heading as often as the order has it |
| Actors.FirstMovableIsFirst | pacman.js:862-867 | the loop finds a movable heading with only blocked headings before it, and finds none exactly when all are blocked |
| Actors.HeadingsIsShuffle | pacman.js:54 | the `directions` order is one of the shuffles |
| Actors.ChooseNewOutcomes | pacman.js:850-885 | for any shuffle: a movable non-reversing heading whenever one exists; otherwise the reverse if movable; otherwise the heading is kept with zero velocity; the position never changes |
| Actors.Actor.constructor | pacman.js:782-795 | a new Block faces right, at rest, with its spawn position equal to its position |
| Actors.Actor.UpdateVelocity | pacman.js:957-975 | the velocity becomes the heading's velocity, and nothing else changes |
| Actors.Actor.CanMoveInDirection | pacman.js:897-932 | the result is whether one step in the tested heading stays on the board and clear of walls; position and heading are restored, and the velocity is recomputed from the heading |
| Actors.Actor.AttemptDirectionChange | pacman.js:797-847 | a stopped Block takes the new heading; a moving one takes it at the snapped tile when that step is clear, and otherwise keeps its position and heading |
| Actors.Actor.ChooseNewDirection | pacman.js:850-885 | the pose becomes `ChooseNew` of the old pose with the supplied shuffle; `ChooseNewOutcomes` states what that pose is |
| Actors.Actor.Reset | pacman.js:977-989 | the Block is back on its spawn position, facing right, at rest |
| GhostAI.ChaseFoldFrom | pacman.js:428-464 | whatever the loop knows after trying the first i headings, finishing the loop yields the greedy choice |
| GhostAI.BestChaseIsGreedy | pacman.js:418-467 | the pursuit never picks the reverse heading, picks the first candidate of least Manhattan distance in U, D, L, R order, and keeps the heading when there is no candidate |
| GhostAI.ChooseBestChaseDirection | pacman.js:418-467 | returns null exactly when pacman is absent; otherwise returns the greedy, non-reversing choice |
| GhostAI.ChaserNeverReversesAtTileCentre | pacman.js:558-574 | at a tile centre the chaser's new heading is never the reverse of its old heading |
| GhostAI.WandererReversesOnlyWhenCornered | pacman.js:575-578 | at a tile centre a wanderer turns back only when every other heading is blocked at the snapped position |
| GhostAI.NeedsRollback | pacman.js:582-599 | the rollback triggers exactly when some wall exists and the ghost is off the board or overlaps a wall |
| GhostAI.ExitHouse | pacman.js:542-552 | inside the pen (row 9, columns 8 to 10) the ghost heads up when up is movable |
| GhostAI.TurnAtTileCentre | pacman.js:558-579 | within 4 pixels of a tile corner the ghost snaps to the tile; the chaser then pursues and the others wander |
| GhostAI.RollBackFromWall | pacman.js:581-599 | a blocked ghost steps back by its current velocity, stops, and chooses a new heading |
| GhostAI.MoveGhost | pacman.js:540-600 | one ghost's turn is house exit, then step, then decision, then rollback |
| Rules.GhostsBeforeMembers | pacman.js:312-327 | one ghost per ghost letter visited, spawned on its cell with that letter's colour |
| Rules.LoadedContents | pacman.js:290-343 | `loadMap` builds walls at the `X` cells when either flag is set; on a full load that is not walls-only it also builds pellets, ghosts and pacman; with neither flag the board is empty; score, lives and flags are untouched |
| Rules.LoadedKeepsSane | pacman.js:290-343 | loading keeps the session invariant: walls are grid tiles and pacman spawns clear |
| Rules.PacmanStepOutcomes | pacman.js:473-493 | a blocked step restores pacman's position and zeroes its velocity; a clear step applies the velocity; a pacman that was clear stays clear |
| Rules.FirstOverlap | pacman.js:604-614 | the index of the first box that overlaps, with none before it; the length when none overlaps |
| Rules.FirstCollision | pacman.js:604-614 | the pellet loop with `break` returns that first overlapping index |
| Rules.StepGuard | pacman.js:470-471 | `move` changes nothing unless the game runs with a pacman and no death pause; the walls, the chaser and the submitted flag never change |
| Rules.StepContact | pacman.js:496-538 | on ghost contact: with lives <= 1, lives become 0 and the game is over and stopped; otherwise one life is lost and the pause begins; no pellet is eaten and later ghosts do not move |
| Rules.FeedEatsAtMostOne | pacman.js:603-617 | either nothing is eaten and no pellet overlaps pacman, or exactly one overlapping pellet is removed and 10 points are added |
| Rules.StepEatsAtMostOne | pacman.js:470-631 | per tick at most one pellet goes, and the score rises by exactly 10 when one does |
| Rules.StepLevelClear | pacman.js:619-630 | a tick without contact leaves the game running exactly when pellets remain |
| Rules.StepKeepsSane | pacman.js:470-631 | `move` keeps the invariant: lives stay in 0..3, the score stays a non-negative multiple of 10, game over implies 0 lives, and pacman is never inside a wall or off the board |
| Rules.SteerOutcomes | pacman.js:633-651 | a key changes only pacman's pose, and only while the game runs; on a stopped pacman the arrow and WASD keys set the heading they name |
| Rules.SteerKeepsSane | pacman.js:797-847 | a turn that is taken lands on a clear tile |
| Rules.RepositionedOutcomes | pacman.js:676-689 | every actor is back on its spawn position and nothing else changes; pacman faces right at rest; a ghost that can leave in a heading other than left does so |
| Rules.RepositionedKeepsSane | pacman.js:676-689 | `resetPositions` keeps the invariant |
| Rules.StartedOutcomes | pacman.js:186-244 | a new game has score 0 and 3 lives while a restart keeps both; the flags are cleared, the chaser is c, and every actor ends at rest on its spawn position, and pacman faces R |
| Rules.StartedKeepsSane | pacman.js:186-244 | `startGame` keeps the invariant |
| Rules.RestartedOutcomes | pacman.js:247-286 | after `resetGame` the score is 0, there are 3 lives and nothing runs; going back to the menu empties the board; keeping the map reloads it and draws a new chaser |
| Rules.RestartedKeepsSane | pacman.js:247-286 | `resetGame` keeps the invariant |
| Rules.PressedKeepsSane | pacman.js:117-133 | the start button keeps the invariant |
| Rules.UpdatedOutcomes | pacman.js:346-376 | game over marks the score submitted and changes nothing else; a stopped or paused game is left as it is |
| Rules.UpdatedKeepsSane | pacman.js:346-376 | `update` keeps the invariant |
| Rules.ReadyKeepsSane | pacman.js:221-233 | the ready timer keeps the invariant |
| Rules.RevivedKeepsSane | pacman.js:526-535 | the death-pause timer keeps the invariant |
| Rules.NextLevelOutcomes | pacman.js:625-629 | a new level keeps the score and lives, refills every pellet, clears game over and the pause, and keeps the invariant |
| Game.Rehome | pacman.js:682-688 | one ghost returns to its spawn, stops, and chooses a new heading |
| Game.StepPacman | pacman.js:473-493 | pacman's pose becomes `PacmanStep` of its old pose; `PacmanStepOutcomes` states what that pose is |
| Game.Session.constructor | pacman.js:49-75 | the script starts with empty Sets, no pacman, score 0, 3 lives and every flag false |
| Game.Session.SpawnActor | pacman.js:312-330 | a ghost letter appends a fresh ghost of its colour, and `P` replaces pacman with a fresh Block |
| Game.Session.LoadWall | pacman.js:305-308 | an `X` cell appends its wall when either flag is set |
| Game.Session.LoadFood | pacman.js:333-339 | a ' ', `P` or ghost cell appends its pellet |
| Game.Session.LoadEntities | pacman.js:311-340 | on a full load, a cell adds its ghost or pacman and then its pellet |
| Game.Session.LoadCell | pacman.js:299-340 | after visiting a cell, walls, pellets, ghosts and pacman are what the cells visited so far create |
| Game.Session.LoadRow | pacman.js:298-341 | after the inner loop, the whole row has been loaded |
| Game.Session.LoadGrid | pacman.js:297-342 | after the outer loop, the whole map has been loaded, and the actors are new Blocks |
| Game.Session.ClearEntities | pacman.js:291-295 | the three Sets are emptied and pacman is dropped |
| Game.Session.LoadMap | pacman.js:290-343 | the session becomes `Loaded` of the old session (see `LoadedContents`), the actors are new Blocks, and the invariant holds |
| Game.Session.RehomeGhosts | pacman.js:682-688 | every ghost respawns and chooses a heading, ghost i with shuffle slot i |
| Game.Session.ResetPositions | pacman.js:676-689 | the session becomes `Repositioned` of the old session (see `RepositionedOutcomes`) |
| Game.Session.Rearm | pacman.js:194-203 | score and lives are reset unless this is a restart; the flags are cleared and the chaser is drawn |
| Game.Session.HaltGhosts | pacman.js:240-243 | every ghost's velocity is zeroed |
| Game.Session.HaltActors | pacman.js:235-243 | pacman and every ghost are at rest, and nothing else changes |
| Game.Session.StartGame | pacman.js:186-244 | the session becomes `Started` of the old session (see `StartedOutcomes`), and the same Blocks remain |
| Game.TakeTurn | pacman.js:540-600 | the i-th ghost's record becomes `GhostTurn` of its old record: house exit, step, decision at a tile centre, rollback; the i-th ghost draws shuffles 2i and 2i + 1 |
| Game.MoveGhosts | pacman.js:495-601 | the result says whether some ghost touches pacman before it moves; exactly the ghosts before the first such ghost have taken their turns (`TickGhosts` up to `FirstOverlap`), and the others are unchanged |
| Game.Session.LoseLife | pacman.js:502-518 | contact on the last life ends the game; otherwise one life is lost and the pause begins |
| Game.Session.EatFood | pacman.js:603-630 | the first overlapping pellet is eaten for 10 points, and an empty board stops the game |
| Game.Session.Move | pacman.js:470-631 | the session becomes `Step` of the old session (see `StepGuard`, `StepContact`, `StepEatsAtMostOne`, `StepLevelClear` and `StepKeepsSane`) |
| Game.Session.Update | pacman.js:346-376 | the session becomes `Updated` of the old session (see `UpdatedOutcomes`) |
| Game.Session.HandleInput | pacman.js:633-651 | the session becomes `Steer` of the old session (see `SteerOutcomes`) |
| Game.Session.Rezero | pacman.js:256-262 | score 0, 3 lives and every flag false, with nothing else changed |
| Game.Session.ResetGame | pacman.js:247-286 | the session becomes `Restarted` of the old session (see `RestartedOutcomes`) |
| Game.Session.PressStart | pacman.js:117-133 | before a game it loads the full map and starts a new game; during a game it returns to the menu |
| Game.Session.RedirectGhosts | pacman.js:227-229 | every ghost chooses a heading, ghost i with shuffle slot i of `orders` |
| Game.Session.ReadyDelayElapsed | pacman.js:221-233 | the game runs, the ghosts choose their headings, and `update` runs once |
| Game.Session.DeathPauseElapsed | pacman.js:526-535 | positions reset and the pause ends |
| Game.Session.LevelClearDelayElapsed | pacman.js:625-629 | a full reload, a position reset, then a restart that keeps score and lives (see `NextLevelOutcomes`) |

## Left out

- Drawing, images, sound, and every DOM update are not modelled: `draw`, `loadImages`, status messages, button styles and the game-over dialog. This includes the sprite swaps in `handleInput` and `reset`. A ghost's `image` is modelled only through its colour, which is what the chaser comparison reads.
- Timers are not modelled as pending events. The callback bodies are methods that can be called in any state, so `clearTimeout` and `gameLoopTimeout` have no counterpart. `Update` makes one call of `update`, not the 50 ms loop it schedules. The `update` scheduled by the death-pause timer and after game over is a separate call.
- `Math.random` is not modelled: the shuffles and the chaser colour are parameters.
- The leaderboard is not modelled, because it is network I/O: `submitFinalScore`, `sendScore`, `fetchLeaderboard`, `displayLeaderboard`, and submit_score.php and get_leaderboard.php.
- `updateDirection` is not modelled: nothing calls it.
- `showStartMessage` is not modelled: only drawing reads it.
- The keyboard and on-screen button listeners are not modelled except as calls to `HandleInput` with the key code.
- Walls and pellets are plain boxes rather than Blocks, because nothing ever changes them. A pellet is removed by its position in the Set's insertion order, which is the same as deleting that pellet object, since no two pellets coincide.
- Numbers are exact integers. Every coordinate in the game is a small integer, so JavaScript's doubles lose nothing. `Math.round(x / 32)` is `(x + 16) / 32` with floor division, which is exact for integers.
- The invariant proved is `Sane`. Because timers are not tracked, it does not include facts that depend on which callback is pending, such as game over implying the game is stopped.
- The shuffle lists `rng` and `orders` are not required to hold shuffles. The session methods accept any heading orders, including ones `sort(() => Math.random() - 0.5)` can never produce, such as `[]` or `[U, U, U, U]`. The lemmas whose conclusions depend on a real shuffle (`ChooseNewOutcomes`, `RepositionedOutcomes`, `WandererReversesOnlyWhenCornered`) require `IsShuffle` themselves.
