# Enemy controller of the maze game

A Dafny model of the enemy of a tile-based maze game
(`core/src/de/tum/cit/ase/maze/Enemy.java`). Each frame a live enemy measures its
squared distance to the player and switches between patrolling and chasing
within a detection radius of four 16-unit tiles. It then does one of two things:

- It patrols: it walks in its facing direction, and when the wall test (which
  probes the neighbouring tile of a 2-D layout of tile codes) reports a wall, it
  draws a new direction.
- It chases: it follows a path from the path planner, node by node, with a
  per-axis step that never overshoots. It re-plans when the path is missing,
  empty or used up.

Death is a flag that, once set, stops every frame from changing the enemy.

The model has three modules:

- `Grid` (`grid.dfy`) covers directions, path nodes, and Java's truncating
  `(int)` cast applied to grid coordinates. It also holds the wall test and the
  conversion of the layout to the planner's node grid, which fills an `array2`
  in nested loops.
- `Geometry` (`geometry.dfy`) covers the squared distance, the inclusive
  detection test, the node-reached test, the overshoot clamp, and the facing
  chosen from the dominant axis.
- `EnemyController` (`enemy.dfy`) holds the class `Enemy`. Its fields are the
  ones the source updates in place: position, state, facing, path, path cursor
  and death flag. Its methods mirror `update`, `patrol`, `chooseNewDirection`,
  `chase`, `followPath`, `moveTowards`, `handleWallCollision`, `setPosition` and
  `die`. Each method is specified by pure functions of the old state
  (`PatrolOutcome`, `FollowStep`, `StepToward`, `ChaseFallback`), and the
  promised properties are proved about those functions.

Collaborators that are outside this model become parameters:

- The path planner (`AStar.findPath`) is a function fixed at construction. It
  takes the enemy's and the player's positions divided by the tile size and
  returns a sequence of nodes.
- `Math.sqrt` is a function. Only its sign behaviour is assumed: it is
  non-negative, and positive exactly on positive arguments.
- The player is a position polled by `Update`.
- Each random draw of a direction is an element of a supplied sequence,
  consumed in order. The 70% draw is a boolean.

World coordinates are reals. Behaviour the model keeps as the code has it:

- The node grid marks only tile code -1 as walkable, while the wall test treats
  only code 0 as a wall. Other codes are open to the wall test but blocked for
  the planner.
- Falling back from chasing to patrolling keeps the old path. It is cleared only
  when chasing starts again, so it is never followed stale.
- A blocked patrol may turn to the reverse direction: any direction other than
  the current one is accepted.
- The retry loops have no bound.
- The planner receives coordinates divided by 16, not whole cell numbers.
- A path node's target point is its corner (`x * 16`, `y * 16`), not the
  centre of its tile.

## Model

| member | source | states |
|---|---|---|
| Grid.TruncToInt | core/src/de/tum/cit/ase/maze/Enemy.java:193-194 | the `(int)` cast truncates toward zero: for a non-negative value the result is its floor, for a negative value its ceiling |
| Grid.GridCoord | core/src/de/tum/cit/ase/maze/Enemy.java:193-194 | a non-negative world coordinate maps to the tile that contains it; because of truncation, every coordinate strictly between -16 and 16 maps to cell 0 |
| Grid.IsCollisionWithWall | core/src/de/tum/cit/ase/maze/Enemy.java:192-219 | the wall test fails closed: a neighbouring cell outside the layout is a wall; inside the layout, the test reports a wall exactly when that cell's code is 0 |
| Grid.ConvertToNodes | core/src/de/tum/cit/ase/maze/Enemy.java:134-144 | a newly allocated node grid has the layout's dimensions, and node (i, j) carries coordinates i, j and is walkable exactly when the tile code is -1 |
| Grid.ProbedCellIsOneTileAway | core/src/de/tum/cit/ase/maze/Enemy.java:193-210 | moving right or up from any non-negative coordinate, or left or down from a coordinate of at least 16, the neighbouring cell the wall test probes is the cell containing the point one tile further on; truncation breaks this near 0: for a coordinate in (-16, 0) the probed right neighbour is cell 1 while the point a tile to the right lies in cell 0, and for a coordinate in (0, 16) the probed left neighbour is cell -1 while the point a tile to the left lies in cell 0 |
| Grid.WalkableNeighbourIsOpen | core/src/de/tum/cit/ase/maze/Enemy.java:139 | a neighbouring cell that the planner may walk on is never reported as a wall by the wall test |
| Geometry.DistanceSquared | core/src/de/tum/cit/ase/maze/Enemy.java:426-430 | the squared distance is never negative and is zero from a point to itself |
| Geometry.PlayerEntersGrid | core/src/de/tum/cit/ase/maze/Enemy.java:301-310 | the player is in range exactly when the squared distance is at most 64², inclusive; a player on the enemy's own position is in range |
| Geometry.DetectionBoundary | core/src/de/tum/cit/ase/maze/Enemy.java:301-310 | detection is inclusive: a player exactly 64 units away along either axis, in either direction, is detected, and one any amount further is not |
| Geometry.DetectionRegion | core/src/de/tum/cit/ase/maze/Enemy.java:301-310 | every player whose axis offsets add up to at most 64 is detected; a detected player is at most 64 units away along each axis |
| Geometry.ReachedNode | core/src/de/tum/cit/ase/maze/Enemy.java:457-459 | a node is reached exactly when the squared distance to it is below 2.0; standing on the node counts as reached |
| Geometry.ReachedNodeIsNear | core/src/de/tum/cit/ase/maze/Enemy.java:457-459 | standing on a node counts as reaching it, and a reached node is less than 2 units away along each axis |
| Geometry.ClampStep | core/src/de/tum/cit/ase/maze/Enemy.java:477-479 | a clamped step never exceeds the remaining distance; a step that fits is kept; a step longer than the remaining distance becomes exactly that distance, landing on the target's coordinate; a step toward the target lands between here and the target |
| Geometry.Facing | core/src/de/tum/cit/ase/maze/Enemy.java:485-490 | the facing is horizontal exactly when the horizontal offset strictly dominates, RIGHT exactly when that offset is also positive, and UP exactly when the vertical offset dominates or ties and is positive; the facing never points away from the target and points toward it whenever the offset is non-zero |
| EnemyController.FirstTrue | core/src/de/tum/cit/ase/maze/Enemy.java:261-288 | a retry loop over the supplied draws stops at an accepted draw, and every earlier draw was rejected |
| EnemyController.PatrolOutcome | core/src/de/tum/cit/ase/maze/Enemy.java:152-181 | an unblocked patrol step moves 16 * delta units in the facing direction and keeps the facing; a blocked step stays in place and turns to a supplied direction that differs from the old facing and passes the re-selection wall test |
| EnemyController.NeedsReplan | core/src/de/tum/cit/ase/maze/Enemy.java:233 | the enemy re-plans exactly when the cursor does not point at a node of an existing path |
| EnemyController.AxisStep | core/src/de/tum/cit/ase/maze/Enemy.java:474-479 | the step along one axis never exceeds the remaining distance; a scaled step that would pass the target becomes exactly the remaining distance; for non-negative elapsed time it stops between here and the target |
| EnemyController.StepArrives | core/src/de/tum/cit/ase/maze/Enemy.java:473-482 | when the scaled step would pass the target on every axis not already aligned with it, the enemy lands exactly on the target, which then counts as reached |
| EnemyController.StepToward | core/src/de/tum/cit/ase/maze/Enemy.java:468-484 | standing on the target, nothing moves; otherwise, for non-negative elapsed time, each coordinate ends between its old value and the target's (no overshoot) |
| EnemyController.FacingAfterMove | core/src/de/tum/cit/ase/maze/Enemy.java:473-491 | standing on the target keeps the facing; when the squared distance to the target is positive (the source's `magnitude > 0`), the facing is horizontal exactly when the horizontal offset strictly dominates, RIGHT exactly when it also is positive, and UP exactly when the vertical offset dominates or ties and is positive |
| EnemyController.FollowStep | core/src/de/tum/cit/ase/maze/Enemy.java:436-447 | the cursor never moves back and moves at most one step; it moves only when it pointed at a node, and it stays within the path; with no node to follow, nothing changes; when following, the position moves toward the node without passing it, the facing is FacingAfterMove, and the cursor advances exactly when the node is reached after the move |
| EnemyController.ChaseFallback | core/src/de/tum/cit/ase/maze/Enemy.java:324-341 | after a collision while chasing, the facing is horizontal exactly on the 70% draw. It is RIGHT exactly when the player is strictly to the right, UP exactly when the player is strictly above, and it points toward the player on the chosen axis whenever the two are not level on that axis |
| EnemyController.Enemy.constructor | core/src/de/tum/cit/ase/maze/Enemy.java:44-56 | a new enemy is patrolling in the drawn direction, with no path, cursor 0 and alive, and the node grid of the layout is built; the planner is an opaque parameter not tied to that grid |
| EnemyController.Enemy.SetPosition | core/src/de/tum/cit/ase/maze/Enemy.java:352-356 | the position becomes the given point and nothing else changes |
| EnemyController.Enemy.Die | core/src/de/tum/cit/ase/maze/Enemy.java:245-248 | the enemy is dead afterwards and nothing else changes |
| EnemyController.Enemy.Update | core/src/de/tum/cit/ase/maze/Enemy.java:364-393 | `isDead` never changes; a dead enemy changes nothing; a live one is CHASING exactly when the player is in range; entering CHASING clears the path and re-plans, and the frame then follows the path as FollowStep describes; out of range, the path and cursor are kept and the enemy patrols as PatrolOutcome describes; the cursor stays within its path |
| EnemyController.Enemy.Patrol | core/src/de/tum/cit/ase/maze/Enemy.java:152-181 | the new position and facing are the PatrolOutcome of the old ones |
| EnemyController.Enemy.ChooseNewDirection | core/src/de/tum/cit/ase/maze/Enemy.java:256-291 | the new facing is the first accepted draw; it differs from the old facing, and the wall test from one tile away in that direction, probing in the old direction, reports no wall |
| EnemyController.Enemy.Chase | core/src/de/tum/cit/ase/maze/Enemy.java:226-239 | a path exists afterwards; a missing, empty or used-up path is replaced by a new plan from the old position with the cursor restarted at 0 (it ends at 0 or 1); otherwise the path is kept and the cursor advances by 0 or 1; the move is FollowStep from that cursor |
| EnemyController.Enemy.FollowPath | core/src/de/tum/cit/ase/maze/Enemy.java:436-447 | position, facing and cursor become the FollowStep of the old ones, and the cursor stays within the path |
| EnemyController.Enemy.MoveTowards | core/src/de/tum/cit/ase/maze/Enemy.java:468-492 | the new position is StepToward the target, so it does not overshoot, and the facing is FacingAfterMove; standing on the target, nothing changes |
| EnemyController.Enemy.HandleWallCollision | core/src/de/tum/cit/ase/maze/Enemy.java:316-343 | only the facing changes: while patrolling it becomes the first supplied draw that differs from the old facing; while chasing it becomes ChaseFallback toward the player |

## Left out

- `move` (`Enemy.java:66-112`) is not modelled. It relies on the maze's collision query, which is not part of this model, and it writes tile codes into the maze. Without it, `HandleWallCollision` has no caller in the model.
- Rendering is not modelled: `draw`, animations, `stateTime`, `deathAnimationTime` and `deathAnimationPlayed`. A dead enemy's frame only advances these timers and sets the played flag.
- The planner's internals (`AStar`, not part of this model) are left out. `findPath` is an arbitrary function, and nothing is claimed about path optimality or adjacency.
- The planner is not connected to the node grid: the source builds the planner on that grid, but here `findPath` is an independent parameter and the `nodes` field is never read.
- `Maze` and `Character` are not part of this model. The layout is read as an `array2<int>`, and the player is a polled position.
- `setPlayer` and its null check are not modelled: the player position is always supplied.
- The `bounds` rectangle, which `setPosition` moves alongside `x` and `y`, is not modelled.
- Random draws are a supplied sequence, with a precondition that an acceptable draw occurs in it. The source's retry loops have no bound and can spin forever in an enclosed cell; the model does not capture that non-termination.
- The chase collision draws the 70/30 choice twice, and only the second draw matters. It is modelled as one boolean.
- Floating point is modelled as real arithmetic: no rounding, no NaN, no infinities, and no overflow of the `(int)` casts.
- StepToward: only the sign of `Math.sqrt` is assumed, so the step length (speed times elapsed time) is not stated. The model states only its direction and the absence of overshoot.
- Grid.ConvertToNodes: requires a layout with at least one column, where the source throws on an empty layout. The layout is assumed rectangular, as `array2` is.
