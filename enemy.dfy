/** The enemy controller. Every frame a live enemy compares its distance to the
    player with the detection radius, switches between patrolling and chasing,
    and then either walks in its facing direction (turning when the next tile is
    blocked) or follows a planned path toward the player, re-planning when the
    path is missing or used up. Death is a separate flag that stops all of it.

    Collaborators whose code is not part of this model are parameters: the
    path planner is a function fixed at construction, `Math.sqrt` is a function
    of which only its sign behaviour is used, the player is a polled position,
    and every random draw is a supplied choice. */
module EnemyController {
  import opened Grid
  import opened Geometry

  datatype Option<T> = None | Some(value: T)

  /** The two behaviours of a live enemy; death is the separate `isDead` flag. */
  datatype EnemyState = Patrolling | Chasing

  /** What the model relies on about `Math.sqrt`: on non-negative arguments it is
      non-negative, and positive exactly on positive arguments. */
  ghost predicate SqrtLaw(sqrt: real -> real) {
    forall r: real :: r >= 0.0 ==> sqrt(r) >= 0.0 && (sqrt(r) > 0.0 <==> r > 0.0)
  }

  // ---------------------------------------------------------------------------
  // Random retries: a do-while loop that draws until a draw is accepted is
  // modelled as a scan over the supplied draws, which takes the first accepted one.

  /** The index of the first accepted draw. */
  function FirstTrue(flags: seq<bool>): (k: nat)
    requires true in flags
    ensures k < |flags| && flags[k]
    ensures forall j :: 0 <= j < k ==> !flags[j]
  {
    if flags[0] then 0
    else
      assert true in flags[1..] by {
        var i :| 0 <= i < |flags| && flags[i];
        assert flags[1..][i - 1];
      }
      1 + FirstTrue(flags[1..])
  }

  /** Any index that is accepted with no accepted index before it is the first one. */
  lemma FirstTrueUnique(flags: seq<bool>, k: nat)
    requires k < |flags| && flags[k]
    requires forall j :: 0 <= j < k ==> !flags[j]
    ensures FirstTrue(flags) == k
  {
  }

  /** Which draws the patrol branch of the collision handler accepts: any
      direction other than the current one. */
  function Differs(choices: seq<Direction>, current: Direction): seq<bool> {
    seq(|choices|, i requires 0 <= i < |choices| => choices[i] != current)
  }

  /** Whether the direction re-selection after a blocked patrol step accepts `nd`:
      it must differ from the current direction, and the wall test run from the
      position one tile away in direction `nd`, probing in the CURRENT direction,
      must report no wall. */
  predicate Acceptable(layout: array2<int>, x: real, y: real, current: Direction, nd: Direction)
    reads layout
  {
    var (px, py) := Shift(x, y, nd, TILE_SIZE as real);
    nd != current && !IsCollisionWithWall(layout, px, py, current)
  }

  /** Which draws the direction re-selection accepts. */
  function AcceptFlags(layout: array2<int>, x: real, y: real, current: Direction, choices: seq<Direction>): seq<bool>
    reads layout
  {
    seq(|choices|, i reads layout requires 0 <= i < |choices| => Acceptable(layout, x, y, current, choices[i]))
  }

  // ---------------------------------------------------------------------------
  // Patrolling.

  /** Whether a patrol step of `delta` seconds in direction `d` is blocked: the
      wall test, run from the projected position, probes the tile beyond it. */
  predicate PatrolBlocked(layout: array2<int>, x: real, y: real, d: Direction, delta: real)
    reads layout
  {
    var (px, py) := Shift(x, y, d, TILE_SIZE as real * delta);
    IsCollisionWithWall(layout, px, py, d)
  }

  /** The position and facing after one patrol step. An unblocked step moves
      `TILE_SIZE * delta` units in the facing direction and keeps the facing; a
      blocked step stays in place and turns to the first accepted draw, which
      differs from the old facing and passes the re-selection wall test. */
  function PatrolOutcome(layout: array2<int>, x: real, y: real, d: Direction, delta: real, choices: seq<Direction>):
    (r: (real, real, Direction))
    reads layout
    requires PatrolBlocked(layout, x, y, d, delta) ==> true in AcceptFlags(layout, x, y, d, choices)
    ensures !PatrolBlocked(layout, x, y, d, delta) ==>
      r.2 == d && (r.0, r.1) == Shift(x, y, d, TILE_SIZE as real * delta)
    ensures PatrolBlocked(layout, x, y, d, delta) ==>
      r.0 == x && r.1 == y && r.2 != d && r.2 in choices &&
      !IsCollisionWithWall(layout, Shift(x, y, r.2, TILE_SIZE as real).0, Shift(x, y, r.2, TILE_SIZE as real).1, d)
  {
    if !PatrolBlocked(layout, x, y, d, delta) then
      var (px, py) := Shift(x, y, d, TILE_SIZE as real * delta);
      (px, py, d)
    else
      var flags := AcceptFlags(layout, x, y, d, choices);
      var k := FirstTrue(flags);
      assert Acceptable(layout, x, y, d, choices[k]) by {
        assert flags[k];
      }
      (x, y, choices[k])
  }

  // ---------------------------------------------------------------------------
  // Chasing.

  /** The world position of a path node: its grid coordinates times the tile size. */
  function NodeTarget(n: Node): (real, real) {
    ((n.x * TILE_SIZE) as real, (n.y * TILE_SIZE) as real)
  }

  /** Whether the path cursor points at a node: a path exists and the cursor is
      below its length. */
  predicate CanFollow(path: Option<seq<Node>>, index: nat) {
    path.Some? && index < |path.value|
  }

  /** The cursor invariant: with no path the cursor is 0, otherwise it is at
      most the path length. */
  predicate CursorInRange(path: Option<seq<Node>>, index: nat) {
    match path
    case None => index == 0
    case Some(p) => index <= |p|
  }

  /** The re-planning rule: plan again when there is no path, the path is empty,
      or the cursor has reached its end. This is exactly when the cursor does
      not point at a node. */
  predicate NeedsReplan(path: Option<seq<Node>>, index: nat)
    ensures NeedsReplan(path, index) <==> !CanFollow(path, index)
  {
    path.None? || |path.value| == 0 || index >= |path.value|
  }

  /** The move along one axis: `k` (speed times elapsed time) times this axis's
      share `diff / magnitude` of the unit vector toward the target, clamped so
      as not to pass the target. It never exceeds the remaining distance, a
      step that would pass the target lands exactly on it, and for a
      non-negative `k` it stops between here and the target. */
  function AxisStep(k: real, diff: real, magnitude: real): (step: real)
    requires magnitude > 0.0
    ensures Abs(step) <= Abs(diff)
    ensures Abs(k * (diff / magnitude)) > Abs(diff) ==> step == diff
    ensures k >= 0.0 ==> Between(0.0, step, diff)
  {
    ScaledStepSameSign(k, diff, magnitude);
    ClampStep(k * (diff / magnitude), diff)
  }

  /** The position after moving `delta` seconds toward (tx, ty) at SPEED.
      Standing on the target, nothing moves; for a non-negative `delta` each
      coordinate ends between where it started and the target's. */
  function StepToward(sqrt: real -> real, ex: real, ey: real, tx: real, ty: real, delta: real): (r: (real, real))
    requires SqrtLaw(sqrt)
    ensures ex == tx && ey == ty ==> r == (ex, ey)
    ensures delta >= 0.0 ==> Between(ex, r.0, tx) && Between(ey, r.1, ty)
  {
    var magnitude := sqrt(DistanceSquared(ex, ey, tx, ty));
    if magnitude > 0.0 then
      (ex + AxisStep(SPEED * delta, tx - ex, magnitude), ey + AxisStep(SPEED * delta, ty - ey, magnitude))
    else
      (ex, ey)
  }

  /** Arrival: when the scaled step would pass the target on every axis that is
      not already aligned with it, the step lands exactly on the target, and
      the target then counts as reached. */
  lemma StepArrives(sqrt: real -> real, ex: real, ey: real, tx: real, ty: real, delta: real)
    requires SqrtLaw(sqrt)
    requires sqrt(DistanceSquared(ex, ey, tx, ty)) > 0.0
    requires var m := sqrt(DistanceSquared(ex, ey, tx, ty));
      (tx == ex || Abs(SPEED * delta * ((tx - ex) / m)) > Abs(tx - ex)) &&
      (ty == ey || Abs(SPEED * delta * ((ty - ey) / m)) > Abs(ty - ey))
    ensures StepToward(sqrt, ex, ey, tx, ty, delta) == (tx, ty)
    ensures ReachedNode(StepToward(sqrt, ex, ey, tx, ty, delta).0, StepToward(sqrt, ex, ey, tx, ty, delta).1, tx, ty)
  {
  }

  /** The facing after moving toward (tx, ty): unchanged when standing on the
      target; otherwise horizontal exactly when the horizontal offset strictly
      dominates, RIGHT or LEFT by the sign of the horizontal offset, else UP or
      DOWN by the sign of the vertical offset. */
  function FacingAfterMove(ex: real, ey: real, tx: real, ty: real, d: Direction): (r: Direction)
    ensures ex == tx && ey == ty ==> r == d
    ensures DistanceSquared(ex, ey, tx, ty) > 0.0 ==>
      ((r == Left || r == Right) <==> Abs(tx - ex) > Abs(ty - ey)) &&
      (r == Right <==> Abs(tx - ex) > Abs(ty - ey) && tx > ex) &&
      (r == Up <==> Abs(tx - ex) <= Abs(ty - ey) && ty > ey)
  {
    if DistanceSquared(ex, ey, tx, ty) > 0.0 then Facing(tx - ex, ty - ey) else d
  }

  /** The outcome (x, y, facing, cursor) of one path-following step. */
  datatype FollowResult = FollowResult(x: real, y: real, facing: Direction, index: nat)

  /** One path-following step from cursor `index`: when the cursor points at a
      node, move toward it, turn as FacingAfterMove says, and advance the cursor
      by one exactly when the node is reached after the move; otherwise change
      nothing. The cursor never moves back, moves by at most one, moves only
      when it pointed at a node, and stays within range. */
  function FollowStep(sqrt: real -> real, path: Option<seq<Node>>, index: nat, ex: real, ey: real, d: Direction, delta: real):
    (r: FollowResult)
    requires SqrtLaw(sqrt)
    ensures index <= r.index <= index + 1
    ensures r.index == index + 1 ==> CanFollow(path, index)
    ensures CursorInRange(path, index) ==> CursorInRange(path, r.index)
    ensures !CanFollow(path, index) ==> r == FollowResult(ex, ey, d, index)
    ensures CanFollow(path, index) && delta >= 0.0 ==>
      var (tx, ty) := NodeTarget(path.value[index]);
      Between(ex, r.x, tx) && Between(ey, r.y, ty)
    ensures CanFollow(path, index) ==>
      var (tx, ty) := NodeTarget(path.value[index]);
      (r.index == index + 1 <==> ReachedNode(r.x, r.y, tx, ty)) &&
      r.facing == FacingAfterMove(ex, ey, tx, ty, d)
  {
    if CanFollow(path, index) then
      var (tx, ty) := NodeTarget(path.value[index]);
      var (nx, ny) := StepToward(sqrt, ex, ey, tx, ty, delta);
      var facing := FacingAfterMove(ex, ey, tx, ty, d);
      FollowResult(nx, ny, facing, if ReachedNode(nx, ny, tx, ty) then index + 1 else index)
    else
      FollowResult(ex, ey, d, index)
  }

  /** The direction chosen after a wall collision while chasing: along the x axis
      toward the player (RIGHT when the player is strictly to the right, else
      LEFT) when `towardX` holds, otherwise along the y axis (UP when the player
      is strictly above, else DOWN). Whenever the player is not level with the
      enemy on the chosen axis, the direction points toward the player. */
  function ChaseFallback(ex: real, ey: real, px: real, py: real, towardX: bool): (d: Direction)
    ensures towardX <==> (d == Left || d == Right)
    ensures d == Right <==> towardX && px > ex
    ensures d == Up <==> !towardX && py > ey
    ensures towardX && px != ex ==> DX(d) as real * (px - ex) > 0.0
    ensures !towardX && py != ey ==> DY(d) as real * (py - ey) > 0.0
  {
    var playerDirectionX := if px > ex then Right else Left;
    var playerDirectionY := if py > ey then Up else Down;
    if towardX then playerDirectionX else playerDirectionY
  }

  // ---------------------------------------------------------------------------
  // The enemy.

  class Enemy {
    var x: real
    var y: real
    var currentState: EnemyState
    var currentDirection: Direction
    var currentPath: Option<seq<Node>>
    var pathIndex: nat
    var isDead: bool

    /** The maze layout, read by the wall test. */
    const layout: array2<int>
    /** The node grid built from the layout. The source hands it to the planner;
        here the planner is the separate `findPath` parameter, not tied to it. */
    const nodes: array2<Node>
    /** The path planner: from the enemy's and the player's positions in tile
        units to a path of nodes (empty when there is none). */
    const findPath: (real, real, real, real) -> seq<Node>
    const sqrt: real -> real

    ghost predicate Valid()
      reads this`currentPath, this`pathIndex
    {
      CursorInRange(currentPath, pathIndex) && SqrtLaw(sqrt)
    }

    /** The plan requested from (ex, ey) toward the player at (px, py); the
        positions are passed in tile units, undivided into whole cells. */
    function Plan(ex: real, ey: real, px: real, py: real): seq<Node> {
      findPath(ex / TILE_SIZE as real, ey / TILE_SIZE as real, px / TILE_SIZE as real, py / TILE_SIZE as real)
    }

    /** A new enemy patrols in the given (randomly drawn) direction, has no path
        and is alive, and the node grid of the layout is built. */
    constructor (x0: int, y0: int, initialDirection: Direction, layout: array2<int>,
                 findPath: (real, real, real, real) -> seq<Node>, sqrt: real -> real)
      requires layout.Length0 > 0
      requires SqrtLaw(sqrt)
      ensures Valid()
      ensures x == x0 as real && y == y0 as real
      ensures currentState == Patrolling && currentDirection == initialDirection
      ensures currentPath == None && pathIndex == 0 && !isDead
      ensures this.layout == layout && this.findPath == findPath && this.sqrt == sqrt
      ensures IsNodeGridOf(nodes, layout)
    {
      var grid := ConvertToNodes(layout);
      this.x := x0 as real;
      this.y := y0 as real;
      this.currentState := Patrolling;
      this.currentDirection := initialDirection;
      this.currentPath := None;
      this.pathIndex := 0;
      this.isDead := false;
      this.layout := layout;
      this.nodes := grid;
      this.findPath := findPath;
      this.sqrt := sqrt;
    }

    method SetPosition(newX: real, newY: real)
      modifies this`x, this`y
      ensures x == newX && y == newY
    {
      x := newX;
      y := newY;
    }

    /** Marks the enemy dead. Nothing ever clears the flag again. */
    method Die()
      modifies this`isDead
      ensures isDead
    {
      isDead := true;
    }

    /** One frame. A dead enemy changes nothing (its frame only advances the
        death animation, which is not modelled). A live one enters CHASING with a
        cleared path when the player is in range and it was not chasing, falls
        back to PATROLLING when the player is out of range, and then patrols or
        chases. The `isDead` flag is outside the frame, so no frame revives. */
    method Update(playerX: real, playerY: real, delta: real, choices: seq<Direction>)
      requires Valid()
      requires !isDead && !PlayerEntersGrid(x, y, playerX, playerY) && PatrolBlocked(layout, x, y, currentDirection, delta)
        ==> true in AcceptFlags(layout, x, y, currentDirection, choices)
      modifies this`x, this`y, this`currentState, this`currentDirection, this`currentPath, this`pathIndex
      ensures Valid()
      ensures isDead == old(isDead)
      ensures old(isDead) ==>
        x == old(x) && y == old(y) && currentState == old(currentState) &&
        currentDirection == old(currentDirection) && currentPath == old(currentPath) && pathIndex == old(pathIndex)
      ensures !old(isDead) ==>
        currentState == if PlayerEntersGrid(old(x), old(y), playerX, playerY) then Chasing else Patrolling
      ensures !old(isDead) && PlayerEntersGrid(old(x), old(y), playerX, playerY) ==>
        var replan := old(currentState) != Chasing || NeedsReplan(old(currentPath), old(pathIndex));
        var start := if replan then 0 else old(pathIndex);
        currentPath == (if replan then Some(Plan(old(x), old(y), playerX, playerY)) else old(currentPath)) &&
        FollowResult(x, y, currentDirection, pathIndex) ==
          FollowStep(sqrt, currentPath, start, old(x), old(y), old(currentDirection), delta)
      ensures !old(isDead) && !PlayerEntersGrid(old(x), old(y), playerX, playerY) ==>
        currentPath == old(currentPath) && pathIndex == old(pathIndex) &&
        (x, y, currentDirection) == PatrolOutcome(layout, old(x), old(y), old(currentDirection), delta, choices)
    {
      if isDead {
        return;
      }
      var inRange := PlayerEntersGrid(x, y, playerX, playerY);
      if inRange && currentState != Chasing {
        currentState := Chasing;
        currentPath := None;
        pathIndex := 0;
      } else if !inRange && currentState != Patrolling {
        currentState := Patrolling;
      }
      match currentState
      case Patrolling =>
        Patrol(delta, choices);
      case Chasing =>
        Chase(playerX, playerY, delta);
    }

    /** One patrol step: move `TILE_SIZE * delta` units in the facing direction
        unless the wall test from the projected position reports a wall, in which
        case stay and choose a new direction. */
    method Patrol(delta: real, choices: seq<Direction>)
      requires PatrolBlocked(layout, x, y, currentDirection, delta) ==> true in AcceptFlags(layout, x, y, currentDirection, choices)
      modifies this`x, this`y, this`currentDirection
      ensures (x, y, currentDirection) == PatrolOutcome(layout, old(x), old(y), old(currentDirection), delta, choices)
    {
      var speed := TILE_SIZE as real * delta;
      var (projectedX, projectedY) := Shift(x, y, currentDirection, speed);
      if !IsCollisionWithWall(layout, projectedX, projectedY, currentDirection) {
        SetPosition(projectedX, projectedY);
      } else {
        ChooseNewDirection(choices);
      }
    }

    /** Draws directions until one is accepted: it must differ from the current
        direction, and the wall test from one tile away in the drawn direction,
        probing in the current direction, must find no wall. */
    method ChooseNewDirection(choices: seq<Direction>)
      requires true in AcceptFlags(layout, x, y, currentDirection, choices)
      modifies this`currentDirection
      ensures currentDirection == choices[FirstTrue(AcceptFlags(layout, x, y, old(currentDirection), choices))]
      ensures currentDirection != old(currentDirection)
      ensures !IsCollisionWithWall(layout, Shift(x, y, currentDirection, TILE_SIZE as real).0,
                                   Shift(x, y, currentDirection, TILE_SIZE as real).1, old(currentDirection))
    {
      ghost var flags := AcceptFlags(layout, x, y, currentDirection, choices);
      var newDirection := currentDirection;  // overwritten by the first draw
      var collision := true;
      var i := 0;
      while collision
        invariant 0 <= i <= |choices|
        invariant forall j :: 0 <= j < i - 1 ==> !flags[j]
        invariant collision ==> forall j :: 0 <= j < i ==> !flags[j]
        invariant !collision ==> 0 < i && newDirection == choices[i - 1] && flags[i - 1]
        decreases |choices| - i, collision
      {
        assert i < |choices| by {
          var k :| 0 <= k < |flags| && flags[k];
          assert i <= k;
        }
        newDirection := choices[i];
        var (projectedX, projectedY) := Shift(x, y, newDirection, TILE_SIZE as real);
        collision := IsCollisionWithWall(layout, projectedX, projectedY, currentDirection);
        if newDirection == currentDirection {
          collision := true;
        }
        assert collision == !flags[i];
        i := i + 1;
      }
      FirstTrueUnique(flags, i - 1);
      currentDirection := newDirection;
    }

    /** One chase step: plan a new path and reset the cursor when the path is
        missing, empty or used up; then follow the path. */
    method Chase(playerX: real, playerY: real, delta: real)
      requires Valid()
      modifies this`x, this`y, this`currentDirection, this`currentPath, this`pathIndex
      ensures Valid()
      ensures currentPath.Some?
      ensures NeedsReplan(old(currentPath), old(pathIndex)) ==>
        currentPath == Some(Plan(old(x), old(y), playerX, playerY)) && pathIndex <= 1
      ensures !NeedsReplan(old(currentPath), old(pathIndex)) ==>
        currentPath == old(currentPath) && old(pathIndex) <= pathIndex <= old(pathIndex) + 1
      ensures var start := if NeedsReplan(old(currentPath), old(pathIndex)) then 0 else old(pathIndex);
        FollowResult(x, y, currentDirection, pathIndex) ==
          FollowStep(sqrt, currentPath, start, old(x), old(y), old(currentDirection), delta)
    {
      if currentPath.None? || |currentPath.value| == 0 || pathIndex >= |currentPath.value| {
        currentPath := Some(Plan(x, y, playerX, playerY));
        pathIndex := 0;
      }
      FollowPath(delta);
    }

    /** One path-following step, as FollowStep describes. */
    method FollowPath(delta: real)
      requires Valid()
      modifies this`x, this`y, this`currentDirection, this`pathIndex
      ensures Valid()
      ensures FollowResult(x, y, currentDirection, pathIndex) ==
        FollowStep(sqrt, currentPath, old(pathIndex), old(x), old(y), old(currentDirection), delta)
    {
      if currentPath.Some? && pathIndex < |currentPath.value| {
        var nextNode := currentPath.value[pathIndex];
        var (targetX, targetY) := NodeTarget(nextNode);
        MoveTowards(targetX, targetY, delta);
        if ReachedNode(x, y, targetX, targetY) {
          pathIndex := pathIndex + 1;
        }
      }
    }

    /** Moves toward (targetX, targetY) as StepToward describes, and turns to
        the dominant axis of the offset; standing on the target, nothing changes. */
    method MoveTowards(targetX: real, targetY: real, delta: real)
      requires SqrtLaw(sqrt)
      modifies this`x, this`y, this`currentDirection
      ensures (x, y) == StepToward(sqrt, old(x), old(y), targetX, targetY, delta)
      ensures currentDirection == FacingAfterMove(old(x), old(y), targetX, targetY, old(currentDirection))
    {
      var diffX := targetX - x;
      var diffY := targetY - y;
      var distanceSquared := DistanceSquared(x, y, targetX, targetY);
      var magnitude := sqrt(distanceSquared);
      assert magnitude > 0.0 <==> distanceSquared > 0.0;
      if magnitude > 0.0 {
        var moveX := AxisStep(SPEED * delta, diffX, magnitude);
        var moveY := AxisStep(SPEED * delta, diffY, magnitude);
        SetPosition(x + moveX, y + moveY);
        currentDirection := Facing(diffX, diffY);
      }
    }

    /** Reacts to a wall collision: while patrolling, draw until a direction other
        than the current one comes up; while chasing, head toward the player along
        the x axis (the 70% branch, `towardX`) or the y axis. Only the facing changes. */
    method HandleWallCollision(playerX: real, playerY: real, choices: seq<Direction>, towardX: bool)
      requires currentState == Patrolling ==> true in Differs(choices, currentDirection)
      modifies this`currentDirection
      ensures currentState == Patrolling ==>
        currentDirection == choices[FirstTrue(Differs(choices, old(currentDirection)))] &&
        currentDirection != old(currentDirection)
      ensures currentState == Chasing ==> currentDirection == ChaseFallback(x, y, playerX, playerY, towardX)
    {
      match currentState
      case Patrolling =>
        ghost var flags := Differs(choices, currentDirection);
        var newDirection := choices[0];
        var i := 1;
        while newDirection == currentDirection
          invariant 1 <= i <= |choices|
          invariant newDirection == choices[i - 1]
          invariant forall j :: 0 <= j < i - 1 ==> !flags[j]
          decreases |choices| - i
        {
          assert i < |choices| by {
            var k :| 0 <= k < |flags| && flags[k];
            assert i - 1 < k;
          }
          newDirection := choices[i];
          i := i + 1;
        }
        FirstTrueUnique(flags, i - 1);
        currentDirection := newDirection;
      case Chasing =>
        currentDirection := ChaseFallback(x, y, playerX, playerY, towardX);
    }
  }
}
