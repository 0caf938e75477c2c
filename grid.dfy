/** The maze as the enemy sees it: a rectangular layout of integer tile codes,
    indexed [column, row] with rows growing upwards, the conversion of world
    coordinates to grid cells, the wall test that probes the neighbouring tile,
    and the node grid the path planner is built on. */
module Grid {

  /** The four movement directions. UP adds one row, RIGHT adds one column. */
  datatype Direction = Up | Down | Left | Right

  /** A path-planner node: its grid coordinates and whether it may be walked on. */
  datatype Node = Node(x: int, y: int, walkable: bool)

  /** Side of one square tile, in world units. */
  const TILE_SIZE: int := 16

  /** The tile code the wall test treats as a wall. */
  predicate IsWallCode(code: int) { code == 0 }

  /** The tile code the node grid treats as walkable (an empty floor tile). */
  predicate IsWalkableCode(code: int) { code == -1 }

  /** Column offset of one step in direction `d`. */
  function DX(d: Direction): int {
    match d
    case Left => -1
    case Right => 1
    case _ => 0
  }

  /** Row offset of one step in direction `d`. */
  function DY(d: Direction): int {
    match d
    case Down => -1
    case Up => 1
    case _ => 0
  }

  /** The world position `dist` units away from (x, y) in direction `d`. */
  function Shift(x: real, y: real, d: Direction, dist: real): (real, real) {
    (x + DX(d) as real * dist, y + DY(d) as real * dist)
  }

  /** Java's cast `(int) q` of a floating-point value: truncation toward zero,
      which differs from Dafny's `Floor` for negative values. */
  function TruncToInt(q: real): (r: int)
    ensures 0.0 <= q ==> 0 <= r && r as real <= q < r as real + 1.0
    ensures q < 0.0 ==> r <= 0 && r as real - 1.0 < q <= r as real
  {
    if q >= 0.0 then q.Floor else -((-q).Floor)
  }

  /** The grid column (or row) of a world coordinate, `(int) (w / TILE_SIZE)`.
      For a non-negative coordinate it is the tile that contains it; because of
      truncation every coordinate strictly between -TILE_SIZE and TILE_SIZE
      lands in cell 0. */
  function GridCoord(w: real): (g: int)
    ensures 0.0 <= w ==> 0 <= g && (g * TILE_SIZE) as real <= w < ((g + 1) * TILE_SIZE) as real
    ensures w < 0.0 ==> g <= 0 && ((g - 1) * TILE_SIZE) as real < w <= (g * TILE_SIZE) as real
    ensures -(TILE_SIZE as real) < w < TILE_SIZE as real ==> g == 0
  {
    TruncToInt(w / TILE_SIZE as real)
  }

  /** For a non-negative coordinate, the neighbouring cell the wall test probes
      is the cell that contains the point one tile further on: moving a tile
      right (or up) adds one to the cell, moving a tile left (or down) from at
      least a tile away subtracts one. Truncation breaks this on either side of
      0: for a coordinate in (-TILE_SIZE, 0), the probed right neighbour is
      cell 1, but the point one tile to the right still lies in cell 0; for a
      coordinate in (0, TILE_SIZE), the probed left neighbour is cell -1, but
      the point one tile to the left lies in cell 0. */
  lemma ProbedCellIsOneTileAway(w: real)
    ensures 0.0 <= w ==> GridCoord(w + TILE_SIZE as real) == GridCoord(w) + 1
    ensures TILE_SIZE as real <= w ==> GridCoord(w - TILE_SIZE as real) == GridCoord(w) - 1
    ensures -(TILE_SIZE as real) < w < 0.0 ==>
      GridCoord(w) + 1 == 1 && GridCoord(w + TILE_SIZE as real) == 0
    ensures 0.0 < w < TILE_SIZE as real ==>
      GridCoord(w) - 1 == -1 && GridCoord(w - TILE_SIZE as real) == 0
  {
  }

  /** Whether cell (gx, gy) lies inside the layout. */
  predicate InBounds(layout: array2<int>, gx: int, gy: int) {
    0 <= gx < layout.Length0 && 0 <= gy < layout.Length1
  }

  /** The wall test: the cell containing (x, y), moved one step in `direction`,
      is a wall. It fails closed: a neighbour outside the layout is a wall. */
  predicate IsCollisionWithWall(layout: array2<int>, x: real, y: real, direction: Direction)
    reads layout
    ensures var nx, ny := GridCoord(x) + DX(direction), GridCoord(y) + DY(direction);
      !InBounds(layout, nx, ny) ==> IsCollisionWithWall(layout, x, y, direction)
    ensures var nx, ny := GridCoord(x) + DX(direction), GridCoord(y) + DY(direction);
      InBounds(layout, nx, ny) ==> (IsCollisionWithWall(layout, x, y, direction) <==> IsWallCode(layout[nx, ny]))
  {
    var gridX := GridCoord(x) + DX(direction);
    var gridY := GridCoord(y) + DY(direction);
    if gridX < 0 || gridY < 0 || gridX >= layout.Length0 || gridY >= layout.Length1 then
      true
    else
      IsWallCode(layout[gridX, gridY])
  }

  /** `nodes` is the node grid of `layout`: same dimensions, and the node at
      (i, j) carries the coordinates i, j and is walkable exactly when the tile
      is an empty floor tile. */
  ghost predicate IsNodeGridOf(nodes: array2<Node>, layout: array2<int>)
    reads nodes, layout
  {
    nodes.Length0 == layout.Length0 && nodes.Length1 == layout.Length1 &&
    forall i, j :: 0 <= i < layout.Length0 && 0 <= j < layout.Length1 ==>
      nodes[i, j] == Node(i, j, IsWalkableCode(layout[i, j]))
  }

  /** Builds the node grid of a layout, column by column. The layout must have
      at least one column: the dimensions are read from its first column. */
  method ConvertToNodes(layout: array2<int>) returns (nodes: array2<Node>)
    requires layout.Length0 > 0
    ensures fresh(nodes)
    ensures IsNodeGridOf(nodes, layout)
  {
    nodes := new Node[layout.Length0, layout.Length1];
    for x := 0 to layout.Length0
      invariant forall i, j :: 0 <= i < x && 0 <= j < layout.Length1 ==>
        nodes[i, j] == Node(i, j, IsWalkableCode(layout[i, j]))
    {
      for y := 0 to layout.Length1
        invariant forall i, j :: 0 <= i < x && 0 <= j < layout.Length1 ==>
          nodes[i, j] == Node(i, j, IsWalkableCode(layout[i, j]))
        invariant forall j :: 0 <= j < y ==> nodes[x, j] == Node(x, j, IsWalkableCode(layout[x, j]))
      {
        nodes[x, y] := Node(x, y, IsWalkableCode(layout[x, y]));
      }
    }
  }

  /** The two readings of the layout agree in one direction: a neighbour the
      planner may walk on is never reported as a wall by the wall test. (The
      converse fails: tile codes other than 0 and -1 are open to the wall test
      but not walkable for the planner.) */
  lemma WalkableNeighbourIsOpen(layout: array2<int>, nodes: array2<Node>, x: real, y: real, d: Direction)
    requires IsNodeGridOf(nodes, layout)
    ensures var nx, ny := GridCoord(x) + DX(d), GridCoord(y) + DY(d);
      InBounds(layout, nx, ny) && nodes[nx, ny].walkable ==> !IsCollisionWithWall(layout, x, y, d)
  {
  }
}
