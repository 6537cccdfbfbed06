/** The grid's extent and the mapping between world coordinates (pixels of
    the unzoomed world) and cell indices. */
module Coords {

  /** Side of one cell, in world units. */
  const GRID_SIZE: int := 10

  /** Number of cells along each axis. */
  const WORLD_SIZE: int := 1000

  /** A point in world coordinates, as the click handler receives it after
      the camera transform. */
  datatype Point = Point(x: nat, y: nat)

  /** Index of the cell that a world coordinate falls in: the coordinate
      divided by GRID_SIZE and truncated. A coordinate lies inside the world
      exactly when its index is a valid cell index. */
  function CellIndex(w: nat): (c: nat)
    ensures c * GRID_SIZE <= w < c * GRID_SIZE + GRID_SIZE
    ensures c < WORLD_SIZE <==> w < WORLD_SIZE * GRID_SIZE
  {
    w / GRID_SIZE
  }

  /** World coordinate of the corner of cell `i`, where the draw loop places
      the cell's letter; it lies in cell `i` itself. */
  function CellOrigin(i: nat): (w: nat)
    ensures CellIndex(w) == i
    ensures i < WORLD_SIZE <==> w < WORLD_SIZE * GRID_SIZE
  {
    i * GRID_SIZE
  }

  /** Both coordinates of `p` lie inside the world. */
  predicate InWorld(p: Point)
  {
    p.x < WORLD_SIZE * GRID_SIZE && p.y < WORLD_SIZE * GRID_SIZE
  }

  /** A click inside the world always names a cell of the grid, and a click
      outside it never does: the range of InWorld is the exact precondition
      the unchecked write into the grid needs. */
  lemma ClickNamesCell(p: Point)
    ensures InWorld(p) <==> CellIndex(p.x) < WORLD_SIZE && CellIndex(p.y) < WORLD_SIZE
  {
  }

  /** A coordinate falls in cell `i` exactly when it lies in the half-open
      span of GRID_SIZE units that starts at the cell's corner. */
  lemma SameCell(w: nat, i: nat)
    ensures CellIndex(w) == i <==> CellOrigin(i) <= w < CellOrigin(i) + GRID_SIZE
  {
  }
}
