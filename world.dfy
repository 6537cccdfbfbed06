/** The global tile grid and the operations the program runs on it: blanking
    it at start-up, toggling one cell, turning a click into a toggle, the
    letters the draw loop writes, and the main loop's effect over a whole run
    of clicks. */
module World {
  import opened Tiles
  import opened Coords
  import opened Drawing

  /** How many of `clicks` land in cell (i, j). */
  function Hits(clicks: seq<Point>, i: nat, j: nat): nat
    decreases |clicks|
  {
    if clicks == [] then 0
    else
      var last := clicks[|clicks| - 1];
      Hits(clicks[..|clicks| - 1], i, j) + (if CellIndex(last.x) == i && CellIndex(last.y) == j then 1 else 0)
  }

  /** The program's global `world` array: WORLD_SIZE by WORLD_SIZE cells,
      indexed `cells[x, y]`. */
  class Grid {
    var cells: array2<int>

    ghost predicate Valid()
      reads this
    {
      cells.Length0 == WORLD_SIZE && cells.Length1 == WORLD_SIZE
    }

    /** Every cell holds one of the four tile states. */
    ghost predicate AllTiles()
      reads this, cells
      requires Valid()
    {
      forall i, j :: 0 <= i < WORLD_SIZE && 0 <= j < WORLD_SIZE ==> IsTile(cells[i, j])
    }

    /** The array has static storage, so every cell is 0 before the program
        starts. */
    constructor ()
      ensures Valid() && fresh(cells)
      ensures forall i, j :: 0 <= i < WORLD_SIZE && 0 <= j < WORLD_SIZE ==> cells[i, j] == BLANK
    {
      cells := new int[WORLD_SIZE, WORLD_SIZE]((i, j) => BLANK);
    }

    /** Sets every cell to BLANK, one cell at a time. */
    method InitWorld()
      requires Valid()
      modifies cells
      ensures Valid()
      ensures forall i, j :: 0 <= i < WORLD_SIZE && 0 <= j < WORLD_SIZE ==> cells[i, j] == BLANK
      ensures AllTiles()
    {
      for i := 0 to WORLD_SIZE
        invariant forall i', j :: 0 <= i' < i && 0 <= j < WORLD_SIZE ==> cells[i', j] == BLANK
      {
        for j := 0 to WORLD_SIZE
          invariant forall i', j' :: 0 <= i' < i && 0 <= j' < WORLD_SIZE ==> cells[i', j'] == BLANK
          invariant forall j' :: 0 <= j' < j ==> cells[i, j'] == BLANK
        {
          cells[i, j] := BLANK;
        }
      }
    }

    /** Advances cell (x, y) to the next tile state. The indices are not
        checked, so they must name a cell of the grid. */
    method ToggleLocation(x: int, y: int)
      requires Valid()
      requires 0 <= x < WORLD_SIZE && 0 <= y < WORLD_SIZE
      modifies cells
      ensures Valid()
      ensures cells[x, y] == Next(old(cells[x, y]))
      ensures forall i, j :: 0 <= i < WORLD_SIZE && 0 <= j < WORLD_SIZE && (i != x || j != y) ==> cells[i, j] == old(cells[i, j])
      ensures old(AllTiles()) ==> AllTiles()
    {
      var curr := cells[x, y];
      cells[x, y] := Next(curr);
    }

    /** A left click at world point `p` toggles the cell the point falls in.
        Nothing checks the index, so the click must lie inside the world. */
    method Click(p: Point)
      requires Valid()
      requires InWorld(p)
      modifies cells
      ensures Valid()
      ensures cells[CellIndex(p.x), CellIndex(p.y)] == Next(old(cells[CellIndex(p.x), CellIndex(p.y)]))
      ensures forall i, j :: 0 <= i < WORLD_SIZE && 0 <= j < WORLD_SIZE && (i != CellIndex(p.x) || j != CellIndex(p.y)) ==> cells[i, j] == old(cells[i, j])
      ensures old(AllTiles()) ==> AllTiles()
    {
      ToggleLocation(CellIndex(p.x), CellIndex(p.y));
    }

    /** The letter blocks one pass of the draw loop runs, in the loop's order. */
    method DrawLabels() returns (labels: seq<Label>)
      requires Valid()
      ensures labels == GridLabels(cells, WORLD_SIZE)
    {
      labels := [];
      for i := 0 to WORLD_SIZE
        invariant labels == GridLabels(cells, i)
      {
        for j := 0 to WORLD_SIZE
          invariant labels == GridLabels(cells, i) + ColumnLabels(cells, i, j)
        {
          if cells[i, j] != BLANK {
            labels := labels + [Label(cells[i, j], i, j)];
          }
        }
      }
    }

    /** The program from start-up through a run of left clicks (given in
        world coordinates): the grid is blanked, then each click toggles its
        cell. Afterwards every cell holds the number of clicks it received,
        modulo four. */
    method Run(clicks: seq<Point>)
      requires Valid()
      requires forall k :: 0 <= k < |clicks| ==> InWorld(clicks[k])
      modifies cells
      ensures Valid()
      ensures forall i, j :: 0 <= i < WORLD_SIZE && 0 <= j < WORLD_SIZE ==> cells[i, j] == Hits(clicks, i, j) % 4
      ensures AllTiles()
    {
      InitWorld();
      for k := 0 to |clicks|
        invariant forall i, j :: 0 <= i < WORLD_SIZE && 0 <= j < WORLD_SIZE ==> cells[i, j] == Hits(clicks[..k], i, j) % 4
      {
        ghost var before := clicks[..k];
        Click(clicks[k]);
        assert clicks[..k + 1][..k] == before;
        forall i, j | 0 <= i < WORLD_SIZE && 0 <= j < WORLD_SIZE
          ensures cells[i, j] == Hits(clicks[..k + 1], i, j) % 4
        {
          if i == CellIndex(clicks[k].x) && j == CellIndex(clicks[k].y) {
            CountStep(Hits(before, i, j));
          }
        }
      }
      assert clicks[..|clicks|] == clicks;
    }
  }
}
