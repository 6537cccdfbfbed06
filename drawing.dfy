/** What the draw loop writes over the grid, as data. The loop visits every
    cell, column index `i` in the outer loop and row index `j` in the inner
    one; for each cell that is not BLANK it enters the block that writes the
    cell's letter at the cell's corner. */
module Drawing {
  import opened Tiles
  import opened Coords

  /** The letter block run for cell (i, j), which held `state` when it ran. */
  datatype Label = Label(state: int, i: nat, j: nat)
  {
    /** The letters the block writes. */
    function Text(): (t: seq<char>)
      ensures |t| <= 1
    {
      Glyphs(state)
    }

    /** The world position the letters are written at: the cell's corner. */
    function Position(): (p: Point)
      ensures CellIndex(p.x) == i && CellIndex(p.y) == j
    {
      Point(CellOrigin(i), CellOrigin(j))
    }
  }

  /** The letter blocks run for cell (i, j) when it holds `v`. */
  function CellLabels(i: nat, j: nat, v: int): (ls: seq<Label>)
    ensures |ls| <= 1
    ensures ls == [] <==> v == BLANK
    ensures forall l :: l in ls ==> l.state == v && l.i == i && l.j == j
  {
    if v != BLANK then [Label(v, i, j)] else []
  }

  /** The letter blocks run for the first `n` cells of column `i`. */
  function ColumnLabels(g: array2<int>, i: nat, n: nat): (ls: seq<Label>)
    reads g
    requires i < g.Length0 && n <= g.Length1
    ensures |ls| <= n
    decreases n
  {
    if n == 0 then [] else ColumnLabels(g, i, n - 1) + CellLabels(i, n - 1, g[i, n - 1])
  }

  /** The letter blocks run for the first `m` columns of the grid. */
  function GridLabels(g: array2<int>, m: nat): (ls: seq<Label>)
    reads g
    requires m <= g.Length0
    ensures |ls| <= m * g.Length1
    decreases m
  {
    if m == 0 then [] else GridLabels(g, m - 1) + ColumnLabels(g, m - 1, g.Length1)
  }

  /** Every letter block run for column `i` belongs to one of its non-blank
      cells and shows what that cell holds. */
  lemma {:induction false} ColumnLabelSound(g: array2<int>, i: nat, n: nat, k: nat)
    requires i < g.Length0 && n <= g.Length1
    requires k < |ColumnLabels(g, i, n)|
    ensures exists j :: 0 <= j < n && g[i, j] != BLANK && ColumnLabels(g, i, n)[k] == Label(g[i, j], i, j)
  {
    var prefix, cell := ColumnLabels(g, i, n - 1), CellLabels(i, n - 1, g[i, n - 1]);
    assert ColumnLabels(g, i, n) == prefix + cell;
    if k < |prefix| {
      ColumnLabelSound(g, i, n - 1, k);
      var j :| 0 <= j < n - 1 && g[i, j] != BLANK && prefix[k] == Label(g[i, j], i, j);
      assert ColumnLabels(g, i, n)[k] == prefix[k];
    } else {
      assert ColumnLabels(g, i, n)[k] == cell[0];
    }
  }

  /** Every letter block the draw loop runs belongs to a non-blank cell of
      the grid and writes that cell's letter: nothing is drawn that the grid
      does not hold. */
  lemma {:induction false} LabelSound(g: array2<int>, m: nat, k: nat)
    requires m <= g.Length0
    requires k < |GridLabels(g, m)|
    ensures exists i, j :: 0 <= i < m && 0 <= j < g.Length1 && g[i, j] != BLANK && GridLabels(g, m)[k] == Label(g[i, j], i, j)
  {
    var prefix, last := GridLabels(g, m - 1), ColumnLabels(g, m - 1, g.Length1);
    assert GridLabels(g, m) == prefix + last;
    if k < |prefix| {
      LabelSound(g, m - 1, k);
      var i, j :| 0 <= i < m - 1 && 0 <= j < g.Length1 && g[i, j] != BLANK && prefix[k] == Label(g[i, j], i, j);
      assert GridLabels(g, m)[k] == prefix[k];
    } else {
      ColumnLabelSound(g, m - 1, g.Length1, k - |prefix|);
      var j :| 0 <= j < g.Length1 && g[m - 1, j] != BLANK && last[k - |prefix|] == Label(g[m - 1, j], m - 1, j);
      assert GridLabels(g, m)[k] == last[k - |prefix|];
    }
  }

  /** An element of either part is an element of the concatenation. */
  lemma InAppend<T>(a: seq<T>, b: seq<T>, x: T)
    ensures x in a ==> x in a + b
    ensures x in b ==> x in a + b
  {
  }

  /** The letter block of a non-blank cell (i, j) is among those run for its
      column. */
  lemma {:induction false} ColumnLabelComplete(g: array2<int>, i: nat, n: nat, j: nat)
    requires i < g.Length0 && j < n <= g.Length1
    requires g[i, j] != BLANK
    ensures Label(g[i, j], i, j) in ColumnLabels(g, i, n)
  {
    var prefix, cell := ColumnLabels(g, i, n - 1), CellLabels(i, n - 1, g[i, n - 1]);
    assert ColumnLabels(g, i, n) == prefix + cell;
    if j < n - 1 {
      ColumnLabelComplete(g, i, n - 1, j);
    } else {
      assert cell[0] == Label(g[i, j], i, j);
    }
    InAppend(prefix, cell, Label(g[i, j], i, j));
  }

  /** Every non-blank cell gets its letter block, so a cell holding RAIL,
      BUILDING or STATION has its letter drawn: nothing the grid holds is
      missing from the picture. */
  lemma {:induction false} LabelComplete(g: array2<int>, m: nat, i: nat, j: nat)
    requires i < m <= g.Length0 && j < g.Length1
    requires g[i, j] != BLANK
    ensures Label(g[i, j], i, j) in GridLabels(g, m)
  {
    var prefix, last := GridLabels(g, m - 1), ColumnLabels(g, m - 1, g.Length1);
    assert GridLabels(g, m) == prefix + last;
    if i < m - 1 {
      LabelComplete(g, m - 1, i, j);
    } else {
      ColumnLabelComplete(g, m - 1, g.Length1, j);
    }
    InAppend(prefix, last, Label(g[i, j], i, j));
  }

  /** Label `a` comes from a cell the draw loop visits before label `b`'s. */
  predicate Before(a: Label, b: Label)
  {
    a.i < b.i || (a.i == b.i && a.j < b.j)
  }

  /** The letter blocks of column `i` belong to its first `n` cells and come
      in strictly increasing row order. */
  lemma {:induction false} ColumnLabelsInOrder(g: array2<int>, i: nat, n: nat)
    requires i < g.Length0 && n <= g.Length1
    ensures forall k :: 0 <= k < |ColumnLabels(g, i, n)| ==> ColumnLabels(g, i, n)[k].i == i && ColumnLabels(g, i, n)[k].j < n
    ensures forall a, b :: 0 <= a < b < |ColumnLabels(g, i, n)| ==> Before(ColumnLabels(g, i, n)[a], ColumnLabels(g, i, n)[b])
  {
    if n > 0 {
      ColumnLabelsInOrder(g, i, n - 1);
      var prefix, cell := ColumnLabels(g, i, n - 1), CellLabels(i, n - 1, g[i, n - 1]);
      var all := ColumnLabels(g, i, n);
      assert all == prefix + cell;
      forall k | 0 <= k < |all|
        ensures all[k].i == i && all[k].j < n
      {
        if k >= |prefix| {
          assert all[k] == cell[k - |prefix|];
        }
      }
      forall a, b | 0 <= a < b < |all|
        ensures Before(all[a], all[b])
      {
        if b >= |prefix| {
          assert all[b] == cell[b - |prefix|];
        }
      }
    }
  }

  /** The letter blocks of the first `m` columns belong to those columns and
      come in the loop's order, so no cell gets two: at most one letter is
      drawn per cell. */
  lemma {:induction false} LabelsInOrder(g: array2<int>, m: nat)
    requires m <= g.Length0
    ensures forall k :: 0 <= k < |GridLabels(g, m)| ==> GridLabels(g, m)[k].i < m
    ensures forall a, b :: 0 <= a < b < |GridLabels(g, m)| ==> Before(GridLabels(g, m)[a], GridLabels(g, m)[b])
  {
    if m > 0 {
      LabelsInOrder(g, m - 1);
      ColumnLabelsInOrder(g, m - 1, g.Length1);
      var prefix, last := GridLabels(g, m - 1), ColumnLabels(g, m - 1, g.Length1);
      var all := GridLabels(g, m);
      assert all == prefix + last;
      forall k | 0 <= k < |all|
        ensures all[k].i < m
      {
        if k >= |prefix| {
          assert all[k] == last[k - |prefix|];
        }
      }
      forall a, b | 0 <= a < b < |all|
        ensures Before(all[a], all[b])
      {
        if b >= |prefix| {
          assert all[b] == last[b - |prefix|];
          if a >= |prefix| {
            assert all[a] == last[a - |prefix|];
          }
        }
      }
    }
  }

  /** Two letter blocks of one pass never belong to the same cell. */
  lemma OneLabelPerCell(g: array2<int>, a: nat, b: nat)
    requires a < b < |GridLabels(g, g.Length0)|
    ensures GridLabels(g, g.Length0)[a].i != GridLabels(g, g.Length0)[b].i
         || GridLabels(g, g.Length0)[a].j != GridLabels(g, g.Length0)[b].j
  {
    LabelsInOrder(g, g.Length0);
  }
}
