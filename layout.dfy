/**
 * The initial brick grid. `Row` and `Rows` grow the brick sequence in the
 * order the model's constructor pushes bricks: row by row, and within a row
 * column by column.
 */
module BrickLayout {
  import opened Geometry
  import opened GameConfig

  /** No two bricks of the sequence overlap. */
  predicate Disjoint(bricks: seq<Block>)
  {
    forall k, l | 0 <= k < l < |bricks| :: !Overlaps(bricks[k], bricks[l])
  }

  /** The brick of grid cell (row `i`, column `j`). */
  function BrickAt(cfg: Config, i: int, j: int): (r: Block)
    ensures r.width == cfg.brickDims.width && r.height == cfg.brickDims.height
    ensures i == 0 && j == 0 ==> r.x == cfg.sideMargin && r.y == cfg.topMargin
  {
    Block(cfg.sideMargin + j * (cfg.brickSpacing.width + cfg.brickDims.width),
          cfg.topMargin + i * (cfg.brickSpacing.height + cfg.brickDims.height),
          cfg.brickDims.width,
          cfg.brickDims.height)
  }

  /** The first `n` bricks of row `i`. */
  function Row(cfg: Config, i: nat, n: nat): (r: seq<Block>)
    ensures |r| == n
  {
    if n == 0 then [] else Row(cfg, i, n - 1) + [BrickAt(cfg, i, n - 1)]
  }

  /** The first `n` full rows. */
  function Rows(cfg: Config, n: nat): (r: seq<Block>)
    ensures |r| == n * cfg.brickCols
  {
    if n == 0 then [] else Rows(cfg, n - 1) + Row(cfg, n - 1, cfg.brickCols)
  }

  /** The whole grid: `brickRows * brickCols` bricks. */
  function Layout(cfg: Config): (r: seq<Block>)
    ensures |r| == cfg.brickRows * cfg.brickCols
  {
    Rows(cfg, cfg.brickRows)
  }

  lemma {:induction false} RowAt(cfg: Config, i: nat, n: nat, j: nat)
    requires j < n
    ensures Row(cfg, i, n)[j] == BrickAt(cfg, i, j)
  {
    if j < n - 1 {
      RowAt(cfg, i, n - 1, j);
    }
  }

  lemma {:induction false} RowsAt(cfg: Config, n: nat, i: nat, j: nat)
    requires i < n && j < cfg.brickCols
    ensures i * cfg.brickCols + j < |Rows(cfg, n)|
    ensures Rows(cfg, n)[i * cfg.brickCols + j] == BrickAt(cfg, i, j)
  {
    var c := cfg.brickCols;
    if i == n - 1 {
      RowAt(cfg, i, c, j);
    } else {
      RowsAt(cfg, n - 1, i, j);
    }
  }

  /** Cell (i, j) of the grid sits at index `i * brickCols + j` of the layout. */
  lemma LayoutCell(cfg: Config, i: nat, j: nat)
    requires i < cfg.brickRows && j < cfg.brickCols
    ensures i * cfg.brickCols + j < |Layout(cfg)|
    ensures Layout(cfg)[i * cfg.brickCols + j] == BrickAt(cfg, i, j)
  {
    RowsAt(cfg, cfg.brickRows, i, j);
  }

  /** Every brick of the layout is the brick of the grid cell its index names. */
  lemma LayoutAt(cfg: Config, k: nat)
    requires k < |Layout(cfg)|
    ensures cfg.brickCols > 0 && k / cfg.brickCols < cfg.brickRows
    ensures Layout(cfg)[k] == BrickAt(cfg, k / cfg.brickCols, k % cfg.brickCols)
  {
    CellOfIndex(k, cfg.brickRows, cfg.brickCols);
    LayoutCell(cfg, k / cfg.brickCols, k % cfg.brickCols);
  }

  /** An index below `r * c` splits into a row below `r` and a column below `c`. */
  lemma CellOfIndex(k: nat, r: nat, c: nat)
    requires k < r * c
    ensures c > 0 && k / c < r && k % c < c && k == (k / c) * c + k % c
  {
  }

  /** Different indices lie in different cells. */
  lemma DistinctCells(k: nat, l: nat, c: nat)
    requires k != l && c > 0
    ensures k / c != l / c || k % c != l % c
  {
  }

  /** At least one step of a non-negative stride is at least one stride. */
  lemma StepsApart(d: int, stride: int)
    requires d >= 1 && stride >= 0
    ensures d * stride >= stride
  {
  }

  /** Bricks in different columns are side by side: the left one ends where the gap begins. */
  lemma ColumnsApart(cfg: Config, i: nat, j: nat, i': nat, j': nat)
    requires cfg.Valid() && j < j'
    ensures BrickAt(cfg, i, j).x + cfg.brickDims.width <= BrickAt(cfg, i', j').x
  {
    var stride := cfg.brickSpacing.width + cfg.brickDims.width;
    StepsApart(j' - j, stride);
    assert j' * stride == j * stride + (j' - j) * stride;
  }

  /** Bricks in different rows are one above the other. */
  lemma RowsApart(cfg: Config, i: nat, j: nat, i': nat, j': nat)
    requires cfg.Valid() && i < i'
    ensures BrickAt(cfg, i, j).y + cfg.brickDims.height <= BrickAt(cfg, i', j').y
  {
    var stride := cfg.brickSpacing.height + cfg.brickDims.height;
    StepsApart(i' - i, stride);
    assert i' * stride == i * stride + (i' - i) * stride;
  }

  /** Bricks of two different cells do not overlap when sizes are positive and gaps are not negative. */
  lemma CellsDisjoint(cfg: Config, i: nat, j: nat, i': nat, j': nat)
    requires cfg.Valid()
    requires i != i' || j != j'
    ensures !Overlaps(BrickAt(cfg, i, j), BrickAt(cfg, i', j'))
  {
    if j < j' {
      ColumnsApart(cfg, i, j, i', j');
    } else if j' < j {
      ColumnsApart(cfg, i', j', i, j);
    } else if i < i' {
      RowsApart(cfg, i, j, i', j');
    } else {
      RowsApart(cfg, i', j', i, j);
    }
  }

  /** The bricks at two different indices of the grid do not overlap. */
  lemma IndicesDisjoint(cfg: Config, k: nat, l: nat)
    requires cfg.Valid() && k < l < |Layout(cfg)|
    ensures !Overlaps(Layout(cfg)[k], Layout(cfg)[l])
  {
    LayoutAt(cfg, k);
    LayoutAt(cfg, l);
    CellOfIndicesDisjoint(cfg, k, l);
  }

  /** Two different indices name two different cells, whose bricks do not overlap. */
  lemma CellOfIndicesDisjoint(cfg: Config, k: nat, l: nat)
    requires cfg.Valid() && k != l && cfg.brickCols > 0
    ensures !Overlaps(BrickAt(cfg, k / cfg.brickCols, k % cfg.brickCols),
                      BrickAt(cfg, l / cfg.brickCols, l % cfg.brickCols))
  {
    var c := cfg.brickCols;
    DistinctCells(k, l, c);
    CellsDisjoint(cfg, k / c, k % c, l / c, l % c);
  }

  /** No two bricks of the initial grid overlap. */
  lemma LayoutDisjoint(cfg: Config)
    requires cfg.Valid()
    ensures Disjoint(Layout(cfg))
  {
    forall k, l | 0 <= k < l < |Layout(cfg)|
      ensures !Overlaps(Layout(cfg)[k], Layout(cfg)[l])
    {
      IndicesDisjoint(cfg, k, l);
    }
  }

  /** A two-by-three grid from margins (10, 5), bricks of 20 by 5 and gaps of 2. */
  lemma ExampleLayout(cfg: Config)
    requires cfg.brickRows == 2 && cfg.brickCols == 3
    requires cfg.sideMargin == 10 && cfg.topMargin == 5
    requires cfg.brickDims == Dims(20, 5) && cfg.brickSpacing == Dims(2, 2)
    ensures Layout(cfg) == [Block(10, 5, 20, 5), Block(32, 5, 20, 5), Block(54, 5, 20, 5),
                            Block(10, 12, 20, 5), Block(32, 12, 20, 5), Block(54, 12, 20, 5)]
  {
    assert Row(cfg, 0, 3) == [Block(10, 5, 20, 5), Block(32, 5, 20, 5), Block(54, 5, 20, 5)] by {
      assert Row(cfg, 0, 1) == [Block(10, 5, 20, 5)];
    }
    assert Row(cfg, 1, 3) == [Block(10, 12, 20, 5), Block(32, 12, 20, 5), Block(54, 12, 20, 5)] by {
      assert Row(cfg, 1, 1) == [Block(10, 12, 20, 5)];
    }
    assert Rows(cfg, 1) == Row(cfg, 0, 3);
  }
}
