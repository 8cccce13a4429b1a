/**
 * Row-major grids of equal-size blocks, the shape shared by every mesh
 * generator: nested loops over rows and columns that append one block
 * (a vertex's floats, a quad's indices) per cell. The lemmas give the
 * length of such a buffer, the position of each block inside it, and
 * bounds that hold of every element.
 */
module Grids {

  /** The non-negative part of a loop bound: `for (i = 0; i < n; i++)` runs this often. */
  function Count(n: int): (c: nat)
    ensures c == n || (n < 0 && c == 0)
  {
    if n > 0 then n else 0
  }

  /** Row `y` of the grid: the blocks of columns 0 .. cols-1, in order. */
  function GridRow<T>(y: nat, cols: nat, f: (nat, nat) -> seq<T>): seq<T> {
    if cols == 0 then [] else GridRow(y, cols - 1, f) + f(y, cols - 1)
  }

  /** The whole grid: rows 0 .. rows-1, each row's blocks in column order. */
  function Grid<T>(rows: nat, cols: nat, f: (nat, nat) -> seq<T>): seq<T> {
    if rows == 0 then [] else Grid(rows - 1, cols, f) + GridRow(rows - 1, cols, f)
  }

  /** One more column: the loop step of an inner generator loop. */
  lemma RowStep<T>(y: nat, x: nat, f: (nat, nat) -> seq<T>)
    ensures GridRow(y, x + 1, f) == GridRow(y, x, f) + f(y, x)
  {
  }

  /** Appending block (y, x) to the first y rows and x blocks of row y gives x + 1 blocks of row y. */
  lemma InnerStep<T>(done: seq<T>, y: nat, x: nat, f: (nat, nat) -> seq<T>, block: seq<T>)
    requires block == f(y, x)
    ensures done + GridRow(y, x, f) + block == done + GridRow(y, x + 1, f)
  {
    RowStep(y, x, f);
    AppendAssoc(done, GridRow(y, x, f), block);
  }

  lemma AppendAssoc<T>(a: seq<T>, b: seq<T>, c: seq<T>)
    ensures a + b + c == a + (b + c)
  {
  }

  /** One more row: the loop step of an outer generator loop. */
  lemma GridStep<T>(y: nat, cols: nat, f: (nat, nat) -> seq<T>)
    ensures Grid(y + 1, cols, f) == Grid(y, cols, f) + GridRow(y, cols, f)
  {
  }

  /** A row of a single block. */
  lemma Row1<T>(y: nat, f: (nat, nat) -> seq<T>)
    ensures GridRow(y, 1, f) == f(y, 0)
  {
    assert GridRow(y, 1, f) == [] + f(y, 0);
  }

  /** Every block of the first `rows` x `cols` cells has `k` elements. */
  ghost predicate Uniform<T>(rows: nat, cols: nat, f: (nat, nat) -> seq<T>, k: nat) {
    forall y: nat, x: nat :: y < rows && x < cols ==> |f(y, x)| == k
  }

  lemma MulLe(a: nat, b: nat, c: nat)
    requires a <= b
    ensures a * c <= b * c
  {
  }

  lemma MulSucc(a: nat, m: nat)
    ensures (a + 1) * m == a * m + m
  {
  }

  lemma MulAssoc(a: nat, b: nat, c: nat)
    ensures a * b * c == a * (b * c)
  {
  }

  /** (y * cols + x) * k + j splits into whole rows plus an offset inside row y. */
  lemma CellOffset(y: nat, cols: nat, x: nat, k: nat, j: nat)
    ensures (y * cols + x) * k + j == y * (cols * k) + (x * k + j)
  {
    MulAssoc(y, cols, k);
  }

  lemma {:induction false} GridRowLength<T>(y: nat, cols: nat, f: (nat, nat) -> seq<T>, k: nat)
    requires forall x: nat :: x < cols ==> |f(y, x)| == k
    ensures |GridRow(y, cols, f)| == cols * k
  {
    if cols > 0 {
      GridRowLength(y, cols - 1, f, k);
      MulSucc(cols - 1, k);
    }
  }

  /** A grid of uniform blocks holds rows * cols * k elements. */
  lemma {:induction false} GridLength<T>(rows: nat, cols: nat, f: (nat, nat) -> seq<T>, k: nat)
    requires Uniform(rows, cols, f, k)
    ensures |Grid(rows, cols, f)| == rows * cols * k
  {
    MulAssoc(rows, cols, k);
    if rows > 0 {
      GridLength(rows - 1, cols, f, k);
      GridRowLength(rows - 1, cols, f, k);
      MulAssoc(rows - 1, cols, k);
      MulSucc(rows - 1, cols * k);
    }
  }

  lemma {:induction false} GridRowAt<T>(y: nat, cols: nat, f: (nat, nat) -> seq<T>, k: nat, x: nat, j: nat)
    requires forall x: nat :: x < cols ==> |f(y, x)| == k
    requires x < cols && j < k
    ensures |GridRow(y, cols, f)| == cols * k
    ensures x * k + j < cols * k
    ensures GridRow(y, cols, f)[x * k + j] == f(y, x)[j]
  {
    GridRowLength(y, cols, f, k);
    GridRowLength(y, cols - 1, f, k);
    MulSucc(x, k);
    MulLe(x + 1, cols, k);
    if x < cols - 1 {
      GridRowAt(y, cols - 1, f, k, x, j);
    }
  }

  /** The first y rows of a grid are a prefix of the whole grid. */
  lemma {:induction false} GridPrefix<T>(rows: nat, cols: nat, f: (nat, nat) -> seq<T>, y: nat)
    requires y <= rows
    ensures Grid(y, cols, f) <= Grid(rows, cols, f)
  {
    if y < rows {
      GridPrefix(rows - 1, cols, f, y);
    }
  }

  /** Row y of the grid starts after y whole rows of cols * k elements. */
  lemma GridRowsAt<T>(rows: nat, cols: nat, f: (nat, nat) -> seq<T>, k: nat, y: nat, x: nat, j: nat)
    requires Uniform(rows, cols, f, k)
    requires y < rows && x < cols && j < k
    ensures |Grid(rows, cols, f)| == rows * (cols * k)
    ensures y * (cols * k) + (x * k + j) < rows * (cols * k)
    ensures Grid(rows, cols, f)[y * (cols * k) + (x * k + j)] == f(y, x)[j]
  {
    GridLength(rows, cols, f, k);
    MulAssoc(rows, cols, k);
    GridLength(y, cols, f, k);
    MulAssoc(y, cols, k);
    GridRowAt(y, cols, f, k, x, j);
    RowOffset(y, rows, cols * k, x * k + j);
    GridInRow(rows, cols, f, y, x * k + j);
  }

  /** An offset inside row y of rows of m elements lies inside the rows. */
  lemma RowOffset(y: nat, rows: nat, m: nat, t: nat)
    requires y < rows && t < m
    ensures y * m + t < rows * m
  {
    MulSucc(y, m);
    MulLe(y + 1, rows, m);
  }

  /** Element t of row y sits right after the first y rows. */
  lemma GridInRow<T>(rows: nat, cols: nat, f: (nat, nat) -> seq<T>, y: nat, t: nat)
    requires y < rows && t < |GridRow(y, cols, f)|
    ensures |Grid(y, cols, f)| + t < |Grid(rows, cols, f)|
    ensures Grid(rows, cols, f)[|Grid(y, cols, f)| + t] == GridRow(y, cols, f)[t]
  {
    assert Grid(y + 1, cols, f) == Grid(y, cols, f) + GridRow(y, cols, f);
    IndexConcatRight(Grid(y, cols, f), GridRow(y, cols, f), t);
    GridPrefix(rows, cols, f, y + 1);
  }

  lemma IndexConcatLeft<T>(a: seq<T>, b: seq<T>, i: nat)
    requires i < |a|
    ensures (a + b)[i] == a[i]
  {
  }

  lemma IndexConcatRight<T>(a: seq<T>, b: seq<T>, t: nat)
    requires t < |b|
    ensures (a + b)[|a| + t] == b[t]
  {
  }

  /** In a grid of one-element cells, cell (y, x) is entry y * cols + x. */
  lemma SingletonAt<T>(rows: nat, cols: nat, f: (nat, nat) -> seq<T>, y: nat, x: nat)
    requires Uniform(rows, cols, f, 1)
    requires y < rows && x < cols
    ensures |Grid(rows, cols, f)| == rows * cols
    ensures y * cols + x < rows * cols && Grid(rows, cols, f)[y * cols + x] == f(y, x)[0]
  {
    GridAt(rows, cols, f, 1, y, x, 0);
    assert (y * cols + x) * 1 + 0 == y * cols + x && rows * cols * 1 == rows * cols;
  }

  /** Element j of block (y, x) is element (y * cols + x) * k + j of the grid. */
  lemma GridAt<T>(rows: nat, cols: nat, f: (nat, nat) -> seq<T>, k: nat, y: nat, x: nat, j: nat)
    requires Uniform(rows, cols, f, k)
    requires y < rows && x < cols && j < k
    ensures |Grid(rows, cols, f)| == rows * cols * k
    ensures 0 <= (y * cols + x) * k + j < |Grid(rows, cols, f)|
    ensures Grid(rows, cols, f)[(y * cols + x) * k + j] == f(y, x)[j]
  {
    MulLe(0, y * cols + x, k);
    GridRowsAt(rows, cols, f, k, y, x, j);
    CellOffset(y, cols, x, k, j);
    MulAssoc(rows, cols, k);
  }

  /** A slice of `g` equals `s` when they agree element by element. */
  lemma SliceEq<T>(g: seq<T>, b: nat, s: seq<T>)
    requires b + |s| <= |g|
    requires forall j :: 0 <= j < |s| ==> g[b + j] == s[j]
    ensures g[b..b + |s|] == s
  {
  }

  /** In a one-column grid of k-element cells, cell i is elements k i .. k i + k - 1. */
  lemma ColumnAt<T>(n: nat, f: (nat, nat) -> seq<T>, k: nat, i: nat)
    requires Uniform(n, 1, f, k)
    requires i < n
    ensures |Grid(n, 1, f)| == n * k
    ensures k * i + k <= n * k && Grid(n, 1, f)[k * i..k * i + k] == f(i, 0)
  {
    BlockAt(n, 1, f, k, i, 0);
    assert (i * 1 + 0) * k == k * i && n * 1 * k == n * k;
  }

  /** Block (y, x) of a uniform grid, as a slice: elements (y * cols + x) * k onwards. */
  lemma BlockAt<T>(rows: nat, cols: nat, f: (nat, nat) -> seq<T>, k: nat, y: nat, x: nat)
    requires Uniform(rows, cols, f, k)
    requires y < rows && x < cols
    ensures |Grid(rows, cols, f)| == rows * cols * k
    ensures var b := (y * cols + x) * k;
      b + k <= |Grid(rows, cols, f)| && Grid(rows, cols, f)[b..b + k] == f(y, x)
  {
    var g := Grid(rows, cols, f);
    MulLe(0, y * cols + x, k);
    var b := (y * cols + x) * k;
    GridLength(rows, cols, f, k);
    if k > 0 {
      GridAt(rows, cols, f, k, y, x, k - 1);
    }
    forall j | 0 <= j < k ensures g[b + j] == f(y, x)[j] {
      GridAt(rows, cols, f, k, y, x, j);
    }
    SliceEq(g, b, f(y, x));
  }

  /** A row of four blocks. */
  lemma GridRow4<T>(y: nat, f: (nat, nat) -> seq<T>)
    ensures GridRow(y, 4, f) == f(y, 0) + f(y, 1) + f(y, 2) + f(y, 3)
  {
    assert GridRow(y, 1, f) == f(y, 0);
    assert GridRow(y, 2, f) == f(y, 0) + f(y, 1);
    assert GridRow(y, 3, f) == f(y, 0) + f(y, 1) + f(y, 2);
  }

  /**
   * The nested loops every generator runs: rows in order, and within a row
   * the columns in order, appending the cell's block each time.
   */
  method FillGrid<T>(rows: nat, cols: nat, f: (nat, nat) -> seq<T>) returns (out: seq<T>)
    ensures out == Grid(rows, cols, f)
  {
    out := [];
    var y := 0;
    while y < rows
      invariant 0 <= y <= rows
      invariant out == Grid(y, cols, f)
    {
      var x := 0;
      while x < cols
        invariant 0 <= x <= cols
        invariant out == Grid(y, cols, f) + GridRow(y, x, f)
      {
        InnerStep(Grid(y, cols, f), y, x, f, f(y, x));
        out := out + f(y, x);
        x := x + 1;
      }
      GridStep(y, cols, f);
      y := y + 1;
    }
  }

  /** Every element of the grid is an element of some block: the block (y, x) it comes from. */
  lemma {:induction false} GridMembers<T>(rows: nat, cols: nat, f: (nat, nat) -> seq<T>, e: T) returns (y: nat, x: nat)
    requires e in Grid(rows, cols, f)
    ensures y < rows && x < cols && e in f(y, x)
  {
    var last := rows - 1;
    GridStep(last, cols, f);
    if e in Grid(last, cols, f) {
      y, x := GridMembers(last, cols, f, e);
    } else {
      x := RowMembers(last, cols, f, e);
      y := last;
    }
  }

  /** Every element of a row is an element of one of its blocks: the column x it comes from. */
  lemma {:induction false} RowMembers<T>(y: nat, cols: nat, f: (nat, nat) -> seq<T>, e: T) returns (x: nat)
    requires e in GridRow(y, cols, f)
    ensures x < cols && e in f(y, x)
  {
    RowStep(y, cols - 1, f);
    if e in f(y, cols - 1) {
      x := cols - 1;
    } else {
      x := RowMembers(y, cols - 1, f, e);
    }
  }

  // ---------------------------------------------------------------------
  // Quads of a vertex grid

  /** The four corners of a grid cell, numbered row-major with `w` vertices per row. */
  datatype Corner = TL | TR | BL | BR

  function CornerIndex(c: Corner, y: nat, x: nat, w: nat): nat {
    match c
    case TL => y * w + x
    case TR => y * w + x + 1
    case BL => (y + 1) * w + x
    case BR => (y + 1) * w + x + 1
  }

  /** The indices one cell emits, in the order of the generator's corner pattern. */
  function Quad(p: seq<Corner>, y: nat, x: nat, w: nat): (q: seq<nat>)
    ensures |q| == |p|
    ensures forall k :: 0 <= k < |p| ==> q[k] == CornerIndex(p[k], y, x, w)
  {
    seq(|p|, k requires 0 <= k < |p| => CornerIndex(p[k], y, x, w))
  }

  /** A six-corner pattern (two triangles) as its literal index list. */
  lemma Quad6(p: seq<Corner>, y: nat, x: nat, w: nat)
    requires |p| == 6
    ensures Quad(p, y, x, w) == [CornerIndex(p[0], y, x, w), CornerIndex(p[1], y, x, w), CornerIndex(p[2], y, x, w),
                                 CornerIndex(p[3], y, x, w), CornerIndex(p[4], y, x, w), CornerIndex(p[5], y, x, w)]
  {
  }

  /** The cell function of a quad grid: cell (y, x) is that cell's quad. */
  function QuadCells(p: seq<Corner>, w: nat): (nat, nat) -> seq<nat> {
    (y: nat, x: nat) => Quad(p, y, x, w)
  }

  /** The index buffer of a `rows` x `cols` cell grid over a vertex grid `w` wide. */
  function QuadGrid(p: seq<Corner>, rows: nat, cols: nat, w: nat): seq<nat> {
    Grid(rows, cols, QuadCells(p, w))
  }

  lemma CornerBound(c: Corner, rows: nat, cols: nat, w: nat, y: nat, x: nat)
    requires cols < w && y < rows && x < cols
    ensures CornerIndex(c, y, x, w) < (rows + 1) * w
  {
    MulLe(y + 1, rows, w);
  }

  /**
   * The quad grid has |p| indices per cell, cell (y, x)'s come at
   * (y * cols + x) * |p|, and, when the cells are narrower than the vertex
   * rows, every index is below the (rows + 1) * w vertices.
   */
  lemma QuadGridFacts(p: seq<Corner>, rows: nat, cols: nat, w: nat)
    requires cols < w
    ensures |QuadGrid(p, rows, cols, w)| == rows * cols * |p|
    ensures forall i :: 0 <= i < |QuadGrid(p, rows, cols, w)| ==> QuadGrid(p, rows, cols, w)[i] < (rows + 1) * w
  {
    var f := QuadCells(p, w);
    GridLength(rows, cols, f, |p|);
    forall i | 0 <= i < |QuadGrid(p, rows, cols, w)| ensures QuadGrid(p, rows, cols, w)[i] < (rows + 1) * w {
      var e := QuadGrid(p, rows, cols, w)[i];
      var y, x := GridMembers(rows, cols, f, e);
      var k :| 0 <= k < |p| && f(y, x)[k] == e;
      CornerBound(p[k], rows, cols, w, y, x);
    }
  }

  lemma QuadGridAt(p: seq<Corner>, rows: nat, cols: nat, w: nat, y: nat, x: nat, k: nat)
    requires y < rows && x < cols && k < |p|
    ensures |QuadGrid(p, rows, cols, w)| == rows * cols * |p|
    ensures (y * cols + x) * |p| + k < rows * cols * |p|
    ensures QuadGrid(p, rows, cols, w)[(y * cols + x) * |p| + k] == CornerIndex(p[k], y, x, w)
  {
    GridAt(rows, cols, QuadCells(p, w), |p|, y, x, k);
  }
}
