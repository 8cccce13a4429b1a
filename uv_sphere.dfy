/**
 * The 64 x 64 segment UV sphere built by `Sphere::initGeometry` and by the
 * demo's `renderSphere`: 65 x 65 vertices in rows y = 0 .. 64 of columns
 * x = 0 .. 64, and two triangles a, b, d and b, c, d per cell. The point of
 * vertex (y, x) on the unit sphere comes from trigonometry and is supplied
 * by the caller as `dir(y, x)`.
 */
module UvSpheres {
  import opened Grids
  import opened Vectors

  /** `X_SEGMENTS` and `Y_SEGMENTS`. */
  const Segments: nat := 64

  /** Vertices per row and per column: `X_SEGMENTS + 1`; its cells are the `Side - 1` segments. */
  const Side: nat := Segments + 1

  /** a, b, d then b, c, d with a = (y, x), b = (y + 1, x), c = (y + 1, x + 1), d = (y, x + 1). */
  const UvPattern: seq<Corner> := [TL, BL, TR, BL, BR, TR]

  /** The index buffer of the second pair of loops. */
  function UvIndices(): seq<nat> {
    QuadGrid(UvPattern, Side - 1, Side - 1, Side)
  }

  /** The second pair of loops: for y < 64 and x < 64 the six indices of cell (y, x). */
  method BuildIndices() returns (idx: seq<nat>)
    ensures idx == UvIndices()
  {
    idx := FillGrid(Side - 1, Side - 1, QuadCells(UvPattern, Side));
  }

  /** Cell (y, x) pushes a, b, d, b, c, d with the source's four index expressions. */
  lemma UvQuadFormula(y: nat, x: nat)
    ensures var a, b := y * (Segments + 1) + x, (y + 1) * (Segments + 1) + x;
      var c, d := (y + 1) * (Segments + 1) + x + 1, y * (Segments + 1) + x + 1;
      Quad(UvPattern, y, x, Side) == [a, b, d, b, c, d]
  {
    Quad6(UvPattern, y, x, Side);
  }

  /** 64 * 64 * 6 = 24576 indices. */
  lemma UvIndexCount()
    ensures |UvIndices()| == 24576
  {
    UvIndexFacts();
  }

  /** 64 * 64 * 6 = 24576 indices, each naming one of the 65 * 65 = 4225 vertices. */
  lemma UvIndexFacts()
    ensures |UvIndices()| == 24576
    ensures forall i :: 0 <= i < |UvIndices()| ==> UvIndices()[i] < Side * Side
  {
    QuadGridFacts(UvPattern, Side - 1, Side - 1, Side);
    assert (Side - 1) * (Side - 1) * |UvPattern| == 64 * 64 * 6;
    assert (Side - 1 + 1) * Side == Side * Side;
  }

  /** A per-vertex quantity `g(y, x)` as the one-element block the first pair of loops pushes. */
  function Single<T>(g: (nat, nat) -> T): (nat, nat) -> seq<T> {
    (y: nat, x: nat) => [g(y, x)]
  }

  /** The 65 x 65 values of g, row by row: what `push_back(g(y, x))` in the first pair of loops builds. */
  function UvGrid<T>(g: (nat, nat) -> T): seq<T> {
    Grid(Side, Side, Single(g))
  }

  /** The first pair of loops pushing `g(y, x)`. */
  method BuildVertices<T>(g: (nat, nat) -> T) returns (vs: seq<T>)
    ensures vs == UvGrid(g)
  {
    vs := FillGrid(Side, Side, Single(g));
  }

  /** Vertex (y, x) is entry y * 65 + x. */
  lemma UvGridAt<T>(g: (nat, nat) -> T, y: nat, x: nat)
    requires y < Side && x < Side
    ensures |UvGrid(g)| == Side * Side
    ensures y * Side + x < Side * Side && UvGrid(g)[y * Side + x] == g(y, x)
  {
    SingleAt(Side, g, y, x);
  }

  lemma SingleAt<T>(n: nat, g: (nat, nat) -> T, y: nat, x: nat)
    requires y < n && x < n
    ensures |Grid(n, n, Single(g))| == n * n
    ensures y * n + x < n * n && Grid(n, n, Single(g))[y * n + x] == g(y, x)
  {
    var f := Single(g);
    forall r: nat, c: nat | r < n && c < n ensures |f(r, c)| == 1 {
      assert f(r, c) == [g(r, c)];
    }
    SingletonAt(n, n, f, y, x);
    assert f(y, x) == [g(y, x)];
  }
}
