/**
 * `MeshFactory`: position-only meshes. `createCube` supplies a fixed
 * 8-corner cube; `createSphere` builds a latitude/longitude sphere from
 * nested loops. The trigonometry of a sphere point is supplied by the
 * caller as its unit direction `dir(y, x)`.
 */
module MeshFactory {
  import opened Grids
  import opened Vectors

  /** A mesh's two buffers: 3 floats per position, and triangle indices. */
  datatype MeshData = MeshData(vertices: seq<real>, indices: seq<nat>)

  /** `createCube`'s eight corners of the unit cube centred at the origin, 3 floats each. */
  const CubeCorners: seq<real> :=
    [ -0.5, -0.5, -0.5,  0.5, -0.5, -0.5,  0.5, 0.5, -0.5,  -0.5, 0.5, -0.5,
      -0.5, -0.5, 0.5,  0.5, -0.5, 0.5,  0.5, 0.5, 0.5,  -0.5, 0.5, 0.5 ]

  /** `createCube`'s twelve triangles over the corners. */
  const CubeTriangles: seq<nat> :=
    [ 0, 1, 2, 2, 3, 0, 4, 5, 6, 6, 7, 4, 0, 1, 5, 5, 4, 0, 2, 3, 7, 7, 6, 2, 0, 3, 7, 7, 4, 0, 1, 2, 6, 6, 5, 1 ]

  /** `createCube`. */
  function CreateCube(): (m: MeshData)
    ensures |m.vertices| == 3 * 8 && |m.indices| == 3 * 12
  {
    MeshData(CubeCorners, CubeTriangles)
  }

  /** The cube has 8 positions of 3 floats, every coordinate at distance 0.5 from the centre. */
  lemma CubeCornerFacts()
    ensures |CreateCube().vertices| == 8 * 3
    ensures forall i :: 0 <= i < |CreateCube().vertices| ==> CreateCube().vertices[i] in {0.5, -0.5}
  {
  }

  /** The cube has 36 indices, all below its 8 positions. */
  lemma CubeTriangleBounds()
    ensures |CreateCube().indices| == 36
    ensures forall i :: 0 <= i < |CreateCube().indices| ==> CreateCube().indices[i] < 8
  {
    assert forall i :: 0 <= i < 36 ==> CubeTriangles[i] < 8;
  }

  /** Every one of the 8 corners is used by some triangle of the cube. */
  lemma CubeCornersUsed()
    ensures forall c :: 0 <= c < 8 ==> c in CreateCube().indices
  {
    forall c | 0 <= c < 8 ensures c in CubeTriangles {
      var at := [0, 1, 2, 4, 6, 7, 8, 10][c];
      assert CubeTriangles[at] == c;
    }
  }

  /** a, b, a + 1 then b, b + 1, a + 1, with a = (y, x) and b = (y + 1, x). */
  const SpherePattern: seq<Corner> := [TL, BL, TR, BL, BR, TR]

  /** A sphere position: the unit direction scaled by the radius. */
  function SpherePosition(radius: real, d: Vec3): (b: seq<real>)
    ensures |b| == 3
  {
    Components(Scale(radius, d))
  }

  function SphereCell(radius: real, dir: (nat, nat) -> Vec3): (nat, nat) -> seq<real> {
    (y: nat, x: nat) => SpherePosition(radius, dir(y, x))
  }

  function SpherePositions(radius: real, latSeg: int, longSeg: int, dir: (nat, nat) -> Vec3): seq<real> {
    Grid(Count(latSeg + 1), Count(longSeg + 1), SphereCell(radius, dir))
  }

  function SphereIndices(latSeg: int, longSeg: int): seq<nat> {
    QuadGrid(SpherePattern, Count(latSeg), Count(longSeg), Count(longSeg + 1))
  }

  /**
   * `createSphere`: for y = 0 .. latSeg and x = 0 .. longSeg one position,
   * then for y < latSeg and x < longSeg two triangles per cell. With
   * non-negative segment counts that is (latSeg + 1)(longSeg + 1) positions
   * and 6 latSeg longSeg indices, each naming one of those positions.
   */
  method CreateSphere(dir: (nat, nat) -> Vec3, radius: real := 1.0, latSeg: int := 16, longSeg: int := 16)
    returns (m: MeshData)
    ensures m.vertices == SpherePositions(radius, latSeg, longSeg, dir)
    ensures m.indices == SphereIndices(latSeg, longSeg)
    ensures latSeg >= 0 && longSeg >= 0 ==>
      |m.vertices| == (latSeg + 1) * (longSeg + 1) * 3 && |m.indices| == latSeg * longSeg * 6 &&
      forall i :: 0 <= i < |m.indices| ==> m.indices[i] < (latSeg + 1) * (longSeg + 1)
  {
    var vertices := FillGrid(Count(latSeg + 1), Count(longSeg + 1), SphereCell(radius, dir));
    var indices := FillGrid(Count(latSeg), Count(longSeg), QuadCells(SpherePattern, Count(longSeg + 1)));
    m := MeshData(vertices, indices);
    if latSeg >= 0 && longSeg >= 0 {
      SpherePositionLayout(radius, latSeg, longSeg, dir, 0, 0);
      SphereIndexFacts(latSeg, longSeg);
    }
  }

  /** The cell (y, x) emits a, b, a + 1, b, b + 1, a + 1 with a = y (longSeg + 1) + x and b = a + longSeg + 1. */
  lemma SphereQuadFormula(longSeg: nat, y: nat, x: nat)
    ensures var a := y * (longSeg + 1) + x; var b := a + longSeg + 1;
      Quad(SpherePattern, y, x, longSeg + 1) == [a, b, a + 1, b, b + 1, a + 1]
  {
    Quad6(SpherePattern, y, x, longSeg + 1);
    MulSucc(y, longSeg + 1);
  }

  /** Position (y, x) is the 3 floats at (y (longSeg + 1) + x) * 3: the direction scaled by the radius. */
  lemma SpherePositionLayout(radius: real, latSeg: nat, longSeg: nat, dir: (nat, nat) -> Vec3, y: nat, x: nat)
    requires y <= latSeg && x <= longSeg
    ensures |SpherePositions(radius, latSeg, longSeg, dir)| == (latSeg + 1) * (longSeg + 1) * 3
    ensures var b := (y * (longSeg + 1) + x) * 3; var vs := SpherePositions(radius, latSeg, longSeg, dir);
      b + 3 <= |vs| && vs[b..b + 3] == Components(Scale(radius, dir(y, x)))
  {
    var f := SphereCell(radius, dir);
    forall r: nat, c: nat | r < latSeg + 1 && c < longSeg + 1 ensures |f(r, c)| == 3 {
      assert f(r, c) == SpherePosition(radius, dir(r, c));
    }
    BlockAt(latSeg + 1, longSeg + 1, f, 3, y, x);
  }

  /** 6 latSeg longSeg indices, all below the (latSeg + 1)(longSeg + 1) positions. */
  lemma SphereIndexFacts(latSeg: nat, longSeg: nat)
    ensures |SphereIndices(latSeg, longSeg)| == latSeg * longSeg * 6
    ensures forall i :: 0 <= i < |SphereIndices(latSeg, longSeg)| ==>
      SphereIndices(latSeg, longSeg)[i] < (latSeg + 1) * (longSeg + 1)
  {
    QuadGridFacts(SpherePattern, latSeg, longSeg, longSeg + 1);
  }
}
