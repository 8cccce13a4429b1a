/**
 * The textured-cube sample: `makeCube` appends a 24-vertex unit cube, four
 * vertices per face with their own UVs, to the caller's vertex and index
 * vectors. Its checker texture is the same loop as the texture loader's and
 * is modelled once, as `Textures.MakeCheckerTex`.
 */
module Cubes {
  import opened Grids
  import opened Vectors
  import opened Faces

  /** The sample's vertex: a position and a texture coordinate. */
  datatype Vertex = Vertex(pos: Vec3, uv: Vec2)

  /** The eight corners `p[0..7]` of the unit cube: z = -0.5 for 0..3, z = +0.5 for 4..7. */
  const Corners: seq<Vec3> :=
    [ Vec3(-0.5, -0.5, -0.5), Vec3(0.5, -0.5, -0.5), Vec3(0.5, 0.5, -0.5), Vec3(-0.5, 0.5, -0.5),
      Vec3(-0.5, -0.5, 0.5), Vec3(0.5, -0.5, 0.5), Vec3(0.5, 0.5, 0.5), Vec3(-0.5, 0.5, 0.5) ]

  /** The corners of the six `face` calls: back, front, left, right, top, bottom. */
  const FaceCornerIds: seq<seq<nat>> :=
    [[0, 1, 2, 3], [4, 5, 6, 7], [0, 4, 7, 3], [1, 5, 6, 2], [3, 2, 6, 7], [0, 1, 5, 4]]

  /** The outward normals of the faces the source's comments name, in call order. */
  const FaceNormals: seq<Vec3> :=
    [ Vec3(0.0, 0.0, -1.0), Vec3(0.0, 0.0, 1.0), Vec3(-1.0, 0.0, 0.0),
      Vec3(1.0, 0.0, 0.0), Vec3(0.0, 1.0, 0.0), Vec3(0.0, -1.0, 0.0) ]

  /** Face k's corners lie in the face plane its comment names: at distance 0.5 along that face's outward normal. */
  lemma FacesMatchTheirNames()
    ensures |FaceCornerIds| == 6 && |FaceNormals| == 6 && |Corners| == 8
    ensures forall k, j :: 0 <= k < 6 && 0 <= j < 4 ==>
      |FaceCornerIds[k]| == 4 && FaceCornerIds[k][j] < 8 && Dot(FaceNormals[k], Corners[FaceCornerIds[k][j]]) == 0.5
  {
  }

  /** The position of corner j of face k. */
  function CubeCorner(k: nat, j: nat): Vec3
    requires k < 6 && j < 4
  {
    Corners[FaceCornerIds[k][j]]
  }

  /** Corner j of face k. */
  function CubeCell(): (nat, nat) -> seq<Vertex> {
    (k: nat, j: nat) =>
      if k < 6 && j < 4 then [Vertex(CubeCorner(k, j), FaceUVs[j])] else []
  }

  /** The 24 vertices `makeCube` appends: face by face, four corners each. */
  function CubeVertices(): seq<Vertex> {
    Grid(6, 4, CubeCell())
  }

  /** The four vertices of a face over corners a, b, c, d, with UVs (0,0), (1,0), (1,1), (0,1). */
  function FaceBlock(a: nat, b: nat, c: nat, d: nat): (vs: seq<Vertex>)
    requires a < 8 && b < 8 && c < 8 && d < 8
    ensures |vs| == 4
  {
    [Vertex(Corners[a], FaceUVs[0]), Vertex(Corners[b], FaceUVs[1]),
     Vertex(Corners[c], FaceUVs[2]), Vertex(Corners[d], FaceUVs[3])]
  }

  /**
   * The `face(a, b, c, d)` lambda: four vertices with UVs (0,0), (1,0),
   * (1,1), (0,1), then base + {0, 1, 2, 0, 2, 3} with base the vertex count
   * before the call.
   */
  method Face(verts: seq<Vertex>, idx: seq<nat>, a: nat, b: nat, c: nat, d: nat)
    returns (verts': seq<Vertex>, idx': seq<nat>)
    requires a < 8 && b < 8 && c < 8 && d < 8
    ensures verts' == verts + FaceBlock(a, b, c, d)
    ensures idx' == idx + QuadFan(|verts|)
  {
    var base := |verts|;
    verts' := verts + [Vertex(Corners[a], Vec2(0.0, 0.0))];
    verts' := verts' + [Vertex(Corners[b], Vec2(1.0, 0.0))];
    verts' := verts' + [Vertex(Corners[c], Vec2(1.0, 1.0))];
    verts' := verts' + [Vertex(Corners[d], Vec2(0.0, 1.0))];
    idx' := idx + [base + 0, base + 1, base + 2, base + 0, base + 2, base + 3];
  }

  /** Face k's four appended vertices are the four cells of row k. */
  lemma CubeRow(k: nat)
    requires k < 6
    ensures var ids, f := FaceCornerIds[k], CubeCell();
      |ids| == 4 && ids[0] < 8 && ids[1] < 8 && ids[2] < 8 && ids[3] < 8 &&
      FaceBlock(ids[0], ids[1], ids[2], ids[3]) == f(k, 0) + f(k, 1) + f(k, 2) + f(k, 3)
  {
  }

  /** Appending face k's block extends the cube's vertex grid by row k. */
  lemma CubeStep(v0: seq<Vertex>, k: nat, verts: seq<Vertex>)
    requires k < 6
    requires verts == v0 + Grid(k, 4, CubeCell()) && |verts| == |v0| + 4 * k
    ensures |FaceCornerIds[k]| == 4
    ensures FaceCornerIds[k][0] < 8 && FaceCornerIds[k][1] < 8 && FaceCornerIds[k][2] < 8 && FaceCornerIds[k][3] < 8
    ensures verts + FaceBlock(FaceCornerIds[k][0], FaceCornerIds[k][1], FaceCornerIds[k][2], FaceCornerIds[k][3])
      == v0 + Grid(k + 1, 4, CubeCell())
  {
    var ids := FaceCornerIds[k];
    CubeRow(k);
    FaceStep(v0, k, CubeCell(), verts, FaceBlock(ids[0], ids[1], ids[2], ids[3]));
  }

  /** One `face` call as a step: row k of the cube's grids. */
  method FaceAt(verts: seq<Vertex>, idx: seq<nat>, k: nat, ghost v0: seq<Vertex>, ghost i0: seq<nat>)
    returns (verts': seq<Vertex>, idx': seq<nat>)
    requires k < 6
    requires verts == v0 + Grid(k, 4, CubeCell()) && |verts| == |v0| + 4 * k
    requires idx == i0 + FanGrid(|v0|, k)
    ensures verts' == v0 + Grid(k + 1, 4, CubeCell()) && |verts'| == |v0| + 4 * (k + 1)
    ensures idx' == i0 + FanGrid(|v0|, k + 1)
  {
    CubeStep(v0, k, verts);
    FanStep(i0, |v0|, k, idx, |verts|);
    verts', idx' := Face(verts, idx, FaceCornerIds[k][0], FaceCornerIds[k][1], FaceCornerIds[k][2], FaceCornerIds[k][3]);
  }

  /**
   * `makeCube`: the six `face` calls append the 24 cube vertices and 36
   * indices; face k's indices are base + 4k + {0, 1, 2, 0, 2, 3} with base
   * the caller's vertex count, so every new index names a new vertex.
   */
  method MakeCube(verts: seq<Vertex>, idx: seq<nat>) returns (verts': seq<Vertex>, idx': seq<nat>)
    ensures verts' == verts + CubeVertices()
    ensures idx' == idx + FanGrid(|verts|, 6)
    ensures |verts'| == |verts| + 24 && |idx'| == |idx| + 36
    ensures forall i :: |idx| <= i < |idx'| ==> |verts| <= idx'[i] < |verts'|
  {
    verts', idx' := verts, idx;
    verts', idx' := FaceAt(verts', idx', 0, verts, idx); // back
    verts', idx' := FaceAt(verts', idx', 1, verts, idx); // front
    verts', idx' := FaceAt(verts', idx', 2, verts, idx); // left
    verts', idx' := FaceAt(verts', idx', 3, verts, idx); // right
    verts', idx' := FaceAt(verts', idx', 4, verts, idx); // top
    verts', idx' := FaceAt(verts', idx', 5, verts, idx); // bottom
    FanAppendFacts(idx, |verts|, 6, idx');
  }

  /** Vertex j of face k comes at 4k + j: that face's corner j with UV j of (0,0), (1,0), (1,1), (0,1). */
  lemma CubeVertexAt(k: nat, j: nat)
    requires k < 6 && j < 4
    ensures |CubeVertices()| == 24
    ensures CubeVertices()[4 * k + j] == Vertex(CubeCorner(k, j), FaceUVs[j])
  {
    var f := CubeCell();
    forall y: nat, x: nat | y < 6 && x < 4 ensures |f(y, x)| == 1 {
      assert f(y, x) == [Vertex(CubeCorner(y, x), FaceUVs[x])];
    }
    SingletonAt(6, 4, f, k, j);
    assert f(k, j) == [Vertex(CubeCorner(k, j), FaceUVs[j])];
  }
}
