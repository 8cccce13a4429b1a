/**
 * The static mesh generators of the geometry helper: a subdivided plane, a
 * UV sphere, a 24-vertex cube, a light-frustum box, and the static indexed
 * cube data. Each generator clears its two output vectors and then appends
 * to them, so its outputs depend only on its parameters; they are modelled
 * as methods returning the two buffers. Vertices are 8 floats each:
 * position, normal, texture coordinate.
 *
 * The float formulas for positions and texture coordinates (steps,
 * sines and cosines) are supplied by the caller as the function `at`; the
 * model fixes everything else: counts, strides, constant components and
 * every index.
 */
module Geometry {
  import opened Grids
  import opened Vectors
  import opened Faces

  /** The eight floats of one vertex: position, normal, texture coordinate. */
  function Vertex(px: real, py: real, pz: real, nx: real, ny: real, nz: real, u: real, v: real): (b: seq<real>)
    ensures |b| == 8
  {
    [px, py, pz, nx, ny, nz, u, v]
  }

  // ---------------------------------------------------------------------
  // Plane

  /** The float values the plane computes for grid point (z, x): posX, posZ and the tiled UV. */
  datatype PlanePoint = PlanePoint(posX: real, posZ: real, u: real, v: real)

  /** v1, v2, v3 then v2, v4, v3 with v1 = (z, x), v2 = v1 + 1, v3 = v1 + (segX + 1), v4 = v3 + 1. */
  const PlanePattern: seq<Corner> := [TL, TR, BL, TR, BR, BL]

  /** A plane vertex: position (posX, 0, posZ), normal (0, 1, 0). */
  function PlaneVertex(p: PlanePoint): (b: seq<real>)
    ensures |b| == 8
  {
    Vertex(p.posX, 0.0, p.posZ, 0.0, 1.0, 0.0, p.u, p.v)
  }

  /** The cell of grid point (z, x): that point's vertex. */
  function PlaneCell(at: (nat, nat) -> PlanePoint): (nat, nat) -> seq<real> {
    (z: nat, x: nat) => PlaneVertex(at(z, x))
  }

  function PlaneVertices(segX: int, segZ: int, at: (nat, nat) -> PlanePoint): seq<real> {
    Grid(Count(segZ + 1), Count(segX + 1), PlaneCell(at))
  }

  function PlaneIndices(segX: int, segZ: int): seq<nat> {
    QuadGrid(PlanePattern, Count(segZ), Count(segX), Count(segX + 1))
  }

  /**
   * `generatePlane`: for z = 0 .. segZ and x = 0 .. segX one vertex per grid
   * point, then for z < segZ and x < segX two triangles per cell. With
   * non-negative segment counts that is (segX + 1)(segZ + 1) vertices and
   * 6 segX segZ indices, every index naming one of those vertices.
   */
  method GeneratePlane(segX: int, segZ: int, at: (nat, nat) -> PlanePoint)
    returns (vertices: seq<real>, indices: seq<nat>)
    ensures vertices == PlaneVertices(segX, segZ, at)
    ensures indices == PlaneIndices(segX, segZ)
    ensures segX >= 0 && segZ >= 0 ==>
      |vertices| == (segZ + 1) * (segX + 1) * 8 && |indices| == segZ * segX * 6 &&
      forall i :: 0 <= i < |indices| ==> indices[i] < (segZ + 1) * (segX + 1)
  {
    vertices := FillGrid(Count(segZ + 1), Count(segX + 1), PlaneCell(at));
    indices := FillGrid(Count(segZ), Count(segX), QuadCells(PlanePattern, Count(segX + 1)));
    if segX >= 0 && segZ >= 0 {
      PlaneVertexLayout(segX, segZ, at, 0, 0);
      PlaneIndexFacts(segX, segZ);
    }
  }

  /** The cell (z, x) emits exactly the six indices the plane's loop body computes. */
  lemma PlaneQuadFormula(segX: nat, z: nat, x: nat)
    ensures var v1 := z * (segX + 1) + x; var v2 := v1 + 1; var v3 := v1 + (segX + 1); var v4 := v3 + 1;
      Quad(PlanePattern, z, x, segX + 1) == [v1, v2, v3, v2, v4, v3]
  {
    Quad6(PlanePattern, z, x, segX + 1);
    MulSucc(z, segX + 1);
  }

  /** The plane has (segX + 1)(segZ + 1) vertices of 8 floats, each with position y 0 and normal (0, 1, 0). */
  lemma PlaneVertexLayout(segX: nat, segZ: nat, at: (nat, nat) -> PlanePoint, z: nat, x: nat)
    requires z <= segZ && x <= segX
    ensures |PlaneVertices(segX, segZ, at)| == (segZ + 1) * (segX + 1) * 8
    ensures var b := (z * (segX + 1) + x) * 8;
      b + 8 <= |PlaneVertices(segX, segZ, at)| &&
      PlaneVertices(segX, segZ, at)[b..b + 8] == PlaneVertex(at(z, x))
  {
    var f := PlaneCell(at);
    forall y: nat, x: nat | y < segZ + 1 && x < segX + 1 ensures |f(y, x)| == 8 {
      assert f(y, x) == PlaneVertex(at(y, x));
    }
    BlockAt(segZ + 1, segX + 1, f, 8, z, x);
  }

  /** The plane has 6 segX segZ indices, all below its (segX + 1)(segZ + 1) vertices. */
  lemma PlaneIndexFacts(segX: nat, segZ: nat)
    ensures |PlaneIndices(segX, segZ)| == segZ * segX * 6
    ensures forall i :: 0 <= i < |PlaneIndices(segX, segZ)| ==> PlaneIndices(segX, segZ)[i] < (segZ + 1) * (segX + 1)
  {
    QuadGridFacts(PlanePattern, segZ, segX, segX + 1);
  }

  // ---------------------------------------------------------------------
  // Sphere

  /** The float values the sphere computes for ring r, sector s: the unit direction and the UV. */
  datatype SpherePoint = SpherePoint(x: real, y: real, z: real, u: real, v: real)

  /** v1, v3, v4 then v1, v2, v3 with v1 = (r, s), v2 = (r, s + 1), v3 = (r + 1, s + 1), v4 = (r + 1, s). */
  const SpherePattern: seq<Corner> := [TL, BR, BL, TL, TR, BR]

  /** Position is the unit direction scaled by the radius; the normal is the direction itself. */
  function SphereVertex(radius: real, p: SpherePoint): (b: seq<real>)
    ensures |b| == 8
  {
    Vertex(p.x * radius, p.y * radius, p.z * radius, p.x, p.y, p.z, p.u, p.v)
  }

  /** The cell of ring r, sector s: that point's vertex. */
  function SphereCell(radius: real, at: (nat, nat) -> SpherePoint): (nat, nat) -> seq<real> {
    (r: nat, s: nat) => SphereVertex(radius, at(r, s))
  }

  function SphereVertices(radius: real, rings: int, sectors: int, at: (nat, nat) -> SpherePoint): seq<real> {
    Grid(Count(rings), Count(sectors), SphereCell(radius, at))
  }

  function SphereIndices(rings: int, sectors: int): seq<nat> {
    QuadGrid(SpherePattern, Count(rings - 1), Count(sectors - 1), Count(sectors))
  }

  /**
   * `generateSphere`: for r < rings and s < sectors one vertex, then for
   * r < rings - 1 and s < sectors - 1 two triangles between neighbouring
   * rings. With at least two rings and sectors, rings * sectors vertices and
   * 6 (rings - 1)(sectors - 1) indices, every index naming one of those vertices.
   */
  method GenerateSphere(radius: real, rings: int, sectors: int, at: (nat, nat) -> SpherePoint)
    returns (vertices: seq<real>, indices: seq<nat>)
    ensures vertices == SphereVertices(radius, rings, sectors, at)
    ensures indices == SphereIndices(rings, sectors)
    ensures rings >= 2 && sectors >= 2 ==>
      |vertices| == rings * sectors * 8 && |indices| == (rings - 1) * (sectors - 1) * 6 &&
      forall i :: 0 <= i < |indices| ==> indices[i] < rings * sectors
  {
    vertices := FillGrid(Count(rings), Count(sectors), SphereCell(radius, at));
    indices := FillGrid(Count(rings - 1), Count(sectors - 1), QuadCells(SpherePattern, Count(sectors)));
    if rings >= 2 && sectors >= 2 {
      SphereVertexLayout(radius, rings, sectors, at, 0, 0);
      SphereIndexFacts(rings, sectors);
    }
  }

  /** The cell (r, s) emits exactly the six indices the sphere's loop body computes. */
  lemma SphereQuadFormula(sectors: nat, r: nat, s: nat)
    ensures var v1 := r * sectors + s; var v2 := r * sectors + (s + 1);
      var v3 := (r + 1) * sectors + (s + 1); var v4 := (r + 1) * sectors + s;
      Quad(SpherePattern, r, s, sectors) == [v1, v3, v4, v1, v2, v3]
  {
    Quad6(SpherePattern, r, s, sectors);
  }

  /**
   * rings x sectors vertices of 8 floats, ring by ring: vertex (r, s) is the
   * block at (r * sectors + s) * 8 (`SphereVertexScaled` says what it holds).
   */
  lemma SphereVertexLayout(radius: real, rings: nat, sectors: nat, at: (nat, nat) -> SpherePoint, r: nat, s: nat)
    requires r < rings && s < sectors
    ensures |SphereVertices(radius, rings, sectors, at)| == rings * sectors * 8
    ensures var b := (r * sectors + s) * 8; var vs := SphereVertices(radius, rings, sectors, at);
      b + 8 <= |vs| && vs[b..b + 8] == SphereVertex(radius, at(r, s))
  {
    SphereUniform(radius, rings, sectors, at);
    BlockAt(rings, sectors, SphereCell(radius, at), 8, r, s);
  }

  /** A sphere vertex holds the point's position, which is its unit normal scaled by the radius, then the normal and the UV. */
  lemma SphereVertexScaled(radius: real, p: SpherePoint)
    ensures var v := SphereVertex(radius, p);
      v[0] == v[3] * radius && v[1] == v[4] * radius && v[2] == v[5] * radius
      && v[3..] == [p.x, p.y, p.z, p.u, p.v]
  {
  }

  lemma SphereUniform(radius: real, rings: nat, sectors: nat, at: (nat, nat) -> SpherePoint)
    ensures Uniform(rings, sectors, SphereCell(radius, at), 8)
  {
    var f := SphereCell(radius, at);
    forall a: nat, b: nat | a < rings && b < sectors ensures |f(a, b)| == 8 {
      var v := SphereVertex(radius, at(a, b));
      assert f(a, b) == v;
    }
  }

  /** With rings, sectors >= 2: 6 (rings - 1)(sectors - 1) indices, all below rings * sectors. */
  lemma SphereIndexFacts(rings: nat, sectors: nat)
    requires rings >= 2 && sectors >= 2
    ensures |SphereIndices(rings, sectors)| == (rings - 1) * (sectors - 1) * 6
    ensures forall i :: 0 <= i < |SphereIndices(rings, sectors)| ==> SphereIndices(rings, sectors)[i] < rings * sectors
  {
    QuadGridFacts(SpherePattern, rings - 1, sectors - 1, sectors);
  }

  // ---------------------------------------------------------------------
  // Cube

  /** One face of a box: its normal, four corners and four UVs. */
  datatype Face = Face(normal: Vec3, v: seq<Vec3>, uv: seq<Vec2>)

  /** Corners of a face. */
  const FaceCorners: nat := 4

  /** The face table of `generateCube`, half extent h: front, back, left, right, top, bottom. */
  function CubeFaces(h: real): (fs: seq<Face>)
    ensures |fs| == 6
  {
    [ Face(Vec3(0.0, 0.0, 1.0), [Vec3(-h, -h, h), Vec3(h, -h, h), Vec3(h, h, h), Vec3(-h, h, h)], FaceUVs),
      Face(Vec3(0.0, 0.0, -1.0), [Vec3(h, -h, -h), Vec3(-h, -h, -h), Vec3(-h, h, -h), Vec3(h, h, -h)], FaceUVs),
      Face(Vec3(-1.0, 0.0, 0.0), [Vec3(-h, -h, -h), Vec3(-h, -h, h), Vec3(-h, h, h), Vec3(-h, h, -h)], FaceUVs),
      Face(Vec3(1.0, 0.0, 0.0), [Vec3(h, -h, h), Vec3(h, -h, -h), Vec3(h, h, -h), Vec3(h, h, h)], FaceUVs),
      Face(Vec3(0.0, 1.0, 0.0), [Vec3(-h, h, h), Vec3(h, h, h), Vec3(h, h, -h), Vec3(-h, h, -h)], FaceUVs),
      Face(Vec3(0.0, -1.0, 0.0), [Vec3(-h, -h, -h), Vec3(h, -h, -h), Vec3(h, -h, h), Vec3(-h, -h, h)], FaceUVs) ]
  }

  /** Every face of the cube table has four corners and the standard UVs, and lies in the plane at distance h along its normal. */
  lemma CubeFacesShape(h: real)
    ensures QuadFaces(CubeFaces(h))
    ensures forall f :: 0 <= f < 6 ==> CubeFaces(h)[f].uv == FaceUVs
    ensures forall f, i :: 0 <= f < 6 && 0 <= i < 4 ==> Dot(CubeFaces(h)[f].normal, CubeFaces(h)[f].v[i]) == h
  {
  }

  /** Four-corner faces. */
  predicate QuadFaces(faces: seq<Face>) {
    forall f :: 0 <= f < |faces| ==> |faces[f].v| == 4 && |faces[f].uv| == 4
  }

  /** Corner i of face f as 8 floats: the corner, the face's normal, the corner's UV. */
  function FaceVertex(fs: seq<Face>, f: nat, i: nat): seq<real>
    requires f < |fs| && i < |fs[f].v| && i < |fs[f].uv|
  {
    var p, n, t := fs[f].v[i], fs[f].normal, fs[f].uv[i];
    Vertex(p.x, p.y, p.z, n.x, n.y, n.z, t.u, t.v)
  }

  /** The block of cell (f, i) of a face table's vertex grid. */
  function FaceCell(fs: seq<Face>): (nat, nat) -> seq<real> {
    (f: nat, i: nat) => if f < |fs| && i < |fs[f].v| && i < |fs[f].uv| then FaceVertex(fs, f, i) else []
  }

  /** The vertex buffer of a face table: face by face, four corners each. */
  function FaceGrid(fs: seq<Face>): seq<real> {
    Grid(|fs|, FaceCorners, FaceCell(fs))
  }

  function CubeVertices(h: real): seq<real> {
    FaceGrid(CubeFaces(h))
  }

  /**
   * `generateCube`: the face table for half extent size / 2, laid out face by
   * face: 24 vertices of 8 floats and 36 indices, all below 24.
   */
  method GenerateCube(size: real) returns (vertices: seq<real>, indices: seq<nat>)
    ensures vertices == CubeVertices(size * 0.5)
    ensures indices == FanGrid(0, 6)
    ensures |vertices| == 192 && |indices| == 36
    ensures forall i :: 0 <= i < |indices| ==> indices[i] < 24
  {
    CubeFacesShape(size * 0.5);
    vertices, indices := EmitFaces(CubeFaces(size * 0.5));
    FaceGridLayout(CubeFaces(size * 0.5), 0, 0);
    FanGridFacts(0, 6);
  }

  /**
   * The face loop of `generateCube`: per face its four corners, then
   * offset + {0, 1, 2, 0, 2, 3}, and offset += 4.
   */
  method EmitFaces(faces: seq<Face>) returns (vertices: seq<real>, indices: seq<nat>)
    requires QuadFaces(faces)
    ensures vertices == FaceGrid(faces)
    ensures indices == FanGrid(0, |faces|)
  {
    vertices := FillGrid(|faces|, FaceCorners, FaceCell(faces));
    indices := FillGrid(|faces|, 1, FanCell(0));
  }

  /** Each four-corner face contributes 32 floats; corner i of face f is at (4f + i) * 8. */
  lemma FaceGridLayout(fs: seq<Face>, f: nat, i: nat)
    requires QuadFaces(fs) && f < |fs| && i < 4
    ensures |FaceGrid(fs)| == |fs| * 4 * 8
    ensures var b := (f * 4 + i) * 8; b + 8 <= |FaceGrid(fs)| && FaceGrid(fs)[b..b + 8] == FaceVertex(fs, f, i)
  {
    var fv := FaceCell(fs);
    forall y: nat, x: nat | y < |fs| && x < FaceCorners ensures |fv(y, x)| == 8 {
    }
    BlockAt(|fs|, FaceCorners, fv, 8, f, i);
  }

  // ---------------------------------------------------------------------
  // Light frustum

  /** The eight box corners: near plane 0..3, far plane 4..7. */
  function FrustumCorners(orthoSize: real, nearPlane: real, farPlane: real): (c: seq<Vec3>)
    ensures |c| == 8
  {
    var o := orthoSize;
    [ Vec3(-o, -o, -nearPlane), Vec3(o, -o, -nearPlane), Vec3(o, o, -nearPlane), Vec3(-o, o, -nearPlane),
      Vec3(-o, -o, -farPlane), Vec3(o, -o, -farPlane), Vec3(o, o, -farPlane), Vec3(-o, o, -farPlane) ]
  }

  /** The face normals: near, far, left, right, top, bottom. */
  const FrustumNormals: seq<Vec3> :=
    [Vec3(0.0, 0.0, -1.0), Vec3(0.0, 0.0, 1.0), Vec3(-1.0, 0.0, 0.0),
     Vec3(1.0, 0.0, 0.0), Vec3(0.0, 1.0, 0.0), Vec3(0.0, -1.0, 0.0)]

  /** `addVertex`: appends one corner, normal and UV as 8 floats. */
  function AddVertex(vs: seq<real>, p: Vec3, n: Vec3, uv: Vec2): (r: seq<real>)
    ensures |r| == |vs| + 8
  {
    vs + Vertex(p.x, p.y, p.z, n.x, n.y, n.z, uv.u, uv.v)
  }

  /** The frustum's faces in `addVertex` order: near, far, left, right, top, bottom. */
  function FrustumFaces(orthoSize: real, nearPlane: real, farPlane: real): (fs: seq<Face>)
    ensures |fs| == 6
  {
    var c, n := FrustumCorners(orthoSize, nearPlane, farPlane), FrustumNormals;
    [ Face(n[0], [c[0], c[1], c[2], c[3]], FaceUVs),
      Face(n[1], [c[5], c[4], c[7], c[6]], FaceUVs),
      Face(n[2], [c[4], c[0], c[3], c[7]], FaceUVs),
      Face(n[3], [c[1], c[5], c[6], c[2]], FaceUVs),
      Face(n[4], [c[3], c[2], c[6], c[7]], FaceUVs),
      Face(n[5], [c[4], c[5], c[1], c[0]], FaceUVs) ]
  }

  /**
   * Every frustum face has four corners and the standard UVs, and lies in
   * the plane perpendicular to its normal: near and far at distances
   * nearPlane and -farPlane, the four sides at orthoSize.
   */
  lemma FrustumFacesShape(orthoSize: real, nearPlane: real, farPlane: real)
    ensures var fs := FrustumFaces(orthoSize, nearPlane, farPlane);
      QuadFaces(fs) && (forall f :: 0 <= f < 6 ==> fs[f].uv == FaceUVs) &&
      forall f, i :: 0 <= f < 6 && 0 <= i < 4 ==>
        Dot(fs[f].normal, fs[f].v[i]) == [nearPlane, -farPlane, orthoSize, orthoSize, orthoSize, orthoSize][f]
  {
  }

  function FrustumVertices(orthoSize: real, nearPlane: real, farPlane: real): seq<real> {
    FaceGrid(FrustumFaces(orthoSize, nearPlane, farPlane))
  }

  /**
   * `generateLightFrustum`: 24 straight-line `addVertex` calls, four per
   * face, then six index groups: the face table laid out face by face, 192
   * floats and 36 indices all below 24.
   */
  method GenerateLightFrustum(orthoSize: real, nearPlane: real, farPlane: real)
    returns (vertices: seq<real>, indices: seq<nat>)
    ensures vertices == FrustumVertices(orthoSize, nearPlane, farPlane)
    ensures indices == FanGrid(0, 6)
    ensures |vertices| == 192 && |indices| == 36
    ensures forall i :: 0 <= i < |indices| ==> indices[i] < 24
  {
    var c := FrustumCorners(orthoSize, nearPlane, farPlane);
    var n := FrustumNormals;
    ghost var fs := FrustumFaces(orthoSize, nearPlane, farPlane);
    ghost var before: seq<real>;
    FrustumFacesShape(orthoSize, nearPlane, farPlane);
    vertices, indices := [], [];
    // Near
    before := vertices;
    vertices := AddVertex(vertices, c[0], n[0], Vec2(0.0, 0.0)); vertices := AddVertex(vertices, c[1], n[0], Vec2(1.0, 0.0));
    vertices := AddVertex(vertices, c[2], n[0], Vec2(1.0, 1.0)); vertices := AddVertex(vertices, c[3], n[0], Vec2(0.0, 1.0));
    FaceStep(fs, 0, before, vertices);
    // Far
    before := vertices;
    vertices := AddVertex(vertices, c[5], n[1], Vec2(0.0, 0.0)); vertices := AddVertex(vertices, c[4], n[1], Vec2(1.0, 0.0));
    vertices := AddVertex(vertices, c[7], n[1], Vec2(1.0, 1.0)); vertices := AddVertex(vertices, c[6], n[1], Vec2(0.0, 1.0));
    FaceStep(fs, 1, before, vertices);
    // Left
    before := vertices;
    vertices := AddVertex(vertices, c[4], n[2], Vec2(0.0, 0.0)); vertices := AddVertex(vertices, c[0], n[2], Vec2(1.0, 0.0));
    vertices := AddVertex(vertices, c[3], n[2], Vec2(1.0, 1.0)); vertices := AddVertex(vertices, c[7], n[2], Vec2(0.0, 1.0));
    FaceStep(fs, 2, before, vertices);
    // Right
    before := vertices;
    vertices := AddVertex(vertices, c[1], n[3], Vec2(0.0, 0.0)); vertices := AddVertex(vertices, c[5], n[3], Vec2(1.0, 0.0));
    vertices := AddVertex(vertices, c[6], n[3], Vec2(1.0, 1.0)); vertices := AddVertex(vertices, c[2], n[3], Vec2(0.0, 1.0));
    FaceStep(fs, 3, before, vertices);
    // Top
    before := vertices;
    vertices := AddVertex(vertices, c[3], n[4], Vec2(0.0, 0.0)); vertices := AddVertex(vertices, c[2], n[4], Vec2(1.0, 0.0));
    vertices := AddVertex(vertices, c[6], n[4], Vec2(1.0, 1.0)); vertices := AddVertex(vertices, c[7], n[4], Vec2(0.0, 1.0));
    FaceStep(fs, 4, before, vertices);
    // Bottom
    before := vertices;
    vertices := AddVertex(vertices, c[4], n[5], Vec2(0.0, 0.0)); vertices := AddVertex(vertices, c[5], n[5], Vec2(1.0, 0.0));
    vertices := AddVertex(vertices, c[1], n[5], Vec2(1.0, 1.0)); vertices := AddVertex(vertices, c[0], n[5], Vec2(0.0, 1.0));
    FaceStep(fs, 5, before, vertices);
    // for f < 6: base = 4f, base + {0, 1, 2, 0, 2, 3}
    indices := FillGrid(6, 1, FanCell(0));
    FaceGridLayout(fs, 0, 0);
    FanGridFacts(0, 6);
  }

  /** Four `addVertex` calls with face k's corners, normal and UVs complete face k of the face grid. */
  lemma FaceStep(fs: seq<Face>, k: nat, before: seq<real>, after: seq<real>)
    requires k < |fs| && |fs[k].v| == 4 && fs[k].uv == FaceUVs
    requires before == Grid(k, FaceCorners, FaceCell(fs))
    requires var n := fs[k].normal;
      after == AddVertex(AddVertex(AddVertex(AddVertex(before,
        fs[k].v[0], n, Vec2(0.0, 0.0)), fs[k].v[1], n, Vec2(1.0, 0.0)), fs[k].v[2], n, Vec2(1.0, 1.0)), fs[k].v[3], n, Vec2(0.0, 1.0))
    ensures after == Grid(k + 1, FaceCorners, FaceCell(fs))
  {
    var fc := FaceCell(fs);
    var v0, v1, v2, v3 := fc(k, 0), fc(k, 1), fc(k, 2), fc(k, 3);
    assert after == before + v0 + v1 + v2 + v3;
    AppendAssoc(before, v0, v1);
    AppendAssoc(before, v0 + v1, v2);
    AppendAssoc(before, v0 + v1 + v2, v3);
    GridRow4(k, fc);
    GridStep(k, FaceCorners, fc);
  }

  // ---------------------------------------------------------------------
  // Static indexed cube

  /** `indexedCubeVertices`: 24 vertices of 8 floats, four per face. */
  const IndexedCubeVertices: seq<real> := [
    -0.5, -0.5, -0.5, 0.0, 0.0, -1.0, 0.0, 0.0,
    0.5, -0.5, -0.5, 0.0, 0.0, -1.0, 1.0, 0.0,
    0.5, 0.5, -0.5, 0.0, 0.0, -1.0, 1.0, 1.0,
    -0.5, 0.5, -0.5, 0.0, 0.0, -1.0, 0.0, 1.0,

    -0.5, -0.5, 0.5, 0.0, 0.0, 1.0, 0.0, 0.0,
    0.5, -0.5, 0.5, 0.0, 0.0, 1.0, 1.0, 0.0,
    0.5, 0.5, 0.5, 0.0, 0.0, 1.0, 1.0, 1.0,
    -0.5, 0.5, 0.5, 0.0, 0.0, 1.0, 0.0, 1.0,

    -0.5, 0.5, 0.5, -1.0, 0.0, 0.0, 1.0, 0.0,
    -0.5, 0.5, -0.5, -1.0, 0.0, 0.0, 1.0, 1.0,
    -0.5, -0.5, -0.5, -1.0, 0.0, 0.0, 0.0, 1.0,
    -0.5, -0.5, 0.5, -1.0, 0.0, 0.0, 0.0, 0.0,

    0.5, 0.5, 0.5, 1.0, 0.0, 0.0, 1.0, 0.0,
    0.5, 0.5, -0.5, 1.0, 0.0, 0.0, 1.0, 1.0,
    0.5, -0.5, -0.5, 1.0, 0.0, 0.0, 0.0, 1.0,
    0.5, -0.5, 0.5, 1.0, 0.0, 0.0, 0.0, 0.0,

    -0.5, -0.5, -0.5, 0.0, -1.0, 0.0, 0.0, 1.0,
    0.5, -0.5, -0.5, 0.0, -1.0, 0.0, 1.0, 1.0,
    0.5, -0.5, 0.5, 0.0, -1.0, 0.0, 1.0, 0.0,
    -0.5, -0.5, 0.5, 0.0, -1.0, 0.0, 0.0, 0.0,

    -0.5, 0.5, -0.5, 0.0, 1.0, 0.0, 0.0, 1.0,
    0.5, 0.5, -0.5, 0.0, 1.0, 0.0, 1.0, 1.0,
    0.5, 0.5, 0.5, 0.0, 1.0, 0.0, 1.0, 0.0,
    -0.5, 0.5, 0.5, 0.0, 1.0, 0.0, 0.0, 0.0]

  /** `cubeIndices`: two triangles per face of the static cube. */
  const CubeIndices: seq<nat> := [
    0, 1, 2, 2, 3, 0, 4, 5, 6, 6, 7, 4,
    8, 9, 10, 10, 11, 8, 12, 13, 14, 14, 15, 12,
    16, 17, 18, 18, 19, 16, 20, 21, 22, 22, 23, 20]

  /** The static quad q: 4q + {0, 1, 2, 2, 3, 0}. */
  function StaticQuad(q: nat): seq<nat> {
    [4 * q, 4 * q + 1, 4 * q + 2, 4 * q + 2, 4 * q + 3, 4 * q]
  }

  /** The 36 static indices are below the 24 eight-float vertices of the static cube. */
  lemma StaticCubeBounds()
    ensures |IndexedCubeVertices| == 24 * 8 && |CubeIndices| == 36
    ensures forall i :: 0 <= i < 36 ==> CubeIndices[i] < 24
  {
  }

  /** The static indices are six quads, quad q naming only vertices 4q .. 4q + 3. */
  lemma StaticCubeQuads()
    ensures CubeIndices == StaticQuad(0) + StaticQuad(1) + StaticQuad(2) + StaticQuad(3) + StaticQuad(4) + StaticQuad(5)
  {
  }
}
