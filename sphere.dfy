/**
 * `Sphere`: the PBR sphere object. Its geometry is the 64 x 64 segment UV
 * sphere of `UvSpheres`, uploaded as 11 floats per vertex (position,
 * normal, texture coordinate, tangent); its material is a set of scalar
 * parameters and five optional texture ids. Shader compilation, the GL
 * buffers and the uniform uploads of `draw` are left out; what `draw`
 * decides (which maps it samples, whether it blends) is modelled.
 */
module Spheres {
  import opened Wrappers
  import opened Grids
  import opened Vectors
  import opened UvSpheres
  import opened Textures

  /** `(xSeg, ySeg)` of vertex (y, x): its column and row over the 64 segments. */
  function UvCoord(y: nat, x: nat): Vec2 {
    Vec2(x as real / Segments as real, y as real / Segments as real)
  }

  /**
   * The tangent of vertex (y, x). It is `normalize(-sin(2 pi xSeg), 0, cos(2 pi xSeg))`,
   * which depends on the column alone; the caller supplies it per column.
   */
  function TangentAt(tangent: nat -> Vec3): (nat, nat) -> Vec3 {
    (y: nat, x: nat) => tangent(x)
  }

  /**
   * Entry i of the four vectors the vertex loops fill (`pos`, `norm`, `uvs`,
   * `tan`), as one record: the vectors always have the same length.
   */
  datatype SphereVertex = SphereVertex(pos: Vec3, norm: Vec3, uv: Vec2, tan: Vec3)

  /** What the vertex loops push for (y, x): the point, the same point as normal, its uv and its column's tangent. */
  function VertexOf(dir: (nat, nat) -> Vec3, tangent: nat -> Vec3): (nat, nat) -> SphereVertex {
    (y: nat, x: nat) => SphereVertex(dir(y, x), dir(y, x), UvCoord(y, x), tangent(x))
  }

  /** The 11 floats of one vertex: position (3), normal (3), uv (2), tangent (3). */
  function VertexFloats(v: SphereVertex): (r: seq<real>)
    ensures |r| == 11
  {
    Components(v.pos) + Components(v.norm) + [v.uv.u, v.uv.v] + Components(v.tan)
  }

  function InterleaveCell(vs: seq<SphereVertex>): (nat, nat) -> seq<real> {
    (i: nat, c: nat) => if i < |vs| then VertexFloats(vs[i]) else []
  }

  /** The `data` vector: for each i < `pos.size()`, vertex i's 11 floats. */
  function Interleave(vs: seq<SphereVertex>): seq<real> {
    Grid(|vs|, 1, InterleaveCell(vs))
  }

  /** The vertex buffer `initGeometry` uploads. */
  function SphereData(dir: (nat, nat) -> Vec3, tangent: nat -> Vec3): seq<real> {
    Interleave(UvGrid(VertexOf(dir, tangent)))
  }

  /** The interleaving loop over i < `pos.size()`. */
  method InterleaveVertices(vs: seq<SphereVertex>) returns (data: seq<real>)
    ensures data == Interleave(vs)
  {
    data := FillGrid(|vs|, 1, InterleaveCell(vs));
  }

  /**
   * `initGeometry` up to the upload: the vertex loops, the index loops and
   * the interleaving loop, and `indexCount = idx.size()`.
   */
  method InitGeometry(dir: (nat, nat) -> Vec3, tangent: nat -> Vec3)
    returns (data: seq<real>, idx: seq<nat>, indexCount: UInt32)
    ensures data == SphereData(dir, tangent)
    ensures idx == UvIndices()
    ensures indexCount == |idx| == 24576
  {
    var vs := BuildVertices(VertexOf(dir, tangent));
    idx := BuildIndices();
    UvIndexCount();
    indexCount := |idx|;
    data := InterleaveVertices(vs);
  }

  /** `initGeometry` as the sphere object sees it: the buffers go to GL, the index count stays. */
  method UploadGeometry(dir: (nat, nat) -> Vec3, tangent: nat -> Vec3) returns (indexCount: UInt32)
    ensures indexCount == 24576
  {
    var data, idx;
    data, idx, indexCount := InitGeometry(dir, tangent);
  }

  lemma InterleaveUniform(vs: seq<SphereVertex>)
    ensures Uniform(|vs|, 1, InterleaveCell(vs), 11)
  {
    var f := InterleaveCell(vs);
    forall i: nat, c: nat | i < |vs| && c < 1 ensures |f(i, c)| == 11 {
      assert f(i, c) == VertexFloats(vs[i]);
    }
  }

  /** Vertex i's floats are elements 11 i .. 11 i + 10. */
  lemma InterleaveAt(vs: seq<SphereVertex>, i: nat)
    requires i < |vs|
    ensures |Interleave(vs)| == |vs| * 11
    ensures 11 * i + 11 <= |vs| * 11
    ensures Interleave(vs)[11 * i..11 * i + 11] == VertexFloats(vs[i])
  {
    var f := InterleaveCell(vs);
    InterleaveUniform(vs);
    assert f(i, 0) == VertexFloats(vs[i]);
    assert (i * 1 + 0) * 11 == 11 * i && |vs| * 1 * 11 == |vs| * 11;
    BlockAt(|vs|, 1, f, 11, i, 0);
  }

  /**
   * Vertex (y, x) is floats 11 (65 y + x) onwards: its point on the sphere,
   * the same point as its normal, uv (x / 64, y / 64), and its column's
   * tangent. The buffer holds 65 * 65 such vertices.
   */
  lemma SphereVertexAt(dir: (nat, nat) -> Vec3, tangent: nat -> Vec3, y: nat, x: nat)
    requires y < Side && x < Side
    ensures |SphereData(dir, tangent)| == Side * Side * 11
    ensures var i := y * Side + x;
      11 * i + 11 <= |SphereData(dir, tangent)| &&
      SphereData(dir, tangent)[11 * i..11 * i + 11]
        == Components(dir(y, x)) + Components(dir(y, x)) + [x as real / 64.0, y as real / 64.0] + Components(tangent(x))
  {
    var g := VertexOf(dir, tangent);
    UvGridAt(g, y, x);
    InterleaveAt(UvGrid(g), y * Side + x);
  }

  /** Every vertex's normal is its position: floats 3 .. 5 of a vertex repeat floats 0 .. 2. */
  lemma NormalIsPosition(dir: (nat, nat) -> Vec3, tangent: nat -> Vec3, i: nat)
    requires i < Side * Side
    ensures |SphereData(dir, tangent)| == Side * Side * 11
    ensures SphereData(dir, tangent)[11 * i..11 * i + 3] == SphereData(dir, tangent)[11 * i + 3..11 * i + 6]
  {
    UvGridMembers(VertexOf(dir, tangent), i);
    InterleaveNormal(UvGrid(VertexOf(dir, tangent)), i);
  }

  /** A vertex whose normal is its position repeats its first three floats. */
  lemma InterleaveNormal(vs: seq<SphereVertex>, i: nat)
    requires i < |vs| && vs[i].norm == vs[i].pos
    ensures |Interleave(vs)| == |vs| * 11
    ensures Interleave(vs)[11 * i..11 * i + 3] == Interleave(vs)[11 * i + 3..11 * i + 6]
  {
    InterleaveAt(vs, i);
    var d, block := Interleave(vs), VertexFloats(vs[i]);
    FloatsRepeat(vs[i]);
    SliceOfSlice(d, 11 * i, 11, 0, 3);
    SliceOfSlice(d, 11 * i, 11, 3, 6);
  }

  lemma FloatsRepeat(v: SphereVertex)
    requires v.norm == v.pos
    ensures VertexFloats(v)[0..3] == VertexFloats(v)[3..6]
  {
    var f := VertexFloats(v);
    assert f[0..3] == Components(v.pos) by {
      assert f == Components(v.pos) + (Components(v.norm) + [v.uv.u, v.uv.v] + Components(v.tan));
    }
    assert f[3..6] == Components(v.norm) by {
      assert f == Components(v.pos) + Components(v.norm) + ([v.uv.u, v.uv.v] + Components(v.tan));
    }
  }

  lemma SliceOfSlice<T>(d: seq<T>, b: nat, n: nat, lo: nat, hi: nat)
    requires b + n <= |d| && lo <= hi <= n
    ensures d[b..b + n][lo..hi] == d[b + lo..b + hi]
  {
    var l, r := d[b..b + n][lo..hi], d[b + lo..b + hi];
    forall k | 0 <= k < hi - lo ensures l[k] == r[k] {
      assert l[k] == d[b..b + n][lo + k] == d[b + lo + k];
    }
  }

  /** Each vertex the loops push has its normal equal to its position. */
  lemma UvGridMembers(g: (nat, nat) -> SphereVertex, i: nat)
    requires i < Side * Side
    requires forall y: nat, x: nat :: g(y, x).norm == g(y, x).pos
    ensures |UvGrid(g)| == Side * Side && UvGrid(g)[i].norm == UvGrid(g)[i].pos
  {
    UvGridAt(g, 0, 0);
    var vs := UvGrid(g);
    var y, x := i / Side, i % Side;
    assert i == y * Side + x;
    UvGridAt(g, y, x);
  }

  /** The scalar PBR parameters of a sphere, in the order the class declares them. */
  datatype PbrMaterial = PbrMaterial(
    color: Vec3, alpha: real, metallic: real, roughness: real, ao: real,
    reflectionStrength: real, transmission: real, ior: real)

  /** White, opaque, dielectric, half rough, fully lit, fully reflective, not transmitting, glass-like ior. */
  const DefaultMaterial := PbrMaterial(Vec3(1.0, 1.0, 1.0), 1.0, 0.0, 0.5, 1.0, 1.0, 0.0, 1.52)

  /** Which texture maps `draw` samples. */
  datatype MapUse = MapUse(albedo: bool, normal: bool, metallic: bool, roughness: bool, ao: bool)

  const NoMaps := MapUse(false, false, false, false, false)

  class Sphere {
    var color: Vec3
    var alpha: real
    var metallic: real
    var roughness: real
    var ao: real
    var reflectionStrength: real
    var transmission: real
    var ior: real

    var albedoMapID: UInt32
    var normalMapID: UInt32
    var metallicMapID: UInt32
    var roughnessMapID: UInt32
    var aoMapID: UInt32

    /** The number of indices `draw` submits. */
    var indexCount: UInt32

    /** The material fields as one record. */
    function Material(): PbrMaterial
      reads this
    {
      PbrMaterial(color, alpha, metallic, roughness, ao, reflectionStrength, transmission, ior)
    }

    /** The five texture ids: albedo, normal, metallic, roughness, ao. */
    function MapIds(): seq<UInt32>
      reads this
    {
      [albedoMapID, normalMapID, metallicMapID, roughnessMapID, aoMapID]
    }

    /**
     * `Sphere()`: `initGeometry` uploads the sphere's buffers and keeps the
     * index count, 24576; the material takes its defaults and every map id is 0.
     */
    constructor(dir: (nat, nat) -> Vec3, tangent: nat -> Vec3)
      ensures indexCount == 24576
      ensures Material() == DefaultMaterial && MapIds() == [0, 0, 0, 0, 0]
      ensures UsedMaps() == NoMaps && !Blends()
    {
      var count := UploadGeometry(dir, tangent);
      indexCount := count;
      color := Vec3(1.0, 1.0, 1.0);
      alpha := 1.0;
      metallic := 0.0;
      roughness := 0.5;
      ao := 1.0;
      reflectionStrength := 1.0;
      transmission := 0.0;
      ior := 1.52;
      albedoMapID := 0;
      normalMapID := 0;
      metallicMapID := 0;
      roughnessMapID := 0;
      aoMapID := 0;
    }

    /** `setMaterial`: the eight parameters, the last three defaulting to 1, 0 and 1.52; the maps are kept. */
    method SetMaterial(col: Vec3, a: real, m: real, r: real, ambient: real,
                       refl: real := 1.0, trans: real := 0.0, indexOfRefraction: real := 1.52)
      modifies this
      ensures Material() == PbrMaterial(col, a, m, r, ambient, refl, trans, indexOfRefraction)
      ensures MapIds() == old(MapIds()) && indexCount == old(indexCount)
      ensures Blends() <==> trans > 0.0
    {
      color := col;
      alpha := a;
      metallic := m;
      roughness := r;
      ao := ambient;
      reflectionStrength := refl;
      transmission := trans;
      ior := indexOfRefraction;
    }

    /** `setAlbedoTexture`: only the albedo id changes; an id of 0 switches the map off. */
    method SetAlbedoTexture(texID: UInt32)
      modifies this
      ensures MapIds() == old(MapIds())[0 := texID] && Material() == old(Material()) && indexCount == old(indexCount)
      ensures UsedMaps() == old(UsedMaps()).(albedo := texID != 0)
    {
      albedoMapID := texID;
    }

    /** `setNormalTexture`. */
    method SetNormalTexture(texID: UInt32)
      modifies this
      ensures MapIds() == old(MapIds())[1 := texID] && Material() == old(Material()) && indexCount == old(indexCount)
      ensures UsedMaps() == old(UsedMaps()).(normal := texID != 0)
    {
      normalMapID := texID;
    }

    /** `setMetallicTexture`. */
    method SetMetallicTexture(texID: UInt32)
      modifies this
      ensures MapIds() == old(MapIds())[2 := texID] && Material() == old(Material()) && indexCount == old(indexCount)
      ensures UsedMaps() == old(UsedMaps()).(metallic := texID != 0)
    {
      metallicMapID := texID;
    }

    /** `setRoughnessTexture`. */
    method SetRoughnessTexture(texID: UInt32)
      modifies this
      ensures MapIds() == old(MapIds())[3 := texID] && Material() == old(Material()) && indexCount == old(indexCount)
      ensures UsedMaps() == old(UsedMaps()).(roughness := texID != 0)
    {
      roughnessMapID := texID;
    }

    /** `setAoTexture`. */
    method SetAoTexture(texID: UInt32)
      modifies this
      ensures MapIds() == old(MapIds())[4 := texID] && Material() == old(Material()) && indexCount == old(indexCount)
      ensures UsedMaps() == old(UsedMaps()).(ao := texID != 0)
    {
      aoMapID := texID;
    }

    /** The `use...Map` flags `draw` sets: a map is sampled exactly when its id is not 0. */
    function UsedMaps(): (u: MapUse)
      reads this
      ensures u.albedo <==> MapIds()[0] != 0
      ensures u.normal <==> MapIds()[1] != 0
      ensures u.metallic <==> MapIds()[2] != 0
      ensures u.roughness <==> MapIds()[3] != 0
      ensures u.ao <==> MapIds()[4] != 0
    {
      MapUse(albedoMapID != 0, normalMapID != 0, metallicMapID != 0, roughnessMapID != 0, aoMapID != 0)
    }

    /** `draw` enables alpha blending around its draw call when the material transmits light. */
    predicate Blends()
      reads this
    {
      Material().transmission > 0.0
    }
  }
}
