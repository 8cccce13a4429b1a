/**
 * `StaticMesh`: a mesh that takes 8-float vertices (position, normal, UV),
 * computes per-vertex tangents from its triangles and stores 11-float
 * vertices (position, normal, UV, tangent).
 *
 * Tangent values are real arithmetic on the vertex data; only
 * `glm::normalize`, which takes a square root, is supplied by the caller.
 * The GL buffer uploads and the draw calls are left out.
 */
module StaticMeshes {
  import opened Wrappers
  import opened Vectors
  import opened Grids

  const InputStride: nat := 8
  const VertexStride: nat := 11

  /** Vertices in an 8-float buffer (the division truncates). */
  function VertexCount(vs: seq<real>): nat {
    |vs| / InputStride
  }

  lemma InVertex(vs: seq<real>, i: nat)
    requires i < VertexCount(vs)
    ensures 8 * i + 8 <= |vs|
  {
  }

  function Position(vs: seq<real>, i: nat): Vec3
    requires i < VertexCount(vs)
  {
    InVertex(vs, i);
    Vec3(vs[8 * i], vs[8 * i + 1], vs[8 * i + 2])
  }

  function NormalAt(vs: seq<real>, i: nat): Vec3
    requires i < VertexCount(vs)
  {
    InVertex(vs, i);
    Vec3(vs[8 * i + 3], vs[8 * i + 4], vs[8 * i + 5])
  }

  function UVAt(vs: seq<real>, i: nat): Vec2
    requires i < VertexCount(vs)
  {
    InVertex(vs, i);
    Vec2(vs[8 * i + 6], vs[8 * i + 7])
  }

  predicate InMesh(vs: seq<real>, i1: nat, i2: nat, i3: nat) {
    i1 < VertexCount(vs) && i2 < VertexCount(vs) && i3 < VertexCount(vs)
  }

  /** The determinant of the triangle's two UV edges. */
  function UVDeterminant(vs: seq<real>, i1: nat, i2: nat, i3: nat): real
    requires InMesh(vs, i1, i2, i3)
  {
    var uv1, uv2, uv3 := UVAt(vs, i1), UVAt(vs, i2), UVAt(vs, i3);
    (uv2.u - uv1.u) * (uv3.v - uv1.v) - (uv3.u - uv1.u) * (uv2.v - uv1.v)
  }

  /**
   * The tangent a triangle contributes, or None when its UV determinant is
   * zero (the source then sets f to 0 and skips the triangle; for a nonzero
   * determinant f = 1 / det is nonzero).
   */
  function TriangleTangent(vs: seq<real>, i1: nat, i2: nat, i3: nat): (t: Option<Vec3>)
    requires InMesh(vs, i1, i2, i3)
    ensures t.None? <==> UVDeterminant(vs, i1, i2, i3) == 0.0
  {
    var det := UVDeterminant(vs, i1, i2, i3);
    if det == 0.0 then None
    else
      var f := 1.0 / det;
      var p1 := Position(vs, i1);
      var edge1 := Sub(Position(vs, i2), p1);
      var edge2 := Sub(Position(vs, i3), p1);
      var d1v := UVAt(vs, i2).v - UVAt(vs, i1).v;
      var d2v := UVAt(vs, i3).v - UVAt(vs, i1).v;
      Some(Scale(f, Sub(Scale(d2v, edge1), Scale(d1v, edge2))))
  }

  /** Whether the triangle (i1, i2, i3) adds a tangent: all three indices name vertices and its UV determinant is nonzero. */
  predicate Accepted(vs: seq<real>, i1: nat, i2: nat, i3: nat) {
    InMesh(vs, i1, i2, i3) && TriangleTangent(vs, i1, i2, i3).Some?
  }

  /** One pass of the accumulation loop: `tempTangents[ik] += tangent` for k = 1, 2, 3 in turn. */
  function AddTriangle(vs: seq<real>, acc: seq<Vec3>, i1: nat, i2: nat, i3: nat): (r: seq<Vec3>)
    requires |acc| == VertexCount(vs)
    ensures |r| == |acc|
  {
    if !Accepted(vs, i1, i2, i3) then acc
    else
      var t := TriangleTangent(vs, i1, i2, i3).value;
      var a1 := acc[i1 := Add(acc[i1], t)];
      var a2 := a1[i2 := Add(a1[i2], t)];
      a2[i3 := Add(a2[i3], t)]
  }

  function Zeros(n: nat): (z: seq<Vec3>)
    ensures |z| == n && forall v :: 0 <= v < n ==> z[v] == Zero3
  {
    seq(n, _ => Zero3)
  }

  /** The accumulated tangents after the first t triangles (indices 3k, 3k+1, 3k+2 for k < t). */
  function Accumulate(vs: seq<real>, idx: seq<nat>, t: nat): (acc: seq<Vec3>)
    requires 3 * t <= |idx|
    ensures |acc| == VertexCount(vs)
  {
    if t == 0 then Zeros(VertexCount(vs))
    else
      var k := 3 * (t - 1);
      AddTriangle(vs, Accumulate(vs, idx, t - 1), idx[k], idx[k + 1], idx[k + 2])
  }

  /** The complete triangles of an index buffer: a trailing partial triangle is not one. */
  function TriangleCount(idx: seq<nat>): nat {
    |idx| / 3
  }

  /** The final tangent of a vertex: the sum normalised, made orthogonal to the normal (Gram-Schmidt) and normalised again. */
  function FinalTangent(normalize: Vec3 -> Vec3, n: Vec3, sum: Vec3): Vec3 {
    var t := normalize(sum);
    normalize(Sub(t, Scale(Dot(t, n), n)))
  }

  /** Output vertex i: its 8 input floats followed by its 3 tangent floats. */
  function OutVertex(vs: seq<real>, acc: seq<Vec3>, normalize: Vec3 -> Vec3, i: nat): seq<real> {
    if i < |acc| && i < VertexCount(vs) then
      InVertex(vs, i);
      vs[8 * i..8 * i + 8] + Components(FinalTangent(normalize, NormalAt(vs, i), acc[i]))
    else []
  }

  function Interleaved(vs: seq<real>, acc: seq<Vec3>, normalize: Vec3 -> Vec3): seq<real> {
    Grid(VertexCount(vs), 1, OutCells(vs, acc, normalize))
  }

  /** The output vertices as the cells of a one-column grid. */
  function OutCells(vs: seq<real>, acc: seq<Vec3>, normalize: Vec3 -> Vec3): (nat, nat) -> seq<real> {
    (i: nat, _: nat) => OutVertex(vs, acc, normalize, i)
  }

  /** One more output vertex: its 8 input floats, then its 3 tangent floats. */
  lemma InterleaveStep(vs: seq<real>, acc: seq<Vec3>, normalize: Vec3 -> Vec3, i: nat)
    requires |acc| == VertexCount(vs) && i < VertexCount(vs)
    ensures 8 * i + 8 <= |vs|
    ensures Grid(i + 1, 1, OutCells(vs, acc, normalize))
      == Grid(i, 1, OutCells(vs, acc, normalize)) + vs[8 * i..8 * i + 8]
         + Components(FinalTangent(normalize, NormalAt(vs, i), acc[i]))
  {
    var cell := OutCells(vs, acc, normalize);
    InVertex(vs, i);
    GridStep(i, 1, cell);
    Row1(i, cell);
    AppendAssoc(Grid(i, 1, cell), vs[8 * i..8 * i + 8], Components(FinalTangent(normalize, NormalAt(vs, i), acc[i])));
  }

  /**
   * What `CalculateTangents` leaves in `vertices`: the input itself when
   * it or the index buffer is empty or its length is not a multiple of 8,
   * otherwise the 11-float vertices.
   */
  function Tangents(vs: seq<real>, idx: seq<nat>, normalize: Vec3 -> Vec3): seq<real> {
    if |vs| == 0 || |idx| == 0 || |vs| % InputStride != 0 then vs
    else Interleaved(vs, Accumulate(vs, idx, TriangleCount(idx)), normalize)
  }

  /**
   * `CalculateTangents`, over the complete triangles of the index buffer
   * (see the finding on `AccumulateAsWritten`).
   */
  method CalculateTangents(vs: seq<real>, idx: seq<nat>, normalize: Vec3 -> Vec3) returns (out: seq<real>)
    ensures out == Tangents(vs, idx, normalize)
    ensures |vs| == 0 || |idx| == 0 || |vs| % 8 != 0 ==> out == vs
    ensures |vs| > 0 && |idx| > 0 && |vs| % 8 == 0 ==> |out| == |vs| / 8 * 11
  {
    if |vs| == 0 || |idx| == 0 {
      return vs;
    }
    if |vs| % InputStride != 0 {
      return vs;
    }
    var temp := AccumulateTangents(vs, idx);
    out := InterleaveTangents(vs, temp, normalize);
    TangentsLength(vs, idx, normalize);
  }

  /** The first loop of `CalculateTangents`: `tempTangents` over the complete triangles. */
  method AccumulateTangents(vs: seq<real>, idx: seq<nat>) returns (temp: seq<Vec3>)
    ensures temp == Accumulate(vs, idx, TriangleCount(idx))
  {
    var n := |vs| / InputStride;
    temp := Zeros(n);
    var t := 0;
    while t < TriangleCount(idx)
      invariant t <= TriangleCount(idx)
      invariant temp == Accumulate(vs, idx, t)
    {
      var i1, i2, i3 := idx[3 * t], idx[3 * t + 1], idx[3 * t + 2];
      if !(i1 >= n || i2 >= n || i3 >= n) {
        var tangent := TriangleTangent(vs, i1, i2, i3);
        if tangent.Some? {
          temp := temp[i1 := Add(temp[i1], tangent.value)];
          temp := temp[i2 := Add(temp[i2], tangent.value)];
          temp := temp[i3 := Add(temp[i3], tangent.value)];
        }
      }
      t := t + 1;
    }
  }

  /** The second loop of `CalculateTangents`: copy each vertex's 8 floats, then push its 3 tangent floats. */
  method InterleaveTangents(vs: seq<real>, temp: seq<Vec3>, normalize: Vec3 -> Vec3) returns (out: seq<real>)
    requires |temp| == VertexCount(vs)
    ensures out == Interleaved(vs, temp, normalize)
  {
    var n := |vs| / InputStride;
    out := [];
    var i := 0;
    while i < n
      invariant i <= n
      invariant out == Grid(i, 1, OutCells(vs, temp, normalize))
    {
      out := EmitVertex(out, vs, temp, normalize, i);
      i := i + 1;
    }
  }

  /** One pass of the second loop: output vertex i goes after the first i. */
  method EmitVertex(out: seq<real>, vs: seq<real>, temp: seq<Vec3>, normalize: Vec3 -> Vec3, i: nat) returns (r: seq<real>)
    requires |temp| == VertexCount(vs) && i < VertexCount(vs)
    requires out == Grid(i, 1, OutCells(vs, temp, normalize))
    ensures r == Grid(i + 1, 1, OutCells(vs, temp, normalize))
  {
    InterleaveStep(vs, temp, normalize, i);
    var tangent := FinalTangent(normalize, NormalAt(vs, i), temp[i]);
    r := CopyVertex(out, vs, 8 * i);
    r := r + Components(tangent);
  }

  /** The inner loop of the second pass: push the 8 floats of the vertex starting at `base`. */
  method CopyVertex(out: seq<real>, vs: seq<real>, base: nat) returns (r: seq<real>)
    requires base + 8 <= |vs|
    ensures r == out + vs[base..base + 8]
  {
    r := out;
    for j := 0 to InputStride
      invariant r == out + vs[base..base + j]
    {
      assert vs[base..base + j + 1] == vs[base..base + j] + [vs[base + j]];
      r := r + [vs[base + j]];
    }
  }

  lemma CellsUniform(vs: seq<real>, acc: seq<Vec3>, normalize: Vec3 -> Vec3)
    requires |acc| == VertexCount(vs)
    ensures Uniform(VertexCount(vs), 1, OutCells(vs, acc, normalize), 11)
  {
    var f := OutCells(vs, acc, normalize);
    forall a: nat, b: nat | a < VertexCount(vs) && b < 1 ensures |f(a, b)| == 11 {
      assert f(a, b) == OutVertex(vs, acc, normalize, a);
    }
  }

  lemma TangentsLength(vs: seq<real>, idx: seq<nat>, normalize: Vec3 -> Vec3)
    requires |vs| > 0 && |idx| > 0 && |vs| % 8 == 0
    ensures |Tangents(vs, idx, normalize)| == |vs| / 8 * 11
  {
    var acc := Accumulate(vs, idx, TriangleCount(idx));
    CellsUniform(vs, acc, normalize);
    GridLength(VertexCount(vs), 1, OutCells(vs, acc, normalize), 11);
  }

  /**
   * Output vertex i of an accepted buffer starts at 11 i: its first 8 floats
   * are input vertex i unchanged and the last 3 are its tangent.
   */
  lemma TangentLayout(vs: seq<real>, idx: seq<nat>, normalize: Vec3 -> Vec3, i: nat)
    requires |vs| > 0 && |idx| > 0 && |vs| % 8 == 0
    requires i < |vs| / 8
    ensures var out := Tangents(vs, idx, normalize);
      |out| == |vs| / 8 * 11 &&
      out[11 * i..11 * i + 8] == vs[8 * i..8 * i + 8] &&
      out[11 * i + 8..11 * i + 11] ==
        Components(FinalTangent(normalize, NormalAt(vs, i), Accumulate(vs, idx, TriangleCount(idx))[i]))
  {
    var acc := Accumulate(vs, idx, TriangleCount(idx));
    var f := OutCells(vs, acc, normalize);
    assert Tangents(vs, idx, normalize) == Grid(VertexCount(vs), 1, f);
    TangentsLength(vs, idx, normalize);
    CellsUniform(vs, acc, normalize);
    InVertex(vs, i);
    var t := Components(FinalTangent(normalize, NormalAt(vs, i), acc[i]));
    assert f(i, 0) == vs[8 * i..8 * i + 8] + t;
    CellBlocks(VertexCount(vs), f, i, vs[8 * i..8 * i + 8], t);
  }

  /** In a column of 11-element cells, cell i = a + t (|a| = 8) sits at 11 i: a first, then t. */
  lemma CellBlocks<T>(n: nat, f: (nat, nat) -> seq<T>, i: nat, a: seq<T>, t: seq<T>)
    requires Uniform(n, 1, f, 11) && i < n && f(i, 0) == a + t && |a| == 8
    ensures 11 * i + 11 <= |Grid(n, 1, f)|
    ensures Grid(n, 1, f)[11 * i..11 * i + 8] == a && Grid(n, 1, f)[11 * i + 8..11 * i + 11] == t
  {
    BlockAt(n, 1, f, 11, i, 0);
    assert (i * 1 + 0) * 11 == 11 * i;
    var g := Grid(n, 1, f);
    assert g[11 * i..11 * i + 8] == g[11 * i..11 * i + 11][..8];
    assert g[11 * i + 8..11 * i + 11] == g[11 * i..11 * i + 11][8..];
  }

  // ---------------------------------------------------------------------
  // What a triangle contributes, as a sum

  /** How often vertex v is a corner of the triangle (i1, i2, i3): 0 to 3. */
  function Multiplicity(v: nat, i1: nat, i2: nat, i3: nat): real {
    (if i1 == v then 1.0 else 0.0) + (if i2 == v then 1.0 else 0.0) + (if i3 == v then 1.0 else 0.0)
  }

  /** What the triangle adds to vertex v: its tangent once per corner at v, or nothing when it is skipped. */
  function Contribution(vs: seq<real>, i1: nat, i2: nat, i3: nat, v: nat): Vec3 {
    if Accepted(vs, i1, i2, i3) then Scale(Multiplicity(v, i1, i2, i3), TriangleTangent(vs, i1, i2, i3).value)
    else Zero3
  }

  /** The sum of the contributions of the first t triangles to vertex v. */
  function ContributionSum(vs: seq<real>, idx: seq<nat>, t: nat, v: nat): Vec3
    requires 3 * t <= |idx|
  {
    if t == 0 then Zero3
    else
      var k := 3 * (t - 1);
      Add(ContributionSum(vs, idx, t - 1, v), Contribution(vs, idx[k], idx[k + 1], idx[k + 2], v))
  }

  lemma AddTriangleAt(vs: seq<real>, acc: seq<Vec3>, i1: nat, i2: nat, i3: nat, v: nat)
    requires |acc| == VertexCount(vs) && v < |acc|
    ensures AddTriangle(vs, acc, i1, i2, i3)[v] == Add(acc[v], Contribution(vs, i1, i2, i3, v))
  {
  }

  /**
   * The loop's in-place updates compute the sum: the accumulated tangent of
   * a vertex is the sum, over the accepted triangles, of each one's tangent
   * times the number of its corners at that vertex.
   */
  lemma {:induction false} AccumulateIsSum(vs: seq<real>, idx: seq<nat>, t: nat, v: nat)
    requires 3 * t <= |idx| && v < VertexCount(vs)
    ensures Accumulate(vs, idx, t)[v] == ContributionSum(vs, idx, t, v)
  {
    if t > 0 {
      var k := 3 * (t - 1);
      AccumulateIsSum(vs, idx, t - 1, v);
      AddTriangleAt(vs, Accumulate(vs, idx, t - 1), idx[k], idx[k + 1], idx[k + 2], v);
    }
  }

  /** A vertex that no accepted triangle among the first t uses keeps the zero tangent. */
  lemma {:induction false} UntouchedStaysZero(vs: seq<real>, idx: seq<nat>, t: nat, v: nat)
    requires 3 * t <= |idx| && v < VertexCount(vs)
    requires forall k :: 0 <= k < t && Accepted(vs, idx[3 * k], idx[3 * k + 1], idx[3 * k + 2]) ==>
      v != idx[3 * k] && v != idx[3 * k + 1] && v != idx[3 * k + 2]
    ensures Accumulate(vs, idx, t)[v] == Zero3
  {
    if t > 0 {
      UntouchedStaysZero(vs, idx, t - 1, v);
      var k := 3 * (t - 1);
      AddTriangleAt(vs, Accumulate(vs, idx, t - 1), idx[k], idx[k + 1], idx[k + 2], v);
    }
  }

  // ---------------------------------------------------------------------
  // The accumulation loop as written

  /**
   * The source's loop `for (i = 0; i < indices.size(); i += 3)` reads
   * `indices[i + 1]` and `indices[i + 2]` without a bound check. None
   * stands for a read past the end of the index buffer.
   */
  function AccumulateAsWritten(vs: seq<real>, idx: seq<nat>, i: nat, acc: seq<Vec3>): Option<seq<Vec3>>
    requires |acc| == VertexCount(vs)
    decreases |idx| - i
  {
    if i >= |idx| then Some(acc)
    else if i + 2 >= |idx| then None
    else AccumulateAsWritten(vs, idx, i + 3, AddTriangle(vs, acc, idx[i], idx[i + 1], idx[i + 2]))
  }

  /**
   * The loop as written stays inside the index buffer exactly when its
   * length is a multiple of 3, and then it computes what the corrected
   * loop over complete triangles computes.
   */
  lemma AsWrittenAgreement(vs: seq<real>, idx: seq<nat>)
    ensures AccumulateAsWritten(vs, idx, 0, Zeros(VertexCount(vs))).Some? <==> |idx| % 3 == 0
    ensures |idx| % 3 == 0 ==>
      AccumulateAsWritten(vs, idx, 0, Zeros(VertexCount(vs))) == Some(Accumulate(vs, idx, TriangleCount(idx)))
  {
    AsWrittenFrom(vs, idx, 0);
  }

  lemma {:induction false} AsWrittenFrom(vs: seq<real>, idx: seq<nat>, t: nat)
    requires 3 * t <= |idx|
    ensures AccumulateAsWritten(vs, idx, 3 * t, Accumulate(vs, idx, t)).Some? <==> |idx| % 3 == 0
    ensures |idx| % 3 == 0 ==>
      AccumulateAsWritten(vs, idx, 3 * t, Accumulate(vs, idx, t)) == Some(Accumulate(vs, idx, TriangleCount(idx)))
    decreases |idx| - 3 * t
  {
    if 3 * t + 2 < |idx| {
      AsWrittenFrom(vs, idx, t + 1);
      AsWrittenStep(vs, idx, t);
    } else if 3 * t < |idx| {
      assert |idx| % 3 != 0;
    } else {
      assert |idx| == 3 * t;
    }
  }

  /** One complete triangle: both loops add it to the same sums. */
  lemma AsWrittenStep(vs: seq<real>, idx: seq<nat>, t: nat)
    requires 3 * t + 2 < |idx|
    ensures 3 * (t + 1) <= |idx|
    ensures AccumulateAsWritten(vs, idx, 3 * t, Accumulate(vs, idx, t))
      == AccumulateAsWritten(vs, idx, 3 * (t + 1), Accumulate(vs, idx, t + 1))
  {
    var k := 3 * t;
    assert 3 * (t + 1) == k + 3;
    var acc := Accumulate(vs, idx, t);
    var next := AddTriangle(vs, acc, idx[k], idx[k + 1], idx[k + 2]);
    assert Accumulate(vs, idx, t + 1) == next;
    assert AccumulateAsWritten(vs, idx, k, acc) == AccumulateAsWritten(vs, idx, k + 3, next);
  }

  /** One vertex and a single index: the as-written loop reads `indices[1]` and `indices[2]`, which do not exist. */
  lemma PartialTriangleReadsPastEnd()
    ensures AccumulateAsWritten([0.0, 0.0, 0.0, 0.0, 0.0, 1.0, 0.0, 0.0], [0], 0, Zeros(1)).None?
  {
  }

  // ---------------------------------------------------------------------
  // The mesh object

  /** When `UpdateGeometry` keeps 8-float input: exactly when the tangent step produced a multiple of 11 floats. */
  predicate StoredStrideOk(vs: seq<real>, idx: seq<nat>, normalize: Vec3 -> Vec3) {
    |Tangents(vs, idx, normalize)| % VertexStride == 0
  }

  /**
   * The second stride check of `UpdateGeometry` fails only when the tangent
   * step returned early on a non-empty buffer: with no vertices or no
   * indices, an 8-float buffer passes only if it happens to be a multiple
   * of 88 floats.
   */
  lemma StoredStride(vs: seq<real>, idx: seq<nat>, normalize: Vec3 -> Vec3)
    requires |vs| % 8 == 0
    ensures StoredStrideOk(vs, idx, normalize) <==> (|vs| > 0 && |idx| > 0) || |vs| % 88 == 0
  {
    if |vs| > 0 && |idx| > 0 {
      TangentsLength(vs, idx, normalize);
      ElevenStride(|Tangents(vs, idx, normalize)|, |vs| / 8);
    } else {
      assert Tangents(vs, idx, normalize) == vs;
      Mod88(|vs|);
    }
  }

  /** 11 floats per vertex make a length divisible by 11. */
  lemma ElevenStride(len: nat, k: nat)
    requires len == k * 11
    ensures len % VertexStride == 0
  {
  }

  /** A multiple of 8 is a multiple of 11 exactly when it is a multiple of 88. */
  lemma Mod88(n: nat)
    requires n % 8 == 0
    ensures n % 11 == 0 <==> n % 88 == 0
  {
    var q := n / 8;
    assert n == 8 * q;
    if n % 11 == 0 {
      var p := n / 11;
      assert n == 11 * p;
      assert q == 11 * (7 * p - 5 * q);
      assert n == 88 * (7 * p - 5 * q);
    }
    if n % 88 == 0 {
      assert n == 11 * (8 * (n / 88));
    }
  }

  /** `unsigned int` as `static_cast` produces it from a `size_t`. */
  function ToUInt32(n: nat): (r: nat)
    ensures r < 0x1_0000_0000 && (n < 0x1_0000_0000 ==> r == n)
  {
    n % 0x1_0000_0000
  }

  class StaticMesh {
    /** 11-float vertices once geometry was accepted. */
    var vertices: seq<real>
    var indices: seq<nat>
    var indexCount: nat

    /** The constructor starts from empty buffers and calls `UpdateGeometry`. */
    constructor(initialVertices: seq<real>, initialIndices: seq<nat>, normalize: Vec3 -> Vec3)
      ensures |initialVertices| % 8 != 0 ==> vertices == [] && indices == [] && indexCount == 0
      ensures |initialVertices| % 8 == 0 ==>
        vertices == Tangents(initialVertices, initialIndices, normalize) && indices == initialIndices &&
        indexCount == (if |vertices| % 11 == 0 then ToUInt32(|indices|) else 0)
    {
      vertices := [];
      indices := [];
      indexCount := 0;
      new;
      UpdateGeometry(initialVertices, initialIndices, normalize);
    }

    /**
     * `UpdateGeometry`: input not made of 8-float vertices sets indexCount
     * to 0 and keeps the stored buffers; otherwise both buffers are
     * replaced, and indexCount is the number of indices if the stored
     * vertices are 11-float, else 0.
     */
    method UpdateGeometry(inputVertices: seq<real>, inputIndices: seq<nat>, normalize: Vec3 -> Vec3)
      modifies this
      ensures |inputVertices| % 8 != 0 ==>
        vertices == old(vertices) && indices == old(indices) && indexCount == 0
      ensures |inputVertices| % 8 == 0 ==>
        vertices == Tangents(inputVertices, inputIndices, normalize) && indices == inputIndices &&
        indexCount == (if |vertices| % 11 == 0 then ToUInt32(|indices|) else 0)
      ensures indexCount != 0 ==> |vertices| % 11 == 0 && indexCount == ToUInt32(|indices|)
    {
      if |inputVertices| % InputStride != 0 {
        indexCount := 0;
        return;
      }
      vertices := inputVertices;
      indices := inputIndices;
      vertices := CalculateTangents(vertices, indices, normalize);
      if |vertices| % VertexStride != 0 {
        indexCount := 0;
        return;
      }
      indexCount := ToUInt32(|indices|);
    }
  }
}
