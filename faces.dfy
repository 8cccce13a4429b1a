/**
 * Four-corner faces, the unit of every box builder: each face appends its
 * four corners with the UVs (0,0), (1,0), (1,1), (0,1) and the two
 * triangles base + {0, 1, 2} and base + {0, 2, 3}, where base is the
 * number of vertices before the face.
 */
module Faces {
  import opened Grids
  import opened Vectors

  /** The UVs of a face's four corners, in corner order. */
  const FaceUVs: seq<Vec2> := [Vec2(0.0, 0.0), Vec2(1.0, 0.0), Vec2(1.0, 1.0), Vec2(0.0, 1.0)]

  /** The two triangles of the face whose first corner is vertex `base`. */
  function QuadFan(base: nat): (q: seq<nat>)
    ensures |q| == 6
    ensures forall j :: 0 <= j < 6 ==> base <= q[j] < base + 4
  {
    [base, base + 1, base + 2, base, base + 2, base + 3]
  }

  /** Face k of a run of faces starting at vertex `base`. */
  function FanCell(base: nat): (nat, nat) -> seq<nat> {
    (k: nat, _: nat) => QuadFan(base + 4 * k)
  }

  /** The indices of n consecutive faces whose vertices start at `base`. */
  function FanGrid(base: nat, n: nat): seq<nat> {
    Grid(n, 1, FanCell(base))
  }

  lemma FanUniform(base: nat, n: nat)
    ensures Uniform(n, 1, FanCell(base), 6)
  {
    var fc := FanCell(base);
    forall y: nat, x: nat | y < n && x < 1 ensures |fc(y, x)| == 6 {
      assert fc(y, x) == QuadFan(base + 4 * y);
    }
  }

  /** n faces give 6n indices, and every one lies in [base, base + 4n). */
  lemma FanGridFacts(base: nat, n: nat)
    ensures |FanGrid(base, n)| == 6 * n
    ensures forall i :: 0 <= i < |FanGrid(base, n)| ==> base <= FanGrid(base, n)[i] < base + 4 * n
  {
    var fc := FanCell(base);
    FanUniform(base, n);
    GridLength(n, 1, fc, 6);
    forall i | 0 <= i < |FanGrid(base, n)| ensures base <= FanGrid(base, n)[i] < base + 4 * n {
      var e := FanGrid(base, n)[i];
      var k, x := GridMembers(n, 1, fc, e);
      assert e in QuadFan(base + 4 * k);
      MulLe(k + 1, n, 4);
    }
  }

  /** Appending n faces' indices to a list adds 6n entries, each in [base, base + 4n). */
  lemma FanAppendFacts(idx: seq<nat>, base: nat, n: nat, idx': seq<nat>)
    requires idx' == idx + FanGrid(base, n)
    ensures |idx'| == |idx| + 6 * n
    ensures forall i :: |idx| <= i < |idx'| ==> base <= idx'[i] < base + 4 * n
  {
    FanGridFacts(base, n);
    forall i | |idx| <= i < |idx'| ensures base <= idx'[i] < base + 4 * n {
      assert idx'[i] == FanGrid(base, n)[i - |idx|];
    }
  }

  /** Face k's six indices come at 6k: base + 4k + {0, 1, 2, 0, 2, 3}. */
  lemma FanGridAt(base: nat, n: nat, k: nat)
    requires k < n
    ensures |FanGrid(base, n)| == 6 * n
    ensures 6 * k + 6 <= 6 * n && FanGrid(base, n)[6 * k..6 * k + 6] == QuadFan(base + 4 * k)
  {
    FanUniform(base, n);
    BlockAt(n, 1, FanCell(base), 6, k, 0);
  }

  /** Appending face k's triangles, whose first vertex is `at` = base + 4k, extends a run of k faces to k + 1. */
  lemma FanStep(pre: seq<nat>, base: nat, k: nat, cur: seq<nat>, at: nat)
    requires cur == pre + FanGrid(base, k)
    requires at == base + 4 * k
    ensures cur + QuadFan(at) == pre + FanGrid(base, k + 1)
  {
    var fc := FanCell(base);
    GridStep(k, 1, fc);
    Row1(k, fc);
    AppendAssoc(pre, FanGrid(base, k), QuadFan(at));
  }

  /** Appending face k's four corner blocks extends a grid of k faces to k + 1. */
  lemma FaceStep<T>(pre: seq<T>, k: nat, f: (nat, nat) -> seq<T>, cur: seq<T>, block: seq<T>)
    requires cur == pre + Grid(k, 4, f)
    requires block == f(k, 0) + f(k, 1) + f(k, 2) + f(k, 3)
    ensures cur + block == pre + Grid(k + 1, 4, f)
  {
    GridRow4(k, f);
    GridStep(k, 4, f);
    AppendAssoc(pre, Grid(k, 4, f), block);
  }
}
