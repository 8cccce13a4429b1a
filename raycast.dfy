/**
 * The spatial index of src/glbox/physics/Raycast.h: axis-aligned boxes
 * (`BoxCollider`), the box of a vertex buffer, and an octree of object
 * pointers. An object is a `StaticMesh*`, identified here by a number.
 *
 * Octree nodes are values: a node's children are a sequence that is empty
 * (all eight pointers null) or has eight entries, and every operation that
 * changes a node in place returns the new node instead.
 */
module Raycasts {
  import opened Vectors

  /** `FLT_MAX`, the largest finite `float`. */
  const FltMax: real := 340282346638528859811704183484516925440.0

  /** `BoxCollider`: its two corners. */
  datatype Box = Box(min: Vec3, max: Vec3)

  /** `BoxCollider()`: the inverted box from `FLT_MAX` to `-FLT_MAX`. */
  const EmptyBox: Box := Box(Vec3(FltMax, FltMax, FltMax), Vec3(-FltMax, -FltMax, -FltMax))

  /** `min <= max` on every axis. */
  predicate NonEmpty(b: Box) {
    b.min.x <= b.max.x && b.min.y <= b.max.y && b.min.z <= b.max.z
  }

  /** `BoxCollider::Intersects(other)`: the closed intervals overlap on every axis. */
  predicate Intersects(a: Box, b: Box) {
    (a.min.x <= b.max.x && a.max.x >= b.min.x) &&
    (a.min.y <= b.max.y && a.max.y >= b.min.y) &&
    (a.min.z <= b.max.z && a.max.z >= b.min.z)
  }

  /** `a.Contains(b)`: b lies within a on every axis. */
  predicate Contains(a: Box, b: Box) {
    (b.min.x >= a.min.x && b.max.x <= a.max.x) &&
    (b.min.y >= a.min.y && b.max.y <= a.max.y) &&
    (b.min.z >= a.min.z && b.max.z <= a.max.z)
  }

  /** A point inside the closed box. */
  predicate InBox(p: Vec3, b: Box) {
    b.min.x <= p.x <= b.max.x && b.min.y <= p.y <= b.max.y && b.min.z <= p.z <= b.max.z
  }

  /** The overlap test does not depend on the order of its operands. */
  lemma IntersectsSymmetric(a: Box, b: Box)
    ensures Intersects(a, b) <==> Intersects(b, a)
  {
  }

  /** Intersection is the existence of a common point (for boxes that are not inverted). */
  lemma IntersectsCommonPoint(a: Box, b: Box)
    requires NonEmpty(a) && NonEmpty(b)
    ensures Intersects(a, b) <==> exists p :: InBox(p, a) && InBox(p, b)
  {
    if Intersects(a, b) {
      var p := Vec3(Max(a.min.x, b.min.x), Max(a.min.y, b.min.y), Max(a.min.z, b.min.z));
      assert InBox(p, a) && InBox(p, b);
    }
  }

  function Max(a: real, b: real): real {
    if a < b then b else a
  }

  function Min(a: real, b: real): real {
    if b < a then b else a
  }

  /** Boxes that only share a face still intersect. */
  lemma TouchingBoxesIntersect()
    ensures Intersects(Box(Vec3(0.0, 0.0, 0.0), Vec3(1.0, 1.0, 1.0)), Box(Vec3(1.0, 0.0, 0.0), Vec3(2.0, 1.0, 1.0)))
  {
  }

  /** Containment is a preorder, and a box contains a non-inverted box only if they intersect. */
  lemma ContainsFacts(a: Box, b: Box, c: Box)
    ensures Contains(a, a)
    ensures Contains(a, b) && Contains(b, c) ==> Contains(a, c)
    ensures Contains(a, b) && NonEmpty(b) ==> Intersects(a, b)
  {
  }

  /** Containment is containment of points. */
  lemma ContainsPoints(a: Box, b: Box, p: Vec3)
    requires Contains(a, b) && InBox(p, b)
    ensures InBox(p, a)
  {
  }

  // ----- CalculateFromVertices -----

  /** Position i of a buffer with `stride` floats per vertex: a multiple of the stride with three floats from i on. */
  predicate Sample(n: nat, stride: int, i: int) {
    stride > 0 && 0 <= i && i % stride == 0 && i + 2 < n
  }

  /** Corner coordinate on axis a (0 = x, 1 = y, 2 = z). */
  function Lo(b: Box, a: nat): real
    requires a < 3
  {
    if a == 0 then b.min.x else if a == 1 then b.min.y else b.min.z
  }

  function Hi(b: Box, a: nat): real
    requires a < 3
  {
    if a == 0 then b.max.x else if a == 1 then b.max.y else b.max.z
  }

  /**
   * On axis a, [lo, hi] holds coordinate a of every sampled position below
   * upTo, and each end is its start value (`FLT_MAX` for lo, `-FLT_MAX` for
   * hi) or the coordinate of such a position, never beyond the start value.
   */
  ghost predicate AxisBounds(v: seq<real>, stride: int, lo: real, hi: real, a: nat, upTo: int)
    requires a < 3
  {
    (forall i :: Sample(|v|, stride, i) && i < upTo ==> lo <= v[i + a] <= hi)
    && lo <= FltMax && hi >= -FltMax
    && (lo == FltMax || exists i :: Sample(|v|, stride, i) && i < upTo && v[i + a] == lo)
    && (hi == -FltMax || exists i :: Sample(|v|, stride, i) && i < upTo && v[i + a] == hi)
  }

  ghost predicate BoundsBelow(v: seq<real>, stride: int, b: Box, upTo: int) {
    AxisBounds(v, stride, b.min.x, b.max.x, 0, upTo)
    && AxisBounds(v, stride, b.min.y, b.max.y, 1, upTo)
    && AxisBounds(v, stride, b.min.z, b.max.z, 2, upTo)
  }

  /** b is the bounding box of all sampled positions, grown from the start box `BoxCollider()`. */
  ghost predicate BoundsOf(v: seq<real>, stride: int, b: Box) {
    BoundsBelow(v, stride, b, |v|)
  }

  /** Every sampled position lies in the box the bounds describe. */
  lemma BoundsEnclose(v: seq<real>, stride: int, b: Box, i: int)
    requires BoundsOf(v, stride, b) && Sample(|v|, stride, i)
    ensures InBox(Vec3(v[i], v[i + 1], v[i + 2]), b)
  {
  }

  /** One step of the loop: min and max with the position at i (`glm::min`, `glm::max`). */
  function Grow(b: Box, p: Vec3): Box {
    Box(Vec3(Min(b.min.x, p.x), Min(b.min.y, p.y), Min(b.min.z, p.z)),
        Vec3(Max(b.max.x, p.x), Max(b.max.y, p.y), Max(b.max.z, p.z)))
  }

  lemma MulAtLeast(d: int, s: int)
    requires d >= 1 && s > 0
    ensures d * s >= s
  {
    if d > 1 {
      MulAtLeast(d - 1, s);
      assert d * s == (d - 1) * s + s;
    }
  }

  /** The only multiple of the stride in [i, i + stride) is i. */
  lemma NextMultiple(stride: int, i: int, j: int)
    requires stride > 0 && i % stride == 0 && j % stride == 0 && i <= j < i + stride
    ensures j == i
  {
    var q, r := i / stride, j / stride;
    assert j - i == (r - q) * stride;
    if r - q >= 1 {
      MulAtLeast(r - q, stride);
    } else if r - q <= -1 {
      MulAtLeast(q - r, stride);
    }
  }

  /** The next position the loop visits is again a multiple of the stride. */
  lemma AddStride(stride: int, i: int)
    requires stride > 0 && i % stride == 0
    ensures (i + stride) % stride == 0
  {
    var q, qa, ra := i / stride, (i + stride) / stride, (i + stride) % stride;
    assert ra == (q + 1 - qa) * stride;
    if q + 1 - qa >= 1 {
      MulAtLeast(q + 1 - qa, stride);
    } else if q + 1 - qa <= -1 {
      MulAtLeast(qa - q - 1, stride);
    }
  }

  /** Taking min and max with sample i extends the bounds on one axis from below i to below i + stride. */
  lemma AxisStep(v: seq<real>, stride: int, lo: real, hi: real, a: nat, i: int)
    requires a < 3 && Sample(|v|, stride, i)
    requires AxisBounds(v, stride, lo, hi, a, i)
    ensures AxisBounds(v, stride, Min(lo, v[i + a]), Max(hi, v[i + a]), a, i + stride)
  {
    forall j | Sample(|v|, stride, j) && i <= j < i + stride
      ensures j == i
    {
      NextMultiple(stride, i, j);
    }
  }

  lemma GrowStep(v: seq<real>, stride: int, b: Box, i: int)
    requires Sample(|v|, stride, i) && BoundsBelow(v, stride, b, i)
    ensures BoundsBelow(v, stride, Grow(b, Vec3(v[i], v[i + 1], v[i + 2])), i + stride)
  {
    var g := Grow(b, Vec3(v[i], v[i + 1], v[i + 2]));
    AxisStep(v, stride, b.min.x, b.max.x, 0, i);
    AxisStep(v, stride, b.min.y, b.max.y, 1, i);
    AxisStep(v, stride, b.min.z, b.max.z, 2, i);
    assert g.min.x == Min(b.min.x, v[i + 0]) && g.max.x == Max(b.max.x, v[i + 0]);
    assert AxisBounds(v, stride, g.min.x, g.max.x, 0, i + stride);
    assert AxisBounds(v, stride, g.min.y, g.max.y, 1, i + stride);
    assert AxisBounds(v, stride, g.min.z, g.max.z, 2, i + stride);
  }

  /** When fewer than three floats remain at i, every sample lies below i. */
  lemma SamplesBelow(v: seq<real>, stride: int, b: Box, i: int)
    requires i + 2 >= |v| && BoundsBelow(v, stride, b, i)
    ensures BoundsOf(v, stride, b)
  {
    assert forall j :: Sample(|v|, stride, j) ==> j < i;
  }

  /**
   * `BoxCollider::CalculateFromVertices`, which overwrites both corners:
   * zero for a non-positive stride or an empty buffer, otherwise the
   * smallest box from the start box outward that holds every complete
   * position. The loop visits i = 0, stride, 2 * stride, ... while three
   * floats remain (see `AsWrittenReadsPastEnd` for the loop as written).
   */
  method CalculateFromVertices(vertices: seq<real>, stride: int) returns (b: Box)
    ensures stride <= 0 || |vertices| == 0 ==> b == Box(Zero3, Zero3)
    ensures stride > 0 && |vertices| > 0 ==> BoundsOf(vertices, stride, b)
  {
    if stride <= 0 || |vertices| == 0 {
      return Box(Zero3, Zero3);
    }
    b := EmptyBox;
    var i := 0;
    while i + 2 < |vertices|
      invariant 0 <= i && i % stride == 0
      invariant BoundsBelow(vertices, stride, b, i)
      decreases |vertices| - i
    {
      GrowStep(vertices, stride, b, i);
      b := Grow(b, Vec3(vertices[i], vertices[i + 1], vertices[i + 2]));
      AddStride(stride, i);
      i := i + stride;
    }
    SamplesBelow(vertices, stride, b, i);
  }

  /**
   * The loop as written, `for (i = 0; i < size; i += stride)`, visits every
   * multiple of the stride below the size and reads three floats at each.
   */
  predicate AsWrittenVisits(n: nat, stride: int, i: int) {
    stride > 0 && 0 <= i < n && i % stride == 0
  }

  /** Every read of the loop as written is inside a buffer of n floats. */
  ghost predicate AsWrittenInBounds(n: nat, stride: int) {
    forall i :: AsWrittenVisits(n, stride, i) ==> i + 2 < n
  }

  /**
   * A buffer whose length is not a whole number of vertices, here one
   * 3-float vertex and one stray float: the loop as written visits i = 3
   * and reads `vertices[4]` and `vertices[5]` of a 4-float buffer.
   */
  lemma AsWrittenReadsPastEnd()
    ensures AsWrittenVisits(4, 3, 3) && !(3 + 2 < 4)
    ensures !AsWrittenInBounds(4, 3)
  {
    assert AsWrittenVisits(4, 3, 3);
  }

  /** Where the loop as written stays in bounds, it visits exactly the samples of the corrected loop. */
  lemma CorrectedAgrees(n: nat, stride: int, i: int)
    requires AsWrittenInBounds(n, stride)
    ensures AsWrittenVisits(n, stride, i) <==> Sample(n, stride, i)
  {
  }

  // ----- The octree -----

  /** A `StaticMesh*` stored in the tree. */
  type ObjectId = nat

  /**
   * `OctreeNode`: `children` is empty while the eight pointers are null and
   * has eight entries once `Subdivide` has run.
   */
  datatype Node = Node(bounds: Box, children: seq<Node>, objects: seq<ObjectId>, isLeaf: bool)

  /** `new OctreeNode(b)`: a leaf without children or objects. */
  function NewNode(b: Box): Node {
    Node(b, [], [], true)
  }

  /** Leaves have no children and every inner node has eight, all the way down. */
  ghost predicate WellFormed(n: Node) {
    (if n.isLeaf then |n.children| == 0 else |n.children| == 8)
    && forall i :: 0 <= i < |n.children| ==> WellFormed(n.children[i])
  }

  /** `(bounds.min + bounds.max) * 0.5f`. */
  function Center(b: Box): Vec3 {
    Scale(0.5, Add(b.min, b.max))
  }

  /**
   * The bounds `Subdivide` gives child i: the centre splits each axis, and
   * child i takes the upper half along the axes listed for it in the
   * source's order: -, x, y, z, xy, xz, yz, xyz.
   */
  function Octant(b: Box, i: nat): Box
    requires i < 8
  {
    var c := Center(b);
    if i == 0 then Box(b.min, c)
    else if i == 1 then Box(Vec3(c.x, b.min.y, b.min.z), Vec3(b.max.x, c.y, c.z))
    else if i == 2 then Box(Vec3(b.min.x, c.y, b.min.z), Vec3(c.x, b.max.y, c.z))
    else if i == 3 then Box(Vec3(b.min.x, b.min.y, c.z), Vec3(c.x, c.y, b.max.z))
    else if i == 4 then Box(Vec3(c.x, c.y, b.min.z), Vec3(b.max.x, b.max.y, c.z))
    else if i == 5 then Box(Vec3(c.x, b.min.y, c.z), Vec3(b.max.x, c.y, b.max.z))
    else if i == 6 then Box(Vec3(b.min.x, c.y, c.z), Vec3(c.x, b.max.y, b.max.z))
    else Box(c, b.max)
  }

  /** `OctreeNode::Subdivide`: eight new leaves over the octants; the node keeps its objects and stops being a leaf. */
  function Subdivide(n: Node): Node {
    n.(children := seq(8, i requires 0 <= i < 8 => NewNode(Octant(n.bounds, i))), isLeaf := false)
  }

  /** The children `Subdivide` creates are empty leaves over the octants of the node's bounds. */
  lemma SubdivideShape(n: Node)
    ensures var r := Subdivide(n);
      !r.isLeaf && r.bounds == n.bounds && r.objects == n.objects && |r.children| == 8
      && forall i :: 0 <= i < 8 ==> r.children[i] == NewNode(Octant(n.bounds, i))
    ensures WellFormed(Subdivide(n))
  {
  }

  /** For a non-inverted box, every octant is non-inverted and contained in it, and the octants cover it. */
  lemma OctantsPartition(b: Box, p: Vec3)
    requires NonEmpty(b)
    ensures forall i :: 0 <= i < 8 ==> NonEmpty(Octant(b, i)) && Contains(b, Octant(b, i))
    ensures InBox(p, b) ==> exists i :: 0 <= i < 8 && InBox(p, Octant(b, i))
  {
    if InBox(p, b) {
      var c := Center(b);
      var hx, hy, hz := p.x >= c.x, p.y >= c.y, p.z >= c.z;
      var k := if !hx && !hy && !hz then 0 else if hx && !hy && !hz then 1
        else if !hx && hy && !hz then 2 else if !hx && !hy && hz then 3
        else if hx && hy && !hz then 4 else if hx && !hy && hz then 5
        else if !hx && hy && hz then 6 else 7;
      assert InBox(p, Octant(b, k));
    }
  }

  /** Child i is the one and only child of an eight-child node whose bounds contain the box. */
  ghost predicate Sole(node: Node, box: Box, i: int) {
    8 <= |node.children| && 0 <= i < 8 && Contains(node.children[i].bounds, box)
    && forall j :: 0 <= j < 8 && j != i ==> !Contains(node.children[j].bounds, box)
  }

  /**
   * `Octree::GetChildIndexForAABB`: the index of the only child containing
   * the box, and -1 when no child or more than one contains it or a child
   * pointer is null.
   */
  method GetChildIndexForAABB(node: Node, box: Box) returns (index: int)
    ensures -1 <= index < 8
    ensures index >= 0 ==> Sole(node, box, index)
    ensures index == -1 ==> forall i :: 0 <= i < 8 ==> !Sole(node, box, i)
  {
    index := -1;
    for i := 0 to 8
      invariant -1 <= index < i <= |node.children|
      invariant index == -1 ==> forall j :: 0 <= j < i ==> !Contains(node.children[j].bounds, box)
      invariant index >= 0 ==> Contains(node.children[index].bounds, box)
      invariant index >= 0 ==> forall j :: 0 <= j < i && j != index ==> !Contains(node.children[j].bounds, box)
    {
      if i >= |node.children| {
        return -1;
      }
      if Contains(node.children[i].bounds, box) {
        if index != -1 {
          return -1;
        }
        index := i;
      }
    }
  }

  /** The object is held by the node or by a node below it. */
  ghost predicate Stores(n: Node, o: ObjectId) {
    o in n.objects || exists i :: 0 <= i < |n.children| && Stores(n.children[i], o)
  }

  /** `objectAABBs.at(obj)`, read with the inverted box when the entry is missing (which `Insert` rules out). */
  function Lookup(aabbs: map<ObjectId, Box>, o: ObjectId): Box {
    if o in aabbs then aabbs[o] else EmptyBox
  }

  /**
   * `objects.size() > maxObjectsPerNode`: the signed bound is converted to
   * the 64-bit unsigned `size_t`, so a negative bound never splits a node.
   */
  predicate Overfull(count: nat, maxObjects: int) {
    count > maxObjects % 0x1_0000_0000_0000_0000
  }

  /** The node splits on insertion: overfull and above the depth limit. */
  predicate Splits(count: nat, depth: int, maxObjects: int, maxDepth: int) {
    Overfull(count, maxObjects) && depth < maxDepth
  }

  /** The levels a node may still be split by: each split happens strictly above `maxDepth`. */
  function Budget(depth: int, maxDepth: int): nat {
    if depth < maxDepth then maxDepth - depth else 0
  }

  /** Every object held below n, and every object in more, has a recorded box that is not inverted. */
  ghost predicate Recorded(n: Node, more: seq<ObjectId>, aabbs: map<ObjectId, Box>) {
    forall o :: (Stores(n, o) || o in more) ==> o in aabbs && NonEmpty(aabbs[o])
  }

  lemma StoresPush(n: Node, x: ObjectId, o: ObjectId)
    ensures Stores(n.(objects := n.objects + [x]), o) <==> Stores(n, o) || o == x
  {
    var m := n.(objects := n.objects + [x]);
    assert m.children == n.children;
    if Stores(n, o) && o !in n.objects {
      var i :| 0 <= i < |n.children| && Stores(n.children[i], o);
      assert Stores(m.children[i], o);
    }
  }

  lemma StoresReplace(n: Node, i: int, c: Node, o: ObjectId)
    requires 0 <= i < |n.children|
    ensures var m := n.(children := n.children[i := c]);
      Stores(m, o) <==> (o in n.objects || Stores(c, o)
        || exists j :: 0 <= j < |n.children| && j != i && Stores(n.children[j], o))
  {
    var m := n.(children := n.children[i := c]);
    if Stores(m, o) && o !in n.objects {
      var j :| 0 <= j < |m.children| && Stores(m.children[j], o);
      assert j == i || Stores(n.children[j], o);
    }
    if Stores(c, o) {
      assert Stores(m.children[i], o);
    }
    if exists j :: 0 <= j < |n.children| && j != i && Stores(n.children[j], o) {
      var j :| 0 <= j < |n.children| && j != i && Stores(n.children[j], o);
      assert Stores(m.children[j], o);
    }
  }

  /** Child i's objects are the node's. */
  lemma StoresChild(n: Node, i: int, o: ObjectId)
    requires 0 <= i < |n.children| && Stores(n.children[i], o)
    ensures Stores(n, o)
  {
  }

  /** A freshly subdivided node with its objects moved out holds nothing. */
  lemma SubdividedEmpty(n: Node, o: ObjectId)
    ensures !Stores(Subdivide(n).(objects := []), o)
  {
    var m := Subdivide(n).(objects := []);
    forall i | 0 <= i < |m.children|
      ensures !Stores(m.children[i], o)
    {
      assert m.children[i] == NewNode(Octant(n.bounds, i));
    }
  }

  /**
   * `Octree::InsertRecursive`, returning the updated node. An object whose
   * box misses the node is dropped; a leaf takes it and, once overfull above
   * the depth limit, subdivides and moves each of its objects into the only
   * child containing that object's box, or keeps it; an inner node passes it
   * to the only child containing its box, or keeps it.
   */
  method InsertRecursive(node: Node, item: ObjectId, box: Box, depth: int,
                         maxObjects: int, maxDepth: int, aabbs: map<ObjectId, Box>) returns (r: Node)
    decreases Budget(depth, maxDepth), 1, node
    ensures r.bounds == node.bounds
    ensures !Intersects(node.bounds, box) ==> r == node
    ensures Intersects(node.bounds, box) && node.isLeaf && !Splits(|node.objects| + 1, depth, maxObjects, maxDepth)
      ==> r == node.(objects := node.objects + [item])
    ensures node.isLeaf && !r.isLeaf ==> Intersects(node.bounds, box) && Splits(|node.objects| + 1, depth, maxObjects, maxDepth)
    ensures Intersects(node.bounds, box) && node.isLeaf && Splits(|node.objects| + 1, depth, maxObjects, maxDepth)
      ==> !r.isLeaf && |r.children| == 8 && forall i :: 0 <= i < 8 ==> r.children[i].bounds == Octant(node.bounds, i)
    ensures Intersects(node.bounds, box) && !node.isLeaf && (forall i :: 0 <= i < 8 ==> !Sole(node, box, i))
      ==> r == node.(objects := node.objects + [item])
    ensures forall i :: Intersects(node.bounds, box) && !node.isLeaf && Sole(node, box, i) ==>
      (r.objects == node.objects && !r.isLeaf && |r.children| == |node.children| && r.children[i].bounds == node.children[i].bounds
       && forall j :: 0 <= j < |node.children| && j != i ==> r.children[j] == node.children[j])
    ensures WellFormed(node) ==> WellFormed(r)
    ensures forall o :: Stores(r, o) ==> Stores(node, o) || o == item
    ensures Intersects(node.bounds, box) && WellFormed(node) && Lookup(aabbs, item) == box && Recorded(node, [item], aabbs)
      ==> forall o :: Stores(node, o) || o == item ==> Stores(r, o)
  {
    if !Intersects(node.bounds, box) {
      return node;
    }
    if node.isLeaf {
      var grown := node.(objects := node.objects + [item]);
      forall o ensures Stores(grown, o) <==> Stores(node, o) || o == item {
        StoresPush(node, item, o);
      }
      if Overfull(|grown.objects|, maxObjects) && depth < maxDepth {
        var sub := Subdivide(grown).(objects := []);
        forall o ensures !Stores(sub, o) {
          SubdividedEmpty(grown, o);
        }
        SubdivideShape(grown);
        assert WellFormed(sub);
        assert WellFormed(node) ==> forall o :: Stores(node, o) ==> o in grown.objects;
        r := Redistribute(sub, grown.objects, depth, maxObjects, maxDepth, aabbs);
      } else {
        assert grown.children == node.children;
        r := grown;
      }
    } else {
      var index := GetChildIndexForAABB(node, box);
      if index != -1 {
        var child := InsertRecursive(node.children[index], item, box, depth + 1, maxObjects, maxDepth, aabbs);
        r := node.(children := node.children[index := child]);
        InsertedChild(node, index, child, item, box, aabbs);
      } else {
        r := node.(objects := node.objects + [item]);
        forall o ensures Stores(r, o) <==> Stores(node, o) || o == item {
          StoresPush(node, item, o);
        }
      }
    }
  }

  /** Replacing child i, the only child containing the box, by the result of inserting into it. */
  lemma InsertedChild(node: Node, i: int, child: Node, item: ObjectId, box: Box, aabbs: map<ObjectId, Box>)
    requires Sole(node, box, i) && !node.isLeaf
    requires child.bounds == node.children[i].bounds
    requires WellFormed(node.children[i]) ==> WellFormed(child)
    requires forall o :: Stores(child, o) ==> Stores(node.children[i], o) || o == item
    requires Intersects(node.children[i].bounds, box) && WellFormed(node.children[i]) && Lookup(aabbs, item) == box
      && Recorded(node.children[i], [item], aabbs)
      ==> forall o :: Stores(node.children[i], o) || o == item ==> Stores(child, o)
    ensures var r := node.(children := node.children[i := child]);
      (WellFormed(node) ==> WellFormed(r))
      && (forall o :: Stores(r, o) ==> Stores(node, o) || o == item)
      && (WellFormed(node) && Lookup(aabbs, item) == box && Recorded(node, [item], aabbs)
          ==> forall o :: Stores(node, o) || o == item ==> Stores(r, o))
  {
    var r := node.(children := node.children[i := child]);
    forall o ensures Stores(r, o) <==> (o in node.objects || Stores(child, o)
        || exists j :: 0 <= j < |node.children| && j != i && Stores(node.children[j], o))
    {
      StoresReplace(node, i, child, o);
    }
    forall o | Stores(node.children[i], o)
      ensures Stores(node, o)
    {
      StoresChild(node, i, o);
    }
    if WellFormed(node) && Lookup(aabbs, item) == box && Recorded(node, [item], aabbs) {
      ContainsFacts(node.children[i].bounds, box, box);
      forall o | Stores(node, o) || o == item
        ensures Stores(r, o)
      {
        if o !in node.objects && o != item {
          var j :| 0 <= j < |node.children| && Stores(node.children[j], o);
        }
      }
    }
  }

  /**
   * The loop over `tempObjects` after a split: each object goes to the only
   * child containing its recorded box, or stays in the node.
   */
  method Redistribute(node: Node, temps: seq<ObjectId>, depth: int,
                      maxObjects: int, maxDepth: int, aabbs: map<ObjectId, Box>) returns (r: Node)
    requires depth < maxDepth && !node.isLeaf && |node.children| == 8
    decreases Budget(depth, maxDepth), 0, node
    ensures r.bounds == node.bounds && !r.isLeaf && |r.children| == 8
    ensures forall i :: 0 <= i < 8 ==> r.children[i].bounds == node.children[i].bounds
    ensures WellFormed(node) ==> WellFormed(r)
    ensures forall o :: Stores(r, o) ==> Stores(node, o) || o in temps
    ensures WellFormed(node) && Recorded(node, temps, aabbs) ==> forall o :: Stores(node, o) || o in temps ==> Stores(r, o)
  {
    r := node;
    for k := 0 to |temps|
      invariant r.bounds == node.bounds && !r.isLeaf && |r.children| == 8
      invariant forall i :: 0 <= i < 8 ==> r.children[i].bounds == node.children[i].bounds
      invariant WellFormed(node) ==> WellFormed(r)
      invariant forall o :: Stores(r, o) ==> Stores(node, o) || o in temps[..k]
      invariant WellFormed(node) && Recorded(node, temps, aabbs) ==> forall o :: Stores(node, o) || o in temps[..k] ==> Stores(r, o)
    {
      var obj := temps[k];
      assert temps[..k + 1] == temps[..k] + [obj];
      var objBox := Lookup(aabbs, obj);
      var index := GetChildIndexForAABB(r, objBox);
      if index != -1 {
        var child := InsertRecursive(r.children[index], obj, objBox, depth + 1, maxObjects, maxDepth, aabbs);
        InsertedChild(r, index, child, obj, objBox, aabbs);
        r := r.(children := r.children[index := child]);
      } else {
        forall o ensures Stores(r.(objects := r.objects + [obj]), o) <==> Stores(r, o) || o == obj {
          StoresPush(r, obj, o);
        }
        r := r.(objects := r.objects + [obj]);
      }
    }
    assert temps[..|temps|] == temps;
  }

  // ----- Queries -----

  /**
   * The ray reaches o through the tree: o is stored in a node whose bounds
   * the ray test `hit` accepts, below a chain of inner nodes it accepts too.
   * The ray-box slab test itself is the parameter `hit`.
   */
  ghost predicate Found(n: Node, hit: Box -> bool, o: ObjectId) {
    hit(n.bounds)
    && (o in n.objects || (!n.isLeaf && exists i :: 0 <= i < |n.children| && Found(n.children[i], hit, o)))
  }

  /** A query finds only objects the tree holds. */
  lemma {:induction false} FoundStored(n: Node, hit: Box -> bool, o: ObjectId)
    requires Found(n, hit, o)
    ensures Stores(n, o)
  {
    if o !in n.objects {
      var i :| 0 <= i < |n.children| && Found(n.children[i], hit, o);
      FoundStored(n.children[i], hit, o);
    }
  }

  /** An object held where every node on the way is hit by the ray is found. */
  lemma FoundAtChild(n: Node, hit: Box -> bool, i: int, o: ObjectId)
    requires hit(n.bounds) && !n.isLeaf && 0 <= i < |n.children| && Found(n.children[i], hit, o)
    ensures Found(n, hit, o)
  {
  }

  /**
   * `Octree::QueryRecursive`: stop at a node the ray misses; otherwise add
   * the node's objects and, for an inner node, visit each child.
   */
  method QueryRecursive(node: Node, hit: Box -> bool, hitSet: set<ObjectId>) returns (out: set<ObjectId>)
    decreases node
    ensures forall o :: o in out <==> o in hitSet || Found(node, hit, o)
  {
    out := hitSet;
    if !hit(node.bounds) {
      return;
    }
    for k := 0 to |node.objects|
      invariant forall o :: o in out <==> o in hitSet || o in node.objects[..k]
    {
      assert node.objects[..k + 1] == node.objects[..k] + [node.objects[k]];
      out := out + {node.objects[k]};
    }
    assert node.objects[..|node.objects|] == node.objects;
    if !node.isLeaf {
      for i := 0 to |node.children|
        invariant forall o :: o in out <==> (o in hitSet || o in node.objects
          || exists j :: 0 <= j < i && Found(node.children[j], hit, o))
      {
        out := QueryRecursive(node.children[i], hit, out);
      }
    }
  }

  /** Strictly increasing: sorted and without duplicates. */
  predicate Ascending(s: seq<ObjectId>) {
    forall i, j :: 0 <= i < j < |s| ==> s[i] < s[j]
  }

  /** The least element of a non-empty set of numbers. */
  ghost function Least(s: set<ObjectId>): (m: ObjectId)
    requires s != {}
    ensures m in s && forall x :: x in s ==> m <= x
  {
    var y :| y in s;
    if s == {y} then y
    else
      var m := Least(s - {y});
      assert forall x :: x in s ==> x == y || x in s - {y};
      if y < m then y else m
  }

  /** Every element of r is below every element of rest. */
  ghost predicate Below(r: seq<ObjectId>, rest: set<ObjectId>) {
    forall i, o :: 0 <= i < |r| && o in rest ==> r[i] < o
  }

  /** Moving the least element of rest to the end of r keeps r ascending and below rest. */
  lemma MoveLeast(r: seq<ObjectId>, rest: set<ObjectId>, m: ObjectId)
    requires Ascending(r) && Below(r, rest)
    requires m in rest && forall x :: x in rest ==> m <= x
    ensures Ascending(r + [m]) && Below(r + [m], rest - {m})
  {
  }

  /** `potentialHits.assign(hitSet.begin(), hitSet.end())`: the set's elements in the iteration order of `std::set`, ascending. */
  method SortedElements(s: set<ObjectId>) returns (r: seq<ObjectId>)
    ensures Ascending(r)
    ensures forall o :: o in r <==> o in s
  {
    r := [];
    var rest := s;
    while rest != {}
      invariant forall o :: o in s <==> o in r || o in rest
      invariant Ascending(r) && Below(r, rest)
      decreases |rest|
    {
      assert Least(rest) in rest;
      var m :| m in rest && forall x :: x in rest ==> m <= x;
      MoveLeast(r, rest, m);
      r := r + [m];
      rest := rest - {m};
    }
  }

  /**
   * `Octree`: the root node, the split limits and the box recorded for
   * every inserted object.
   */
  class Octree {
    var root: Node
    var maxObjectsPerNode: int
    var maxDepth: int
    var objectAABBs: map<ObjectId, Box>

    /** The tree is well formed. */
    ghost predicate Valid()
      reads this
    {
      WellFormed(root)
    }

    /** `Octree(rootBounds, maxObj = 8, maxD = 10)`. */
    constructor(rootBounds: Box, maxObj: int := 8, maxD: int := 10)
      ensures root == NewNode(rootBounds) && objectAABBs == map[]
      ensures maxObjectsPerNode == maxObj && maxDepth == maxD
      ensures Valid()
    {
      root := NewNode(rootBounds);
      maxObjectsPerNode := maxObj;
      maxDepth := maxD;
      objectAABBs := map[];
    }

    /** `Octree::Clear`: a fresh root over `BoxCollider()` and no recorded boxes. */
    method Clear()
      modifies this
      ensures root == NewNode(EmptyBox) && objectAABBs == map[]
      ensures maxObjectsPerNode == old(maxObjectsPerNode) && maxDepth == old(maxDepth)
      ensures Valid()
    {
      root := NewNode(EmptyBox);
      objectAABBs := map[];
    }

    /**
     * `Octree::Insert`: record the object's box, then insert it from the
     * root at depth 0. Nothing that was stored is lost, and the new object
     * is stored, when it touches the root and every recorded box is not
     * inverted; nothing but the object is added.
     */
    method Insert(obj: ObjectId, box: Box)
      requires Valid()
      modifies this
      ensures Valid()
      ensures objectAABBs == old(objectAABBs)[obj := box]
      ensures maxObjectsPerNode == old(maxObjectsPerNode) && maxDepth == old(maxDepth)
      ensures root.bounds == old(root).bounds
      ensures !Intersects(old(root).bounds, box) ==> root == old(root)
      ensures forall o :: Stores(root, o) ==> Stores(old(root), o) || o == obj
      ensures Intersects(old(root).bounds, box) && Recorded(old(root), [obj], objectAABBs)
        ==> forall o :: Stores(old(root), o) || o == obj ==> Stores(root, o)
    {
      objectAABBs := objectAABBs[obj := box];
      root := InsertRecursive(root, obj, box, 0, maxObjectsPerNode, maxDepth, objectAABBs);
    }

    /**
     * `Octree::Query`: the objects the ray reaches through the tree, each
     * once, in ascending order.
     */
    method Query(hit: Box -> bool) returns (potentialHits: seq<ObjectId>)
      ensures Ascending(potentialHits)
      ensures forall o :: o in potentialHits <==> Found(root, hit, o)
    {
      var hitSet := QueryRecursive(root, hit, {});
      potentialHits := SortedElements(hitSet);
    }
  }
}
