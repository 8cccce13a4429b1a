/**
 * `PerformRaycast` (src/glbox/physics/Physics.h): ask the octree for the
 * objects the ray may reach, then test each one's world-space box and keep
 * the nearest hit in the caller's `RaycastHit`.
 *
 * Two tests are parameters: `nodeHit(box)` is the ray-box slab test the
 * octree query runs on node bounds, and `worldHit(mesh, matrix)` is the
 * same test on `mesh->localAABB.GetTransformed(matrix)`, giving the hit
 * distance `t` when it reports a hit.
 */
module Physics {
  import opened Wrappers
  import opened Vectors
  import opened Raycasts

  /** A `glm::mat4`, its sixteen floats in column order. */
  type Matrix = seq<real>

  /** `Ray`: its origin and (already normalised) direction. */
  datatype Ray = Ray(origin: Vec3, direction: Vec3)

  /** The four fields of a `RaycastHit`; `object` is None for `nullptr`. */
  datatype HitRecord = HitRecord(hit: bool, distance: real, point: Vec3, obj: Option<ObjectId>)

  /** `RaycastHit`, filled in by `PerformRaycast` through a reference. */
  class RaycastHit {
    var hit: bool
    var distance: real
    var point: Vec3
    var obj: Option<ObjectId>

    /** The default member initialisers: no hit at `FLT_MAX`, no object. */
    constructor(point: Vec3)
      ensures hit == false && distance == FltMax && obj == None && this.point == point
    {
      hit := false;
      distance := FltMax;
      this.point := point;
      obj := None;
    }

    function Record(): HitRecord
      reads this
    {
      HitRecord(hit, distance, point, obj)
    }
  }

  /** The hit distance of a candidate: none without a model matrix (the candidate is skipped), else the box test's. */
  function HitDistance(o: ObjectId, matrices: map<ObjectId, Matrix>,
                       worldHit: (ObjectId, Matrix) -> Option<real>): Option<real>
  {
    if o in matrices then worldHit(o, matrices[o]) else None
  }

  /** The reset of lines 12-14; `point` keeps what it held. */
  function Reset(point: Vec3): HitRecord {
    HitRecord(false, FltMax, point, None)
  }

  /**
   * The record after the first k candidates: a candidate hit at `t` replaces
   * the record when `t < distance`.
   */
  function Nearest(ray: Ray, cands: seq<ObjectId>, k: nat, matrices: map<ObjectId, Matrix>,
                   worldHit: (ObjectId, Matrix) -> Option<real>, start: HitRecord): (r: HitRecord)
    requires k <= |cands|
    ensures r.distance <= start.distance
    ensures r == start || (r.hit && r.obj.Some? && r.obj.value in cands[..k])
  {
    if k == 0 then start
    else
      var prev := Nearest(ray, cands, k - 1, matrices, worldHit, start);
      var d := HitDistance(cands[k - 1], matrices, worldHit);
      if d.Some? && d.value < prev.distance then
        HitRecord(true, d.value, Add(ray.origin, Scale(d.value, ray.direction)), Some(cands[k - 1]))
      else prev
  }

  /** Candidate j is hit at a distance below `FLT_MAX`, so it can be recorded. */
  ghost predicate Recordable(cands: seq<ObjectId>, j: int, matrices: map<ObjectId, Matrix>,
                             worldHit: (ObjectId, Matrix) -> Option<real>)
  {
    0 <= j < |cands| && HitDistance(cands[j], matrices, worldHit).Some?
    && HitDistance(cands[j], matrices, worldHit).value < FltMax
  }

  /**
   * After the first k candidates from the reset record: no candidate is
   * hit nearer than the recorded distance; there is a hit exactly when some
   * candidate is recordable; and then the record names the FIRST candidate
   * hit at that distance, with the point `origin + direction * t`.
   * Otherwise the record is still the reset one.
   */
  lemma {:induction false} NearestFacts(ray: Ray, cands: seq<ObjectId>, k: nat, matrices: map<ObjectId, Matrix>,
                                        worldHit: (ObjectId, Matrix) -> Option<real>, point: Vec3)
    requires k <= |cands|
    ensures var r := Nearest(ray, cands, k, matrices, worldHit, Reset(point));
      (forall j :: 0 <= j < k && HitDistance(cands[j], matrices, worldHit).Some?
         ==> r.distance <= HitDistance(cands[j], matrices, worldHit).value)
      && (r.hit <==> exists j :: 0 <= j < k && Recordable(cands, j, matrices, worldHit))
      && (!r.hit ==> r == Reset(point))
      && (r.hit ==> exists j :: (0 <= j < k && Recordable(cands, j, matrices, worldHit)
            && HitDistance(cands[j], matrices, worldHit).value == r.distance
            && r.obj == Some(cands[j])
            && r.point == Add(ray.origin, Scale(r.distance, ray.direction))
            && forall i :: 0 <= i < j ==> (!Recordable(cands, i, matrices, worldHit)
                 || HitDistance(cands[i], matrices, worldHit).value > r.distance)))
  {
    if k > 0 {
      NearestFacts(ray, cands, k - 1, matrices, worldHit, point);
      var prev := Nearest(ray, cands, k - 1, matrices, worldHit, Reset(point));
      var d := HitDistance(cands[k - 1], matrices, worldHit);
      if d.Some? && d.value < prev.distance {
        assert Recordable(cands, k - 1, matrices, worldHit);
      }
    }
  }

  /**
   * `PerformRaycast`: reset the record, query the octree (`candidates` are
   * the query's result), return false at once when there are none, else
   * scan them in order keeping the nearest hit. Returns `outHit.hit`.
   */
  method PerformRaycast(ray: Ray, sceneOctree: Octree, matrices: map<ObjectId, Matrix>,
                        nodeHit: Box -> bool, worldHit: (ObjectId, Matrix) -> Option<real>,
                        outHit: RaycastHit) returns (result: bool, ghost candidates: seq<ObjectId>)
    modifies outHit
    ensures Ascending(candidates) && forall o :: o in candidates <==> Found(sceneOctree.root, nodeHit, o)
    ensures outHit.Record() == Nearest(ray, candidates, |candidates|, matrices, worldHit, Reset(old(outHit.point)))
    ensures result == outHit.hit
  {
    outHit.hit := false;
    outHit.distance := FltMax;
    outHit.obj := None;
    var potentialHits := sceneOctree.Query(nodeHit);
    candidates := potentialHits;
    if |potentialHits| == 0 {
      return false, candidates;
    }
    for k := 0 to |potentialHits|
      invariant outHit.Record() == Nearest(ray, potentialHits, k, matrices, worldHit, Reset(old(outHit.point)))
    {
      var mesh := potentialHits[k];
      if mesh !in matrices {
        continue;
      }
      var t := worldHit(mesh, matrices[mesh]);
      if t.Some? {
        if t.value < outHit.distance {
          outHit.hit := true;
          outHit.distance := t.value;
          outHit.point := Add(ray.origin, Scale(t.value, ray.direction));
          outHit.obj := Some(mesh);
        }
      }
    }
    result := outHit.hit;
  }
}
