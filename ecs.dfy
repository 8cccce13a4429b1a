/**
 * The entity store of src/samples/ecs.h: an `EntityManager` keeping one
 * vector per component, all indexed by entity id, the setup loop of its
 * `main` that creates 100 entities, and the per-instance lists its
 * `RenderSystem` builds. Values of `rand() / RAND_MAX` are supplied by the
 * caller, the k-th call's value as `rnd(k)`.
 */
module EcsDemo {
  import opened Wrappers

  datatype Position = Position(x: real, y: real, z: real)
  datatype Rotation = Rotation(angle: real, axisX: real, axisY: real, axisZ: real)
  datatype Velocity = Velocity(dx: real, dy: real, dz: real)
  datatype Render = Render(vaoID: UInt32)
  datatype Color = Color(r: real, g: real, b: real, a: real)
  datatype MovementType = MovementType(kind: int, speed: real)

  /** A `glm::mat4`, sixteen floats in column order. */
  type Matrix = seq<real>

  /** `glm::mat4(1.0f)`: ones on the diagonal (entries 0, 5, 10, 15). */
  function Identity(): Matrix {
    seq(16, k => if k % 5 == 0 then 1.0 else 0.0)
  }

  /** `glm::vec4`. */
  datatype Vec4 = Vec4(x: real, y: real, z: real, w: real)

  /** 2^32: `EntityID` is `unsigned int`, so `nextID++` wraps. */
  const IdRange: nat := 0x1_0000_0000

  /** The value-initialised components `emplace_back()` appends: zeros, colour alpha 1, identity matrix. */
  const NoPosition: Position := Position(0.0, 0.0, 0.0)
  const NoRotation: Rotation := Rotation(0.0, 0.0, 0.0, 0.0)
  const NoVelocity: Velocity := Velocity(0.0, 0.0, 0.0)
  const NoRender: Render := Render(0)
  const NoColor: Color := Color(0.0, 0.0, 0.0, 1.0)
  const NoMovement: MovementType := MovementType(0, 0.0)

  /** Counting on from a wrapped value wraps like counting on from the count. */
  lemma WrapSucc(n: nat)
    ensures (n % IdRange + 1) % IdRange == (n + 1) % IdRange
  {
    var q, r := n / IdRange, n % IdRange;
    assert n == q * IdRange + r;
    if r + 1 == IdRange {
      assert n + 1 == (q + 1) * IdRange;
    } else {
      assert n + 1 == q * IdRange + (r + 1);
    }
  }

  class EntityManager {
    var positions: seq<Position>
    var rotations: seq<Rotation>
    var velocities: seq<Velocity>
    var renders: seq<Render>
    var worldMatrices: seq<Matrix>
    var colors: seq<Color>
    var movementTypes: seq<MovementType>
    var entities: seq<UInt32>
    var nextID: UInt32

    /**
     * The vectors grow together: all have one entry per created entity,
     * entity i has id i (modulo 2^32), and `nextID` is the count issued.
     */
    ghost predicate Valid()
      reads this
    {
      var n := |entities|;
      |positions| == n && |rotations| == n && |velocities| == n && |renders| == n
      && |worldMatrices| == n && |colors| == n && |movementTypes| == n
      && nextID == n % IdRange
      && forall i :: 0 <= i < n ==> entities[i] == i % IdRange
    }

    constructor ()
      ensures Valid() && entities == [] && nextID == 0
    {
      positions, rotations, velocities, renders := [], [], [], [];
      worldMatrices, colors, movementTypes := [], [], [];
      entities := [];
      nextID := 0;
    }

    /**
     * `createEntity`: hands out `nextID`, bumps it (wrapping at 2^32) and
     * appends the id and one default component to every vector.
     */
    method CreateEntity() returns (id: UInt32)
      requires Valid()
      modifies this
      ensures Valid()
      ensures id == old(nextID) && entities == old(entities) + [id]
      ensures nextID == (old(nextID) + 1) % IdRange
      ensures positions == old(positions) + [NoPosition] && rotations == old(rotations) + [NoRotation]
      ensures velocities == old(velocities) + [NoVelocity] && renders == old(renders) + [NoRender]
      ensures worldMatrices == old(worldMatrices) + [Identity()] && colors == old(colors) + [NoColor]
      ensures movementTypes == old(movementTypes) + [NoMovement]
    {
      id := nextID;
      nextID := (nextID + 1) % IdRange;
      entities := entities + [id];
      positions := positions + [NoPosition];
      rotations := rotations + [NoRotation];
      velocities := velocities + [NoVelocity];
      renders := renders + [NoRender];
      worldMatrices := worldMatrices + [Identity()];
      colors := colors + [NoColor];
      movementTypes := movementTypes + [NoMovement];
      WrapSucc(|old(entities)|);
    }

    /** With at most 2^32 entities, ids never repeat. */
    lemma IdsDistinct()
      requires Valid() && |entities| <= IdRange
      ensures forall i, j :: 0 <= i < j < |entities| ==> entities[i] != entities[j]
    {
    }

    /** `destroyEntity` only reports the id: no state changes, hence no modifies clause. */
    method DestroyEntity(id: UInt32)
      ensures unchanged(this)
    {
    }
  }

  /** `totalEntities` of `main`. */
  const TotalEntities: nat := 100

  /** How many `rand()` calls precede entity i's: three colour values each, plus one speed from entity 50 on. */
  function RandBefore(i: nat): nat {
    if i <= 50 then 3 * i else 150 + 4 * (i - 50)
  }

  /** The components `main` gives entity i (before the first `TransformSystem` update). */
  function SetupPosition(i: nat): Position {
    if i < 50 then Position(0.0, (i % 10) as real * 1.5 - 7.5, 0.0)
    else Position(((i - 50) / 10) as real * 1.5 + 15.0, 0.0, ((i - 50) % 10) as real * 1.5 - 7.5)
  }

  function SetupMovement(i: nat, rnd: nat -> real): MovementType {
    if i < 50 then MovementType(1, 1.0) else MovementType(2, 2.0 + rnd(RandBefore(i)) * 1.0)
  }

  function SetupColor(i: nat, rnd: nat -> real): Color {
    var k := if i < 50 then RandBefore(i) else RandBefore(i) + 1;
    Color(rnd(k), rnd(k + 1), rnd(k + 2), 1.0)
  }

  /**
   * The first 50 entities circle (type 1, speed 1) and the rest move on a
   * sine (type 2); with `rand() / RAND_MAX` in [0, 1] a type-2 speed lies in
   * [2, 3] and every colour channel in [0, 1], alpha being 1.
   */
  lemma SetupRanges(i: nat, rnd: nat -> real)
    requires forall k :: 0.0 <= rnd(k) <= 1.0
    ensures SetupMovement(i, rnd).kind == 1 <==> i < 50
    ensures i < 50 ==> SetupMovement(i, rnd).speed == 1.0
    ensures i >= 50 ==> 2.0 <= SetupMovement(i, rnd).speed <= 3.0
    ensures var c := SetupColor(i, rnd); 0.0 <= c.r <= 1.0 && 0.0 <= c.g <= 1.0 && 0.0 <= c.b <= 1.0 && c.a == 1.0
  {
  }

  /** Each entity draws its own `rand()` values: the calls of entity i come after all of entity i-1's. */
  lemma RandCallsDisjoint(i: nat, j: nat)
    requires i < j
    ensures RandBefore(i) + (if i < 50 then 3 else 4) <= RandBefore(j)
  {
  }

  /** Rotation about X at angle 0. */
  const SetupRotation: Rotation := Rotation(0.0, 1.0, 0.0, 0.0)

  /** Entity j carries the components `main` gives it. */
  predicate SetUp(positions: seq<Position>, movementTypes: seq<MovementType>, colors: seq<Color>,
                  rotations: seq<Rotation>, j: nat, rnd: nat -> real)
  {
    j < |positions| && j < |movementTypes| && j < |colors| && j < |rotations|
    && positions[j] == SetupPosition(j) && movementTypes[j] == SetupMovement(j, rnd)
    && colors[j] == SetupColor(j, rnd) && rotations[j] == SetupRotation
  }

  /**
   * The body of the entity loop of `main` once `createEntity` has returned
   * `id == i` with default components: give entity i its movement,
   * position, colour and rotation, consuming `rand()` values from `calls` on.
   */
  method SetUpEntity(em: EntityManager, id: UInt32, i: nat, calls: nat, rnd: nat -> real) returns (next: nat)
    requires id == i && |em.positions| == |em.movementTypes| == |em.colors| == |em.rotations| == i + 1
    requires em.colors[i] == NoColor && em.rotations[i] == NoRotation
    requires i < TotalEntities && calls == RandBefore(i)
    modifies em
    ensures next == RandBefore(i + 1)
    ensures em.positions == old(em.positions[..i]) + [SetupPosition(i)]
    ensures em.movementTypes == old(em.movementTypes[..i]) + [SetupMovement(i, rnd)]
    ensures em.colors == old(em.colors[..i]) + [SetupColor(i, rnd)]
    ensures em.rotations == old(em.rotations[..i]) + [SetupRotation]
    ensures em.entities == old(em.entities) && em.nextID == old(em.nextID) && em.velocities == old(em.velocities)
    ensures em.renders == old(em.renders) && em.worldMatrices == old(em.worldMatrices)
  {
    next := calls;
    var mt, pos;
    if i < 50 {
      mt := em.movementTypes[id].(kind := 1, speed := 1.0);
      pos := Position(0.0, (i % 10) as real * 1.5 - 7.5, 0.0);
    } else {
      var speed := 2.0 + rnd(next) * 1.0;
      next := next + 1;
      mt := em.movementTypes[id].(kind := 2, speed := speed);
      pos := Position(((i - 50) / 10) as real * 1.5 + 15.0, 0.0, ((i - 50) % 10) as real * 1.5 - 7.5);
    }
    em.movementTypes := em.movementTypes[id := mt];
    em.positions := em.positions[id := pos];
    em.colors := em.colors[id := em.colors[id].(r := rnd(next), g := rnd(next + 1), b := rnd(next + 2))];
    next := next + 3;
    em.rotations := em.rotations[id := em.rotations[id].(angle := 0.0, axisX := 1.0)];
  }

  /**
   * The entity loop of `main` on a fresh manager: 100 entities with ids
   * 0..99; the first 50 circle (type 1) stacked in ten layers, the other 50
   * move on a sine (type 2) on a 5 x 10 grid; all rotate about X from 0.
   */
  method SetupEntities(em: EntityManager, rnd: nat -> real)
    requires em.Valid() && em.entities == [] && em.nextID == 0
    modifies em
    ensures em.Valid() && |em.entities| == TotalEntities
    ensures forall i :: 0 <= i < TotalEntities ==> em.entities[i] == i
    ensures forall i :: 0 <= i < TotalEntities ==> SetUp(em.positions, em.movementTypes, em.colors, em.rotations, i, rnd)
  {
    var calls := 0;
    for i := 0 to TotalEntities
      invariant em.Valid() && |em.entities| == i && em.nextID == i && calls == RandBefore(i)
      invariant forall j :: 0 <= j < i ==> em.entities[j] == j
      invariant forall j :: 0 <= j < i ==> SetUp(em.positions, em.movementTypes, em.colors, em.rotations, j, rnd)
    {
      ghost var (pos0, mts0, cols0, rots0) := (em.positions, em.movementTypes, em.colors, em.rotations);
      var id := em.CreateEntity();
      calls := SetUpEntity(em, id, i, calls, rnd);
      SetUpExtends(pos0, mts0, cols0, rots0, em.positions, em.movementTypes, em.colors, em.rotations, i, rnd);
    }
  }

  /** Appending entity i's components keeps the earlier entities set up and sets up entity i. */
  lemma SetUpExtends(pos0: seq<Position>, mts0: seq<MovementType>, cols0: seq<Color>, rots0: seq<Rotation>,
                     pos: seq<Position>, mts: seq<MovementType>, cols: seq<Color>, rots: seq<Rotation>,
                     i: nat, rnd: nat -> real)
    requires forall j :: 0 <= j < i ==> SetUp(pos0, mts0, cols0, rots0, j, rnd)
    requires |pos0| == |mts0| == |cols0| == |rots0| == i
    requires pos == pos0 + [SetupPosition(i)] && mts == mts0 + [SetupMovement(i, rnd)]
    requires cols == cols0 + [SetupColor(i, rnd)] && rots == rots0 + [SetupRotation]
    ensures forall j :: 0 <= j <= i ==> SetUp(pos, mts, cols, rots, j, rnd)
  {
    forall j | 0 <= j < i
      ensures SetUp(pos, mts, cols, rots, j, rnd)
    {
      assert SetUp(pos0, mts0, cols0, rots0, j, rnd);
      assert pos[j] == pos0[j] && mts[j] == mts0[j] && cols[j] == cols0[j] && rots[j] == rots0[j];
    }
  }

  /**
   * The instance lists of `RenderSystem::update`: nothing is drawn without
   * entities; otherwise one model matrix per `worldMatrices` entry and one
   * colour per `colors` entry, in order.
   */
  method InstanceData(em: EntityManager) returns (data: Option<(seq<Matrix>, seq<Vec4>)>)
    ensures em.entities == [] <==> data == None
    ensures data.Some? ==> |data.value.0| == |em.worldMatrices| && |data.value.1| == |em.colors|
    ensures data.Some? ==> forall i :: 0 <= i < |em.worldMatrices| ==> data.value.0[i] == em.worldMatrices[i]
    ensures data.Some? ==> forall i :: 0 <= i < |em.colors| ==>
      data.value.1[i] == Vec4(em.colors[i].r, em.colors[i].g, em.colors[i].b, em.colors[i].a)
  {
    if |em.entities| == 0 {
      return None;
    }
    var modelMatrices: seq<Matrix> := [];
    for i := 0 to |em.worldMatrices|
      invariant modelMatrices == em.worldMatrices[..i]
    {
      modelMatrices := modelMatrices + [em.worldMatrices[i]];
    }
    var colors: seq<Vec4> := [];
    for i := 0 to |em.colors|
      invariant |colors| == i
      invariant forall j :: 0 <= j < i ==> colors[j] == Vec4(em.colors[j].r, em.colors[j].g, em.colors[j].b, em.colors[j].a)
    {
      var c := em.colors[i];
      colors := colors + [Vec4(c.r, c.g, c.b, c.a)];
    }
    return Some((modelMatrices, colors));
  }
}
