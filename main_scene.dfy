/**
 * The demo program's own scene helpers: the globals its callbacks update,
 * the 10 x 10 x 10 cube and the position-and-normal UV sphere it builds on
 * first use, and the mouse look. GL object creation is a value supplied by
 * the caller; the trigonometry of the camera's front vector is a function
 * supplied by the caller.
 */
module MainScene {
  import opened Wrappers
  import opened Grids
  import opened Vectors
  import opened UvSpheres
  import opened Textures

  // ---------------------------------------------------------------------
  // Geometry

  /** The 36 vertices (12 triangles: back, front, top, bottom, left, right) of `renderCube`'s array. */
  const CubeVertexArray: seq<real> := [
    -5.0, -5.0, -5.0,  5.0, -5.0, -5.0,  5.0, 5.0, -5.0,
    5.0, 5.0, -5.0, -5.0, 5.0, -5.0, -5.0, -5.0, -5.0,
    -5.0, -5.0, 5.0,  5.0, -5.0, 5.0,  5.0, 5.0, 5.0,
    5.0, 5.0, 5.0, -5.0, 5.0, 5.0, -5.0, -5.0, 5.0,
    -5.0, 5.0, -5.0, -5.0, 5.0, 5.0,  5.0, 5.0, 5.0,
    5.0, 5.0, 5.0,  5.0, 5.0, -5.0, -5.0, 5.0, -5.0,
    -5.0, -5.0, -5.0, -5.0, -5.0, 5.0,  5.0, -5.0, 5.0,
    5.0, -5.0, 5.0,  5.0, -5.0, -5.0, -5.0, -5.0, -5.0,
    -5.0, 5.0, 5.0, -5.0, 5.0, -5.0, -5.0, -5.0, -5.0,
    -5.0, -5.0, -5.0, -5.0, -5.0, 5.0, -5.0, 5.0, 5.0,
    5.0, -5.0, -5.0,  5.0, -5.0, 5.0,  5.0, 5.0, 5.0,
    5.0, 5.0, 5.0,  5.0, 5.0, -5.0,  5.0, -5.0, -5.0 ]

  /** The array holds 36 vertices of 3 floats, the count `glDrawArrays` draws. */
  lemma CubeArraySize()
    ensures |CubeVertexArray| == 36 * 3
  {
  }

  /** Position then normal of one vertex: 6 floats. */
  function PosNormFloats(p: Vec3, n: Vec3): (r: seq<real>)
    ensures |r| == 6
  {
    Components(p) + Components(n)
  }

  function PosNormCell(positions: seq<Vec3>, normals: seq<Vec3>): (nat, nat) -> seq<real> {
    (i: nat, c: nat) =>
      if i < |positions| && i < |normals| then PosNormFloats(positions[i], normals[i]) else []
  }

  /** The `data` vector of `renderSphere`: for each i < `positions.size()`, position i then normal i. */
  function PosNormData(positions: seq<Vec3>, normals: seq<Vec3>): seq<real> {
    Grid(|positions|, 1, PosNormCell(positions, normals))
  }

  /** The vertex buffer `renderSphere` uploads. */
  function SceneSphereData(dir: (nat, nat) -> Vec3): seq<real> {
    PosNormData(UvGrid(dir), UvGrid(dir))
  }

  /** The interleaving loop of `renderSphere`. */
  method InterleavePosNorm(positions: seq<Vec3>, normals: seq<Vec3>) returns (data: seq<real>)
    ensures data == PosNormData(positions, normals)
  {
    data := FillGrid(|positions|, 1, PosNormCell(positions, normals));
  }

  /**
   * The buffers `renderSphere` builds on its first call: 65 x 65 positions
   * and the same points as normals, the 64 x 64 x 6 indices, and the 6-float
   * interleave; `indexCount = indices.size()`.
   */
  method BuildSceneSphere(dir: (nat, nat) -> Vec3) returns (data: seq<real>, indices: seq<nat>, indexCount: UInt32)
    ensures data == SceneSphereData(dir)
    ensures indices == UvIndices()
    ensures indexCount == |indices| == 24576
  {
    var positions := BuildVertices(dir);
    var normals := BuildVertices(dir);
    indices := BuildIndices();
    UvIndexCount();
    indexCount := |indices|;
    data := InterleavePosNorm(positions, normals);
  }

  /** `renderSphere`'s build as the globals see it: the buffers go to GL, `indexCount` stays. */
  method UploadSceneSphere(dir: (nat, nat) -> Vec3) returns (indexCount: UInt32)
    ensures indexCount == 24576
  {
    var data, indices;
    data, indices, indexCount := BuildSceneSphere(dir);
  }

  lemma PosNormUniform(positions: seq<Vec3>, normals: seq<Vec3>)
    requires |normals| == |positions|
    ensures Uniform(|positions|, 1, PosNormCell(positions, normals), 6)
  {
    var f := PosNormCell(positions, normals);
    forall i: nat, c: nat | i < |positions| && c < 1 ensures |f(i, c)| == 6 {
      assert f(i, c) == PosNormFloats(positions[i], normals[i]);
    }
  }

  /** Vertex i is floats 6 i .. 6 i + 5: its position, then its normal. */
  lemma PosNormAt(positions: seq<Vec3>, normals: seq<Vec3>, i: nat)
    requires |normals| == |positions| && i < |positions|
    ensures |PosNormData(positions, normals)| == |positions| * 6
    ensures 6 * i + 6 <= |positions| * 6
    ensures PosNormData(positions, normals)[6 * i..6 * i + 6] == PosNormFloats(positions[i], normals[i])
  {
    var f := PosNormCell(positions, normals);
    PosNormUniform(positions, normals);
    ColumnAt(|positions|, f, 6, i);
    assert f(i, 0) == PosNormFloats(positions[i], normals[i]);
  }

  /**
   * Vertex (y, x) of the scene sphere is floats 6 (65 y + x) onwards: its
   * point on the sphere twice, as position and as normal; the buffer holds
   * 65 * 65 vertices.
   */
  lemma SceneSphereVertexAt(dir: (nat, nat) -> Vec3, y: nat, x: nat)
    requires y < Side && x < Side
    ensures |SceneSphereData(dir)| == Side * Side * 6
    ensures var i := y * Side + x;
      6 * i + 6 <= |SceneSphereData(dir)| &&
      SceneSphereData(dir)[6 * i..6 * i + 6] == PosNormFloats(dir(y, x), dir(y, x))
  {
    UvGridAt(dir, y, x);
    PosNormAt(UvGrid(dir), UvGrid(dir), y * Side + x);
  }

  // ---------------------------------------------------------------------
  // Globals

  /** `SCR_WIDTH` and `SCR_HEIGHT`. */
  const ScreenWidth: real := 1280.0
  const ScreenHeight: real := 720.0

  /** `sensitivity` of `mouse_callback`. */
  const MouseSensitivity: real := 0.1

  /** The globals of the demo that its render helpers and its mouse callback change. */
  class Scene {
    var cubeVAO: UInt32
    var cubeVBO: UInt32
    var sphereVAO: UInt32
    var sphereVBO: UInt32
    var sphereEBO: UInt32
    var indexCount: UInt32

    var yaw: real
    var pitch: real
    var lastX: real
    var lastY: real
    var firstMouse: bool
    var cameraFront: Vec3

    /** The initialisers of the globals; the uninitialised `indexCount` is zero as every static. */
    constructor ()
      ensures cubeVAO == 0 && cubeVBO == 0 && sphereVAO == 0 && sphereVBO == 0 && sphereEBO == 0 && indexCount == 0
      ensures yaw == -90.0 && pitch == 0.0 && lastX == 640.0 && lastY == 360.0 && firstMouse
      ensures cameraFront == Vec3(0.0, 0.0, -1.0)
    {
      cubeVAO, cubeVBO := 0, 0;
      sphereVAO, sphereVBO, sphereEBO := 0, 0, 0;
      indexCount := 0;
      yaw, pitch := -90.0, 0.0;
      lastX, lastY := ScreenWidth / 2.0, ScreenHeight / 2.0;
      firstMouse := true;
      cameraFront := Vec3(0.0, 0.0, -1.0);
    }

    /**
     * `renderCube`: while `cubeVAO` is 0 the cube's array is uploaded to
     * fresh objects `vao` and `vbo`; every call draws 36 vertices.
     */
    method RenderCube(vao: UInt32, vbo: UInt32) returns (uploaded: Option<seq<real>>, drawn: nat)
      modifies this
      ensures uploaded == (if old(cubeVAO) == 0 then Some(CubeVertexArray) else None)
      ensures old(cubeVAO) == 0 ==> cubeVAO == vao && cubeVBO == vbo
      ensures old(cubeVAO) != 0 ==> cubeVAO == old(cubeVAO) && cubeVBO == old(cubeVBO)
      ensures drawn == 36
      ensures sphereVAO == old(sphereVAO) && sphereVBO == old(sphereVBO) && sphereEBO == old(sphereEBO)
      ensures indexCount == old(indexCount)
      ensures yaw == old(yaw) && pitch == old(pitch) && lastX == old(lastX) && lastY == old(lastY)
      ensures firstMouse == old(firstMouse) && cameraFront == old(cameraFront)
    {
      uploaded := None;
      if cubeVAO == 0 {
        uploaded := Some(CubeVertexArray);
        cubeVAO, cubeVBO := vao, vbo;
      }
      drawn := 36;
    }

    /**
     * `renderSphere`: while `sphereVAO` is 0 the sphere is built and uploaded
     * to fresh objects, setting `indexCount` to 24576; every call draws
     * `indexCount` indices.
     */
    method RenderSphere(dir: (nat, nat) -> Vec3, vao: UInt32, vbo: UInt32, ebo: UInt32) returns (drawn: nat)
      modifies this
      ensures old(sphereVAO) == 0 ==> sphereVAO == vao && sphereVBO == vbo && sphereEBO == ebo && indexCount == 24576
      ensures old(sphereVAO) != 0 ==>
        sphereVAO == old(sphereVAO) && sphereVBO == old(sphereVBO) && sphereEBO == old(sphereEBO) &&
        indexCount == old(indexCount)
      ensures drawn == indexCount
      ensures cubeVAO == old(cubeVAO) && cubeVBO == old(cubeVBO)
      ensures yaw == old(yaw) && pitch == old(pitch) && lastX == old(lastX) && lastY == old(lastY)
      ensures firstMouse == old(firstMouse) && cameraFront == old(cameraFront)
    {
      if sphereVAO == 0 {
        var count := UploadSceneSphere(dir);
        indexCount := count;
        sphereVAO, sphereVBO, sphereEBO := vao, vbo, ebo;
      }
      drawn := indexCount;
    }

    /**
     * `mouse_callback`: the first event only records the cursor; every event
     * turns the camera by a tenth of the cursor's offset since the last
     * event (the y offset inverted), the pitch is kept in [-89, 89] and the
     * camera looks along `front(yaw, pitch)`.
     */
    method MouseCallback(xpos: real, ypos: real, front: (real, real) -> Vec3)
      modifies this
      ensures !firstMouse && lastX == xpos && lastY == ypos
      ensures var xoffset := if old(firstMouse) then 0.0 else xpos - old(lastX);
              var yoffset := if old(firstMouse) then 0.0 else old(lastY) - ypos;
        yaw == old(yaw) + xoffset * MouseSensitivity &&
        pitch == Clamp(old(pitch) + yoffset * MouseSensitivity, -89.0, 89.0)
      ensures -89.0 <= pitch <= 89.0
      ensures cameraFront == front(yaw, pitch)
      ensures cubeVAO == old(cubeVAO) && cubeVBO == old(cubeVBO) && indexCount == old(indexCount)
      ensures sphereVAO == old(sphereVAO) && sphereVBO == old(sphereVBO) && sphereEBO == old(sphereEBO)
    {
      if firstMouse {
        lastX := xpos;
        lastY := ypos;
        firstMouse := false;
      }
      var xoffset := xpos - lastX;
      var yoffset := lastY - ypos;
      lastX := xpos;
      lastY := ypos;
      xoffset := xoffset * MouseSensitivity;
      yoffset := yoffset * MouseSensitivity;
      yaw := yaw + xoffset;
      pitch := pitch + yoffset;
      if pitch > 89.0 {
        pitch := 89.0;
      }
      if pitch < -89.0 {
        pitch := -89.0;
      }
      cameraFront := front(yaw, pitch);
    }
  }
}
