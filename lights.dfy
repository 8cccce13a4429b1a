/**
 * The lights sample: `pushFace` and `makeCube` build a 24-vertex cube with
 * per-face normals; `key_cb` and `mouse_cb` update the pause, wireframe and
 * camera globals; `loadTextureSRGB` picks the upload formats from the
 * channel count. The cube's corner table and face order are those of the
 * textured-cube sample (`Cubes.Corners`, `Cubes.FaceCornerIds`), with the
 * normals of `Cubes.FaceNormals`.
 */
module Lights {
  import opened Grids
  import opened Vectors
  import opened Faces
  import opened Cubes
  import opened Textures

  // ---------------------------------------------------------------------
  // Cube with normals

  /** The sample's vertex: position, texture coordinate and normal. */
  datatype LitVertex = LitVertex(pos: Vec3, uv: Vec2, nrm: Vec3)

  /** The four vertices `pushFace(a, b, c, d, n)` appends: UVs (0,0), (1,0), (1,1), (0,1), all with normal n. */
  function LitBlock(a: Vec3, b: Vec3, c: Vec3, d: Vec3, n: Vec3): (vs: seq<LitVertex>)
    ensures |vs| == 4
  {
    [LitVertex(a, FaceUVs[0], n), LitVertex(b, FaceUVs[1], n),
     LitVertex(c, FaceUVs[2], n), LitVertex(d, FaceUVs[3], n)]
  }

  /**
   * `pushFace`: four vertices carrying the normal n, then the two triangles
   * base + {0, 1, 2} and base + {0, 2, 3} with base the old vertex count.
   */
  method PushFace(v: seq<LitVertex>, id: seq<nat>, a: Vec3, b: Vec3, c: Vec3, d: Vec3, n: Vec3)
    returns (v': seq<LitVertex>, id': seq<nat>)
    ensures v' == v + LitBlock(a, b, c, d, n)
    ensures id' == id + QuadFan(|v|)
  {
    var base := |v|;
    v' := v + [LitVertex(a, Vec2(0.0, 0.0), n)];
    v' := v' + [LitVertex(b, Vec2(1.0, 0.0), n)];
    v' := v' + [LitVertex(c, Vec2(1.0, 1.0), n)];
    v' := v' + [LitVertex(d, Vec2(0.0, 1.0), n)];
    id' := id + [base + 0, base + 1, base + 2, base + 0, base + 2, base + 3];
  }

  /** Corner j of face k: `p[...]` of the k-th `pushFace` call. */
  function FaceCorner(k: nat, j: nat): Vec3
    requires k < 6 && j < 4
  {
    Corners[FaceCornerIds[k][j]]
  }

  /** The normal of the k-th `pushFace` call. */
  function FaceNormal(k: nat): Vec3
    requires k < 6
  {
    FaceNormals[k]
  }

  /** Corner j of face k, with that face's normal. */
  function LitCell(): (nat, nat) -> seq<LitVertex> {
    (k: nat, j: nat) =>
      if k < 6 && j < 4 then [LitVertex(FaceCorner(k, j), FaceUVs[j], FaceNormal(k))] else []
  }

  /** Face k's four appended vertices are the four cells of row k. */
  lemma LitRow(k: nat)
    requires k < 6
    ensures LitBlock(FaceCorner(k, 0), FaceCorner(k, 1), FaceCorner(k, 2), FaceCorner(k, 3), FaceNormal(k))
      == LitCell()(k, 0) + LitCell()(k, 1) + LitCell()(k, 2) + LitCell()(k, 3)
  {
  }

  /** The 24 vertices `makeCube` appends: face by face, four corners each. */
  function LitCubeVertices(): seq<LitVertex> {
    Grid(6, 4, LitCell())
  }

  /** Appending face k's block extends the cube's vertex grid by row k. */
  lemma LitStep(v0: seq<LitVertex>, k: nat, verts: seq<LitVertex>, verts': seq<LitVertex>)
    requires k < 6
    requires verts == v0 + Grid(k, 4, LitCell()) && |verts| == |v0| + 4 * k
    requires verts' == verts + LitBlock(FaceCorner(k, 0), FaceCorner(k, 1), FaceCorner(k, 2), FaceCorner(k, 3), FaceNormal(k))
    ensures verts' == v0 + Grid(k + 1, 4, LitCell()) && |verts'| == |v0| + 4 * (k + 1)
  {
    LitRow(k);
    FaceStep(v0, k, LitCell(), verts,
             LitBlock(FaceCorner(k, 0), FaceCorner(k, 1), FaceCorner(k, 2), FaceCorner(k, 3), FaceNormal(k)));
  }

  /** The `pushFace` call for face k, as a step of the cube's grids. */
  method PushFaceAt(verts: seq<LitVertex>, idx: seq<nat>, k: nat, ghost v0: seq<LitVertex>, ghost i0: seq<nat>)
    returns (verts': seq<LitVertex>, idx': seq<nat>)
    requires k < 6
    requires verts == v0 + Grid(k, 4, LitCell()) && |verts| == |v0| + 4 * k
    requires idx == i0 + FanGrid(|v0|, k)
    ensures verts' == v0 + Grid(k + 1, 4, LitCell()) && |verts'| == |v0| + 4 * (k + 1)
    ensures idx' == i0 + FanGrid(|v0|, k + 1)
  {
    FanStep(i0, |v0|, k, idx, |verts|);
    verts', idx' := PushFace(verts, idx, FaceCorner(k, 0), FaceCorner(k, 1), FaceCorner(k, 2), FaceCorner(k, 3), FaceNormal(k));
    LitStep(v0, k, verts, verts');
  }

  /**
   * `makeCube`: the six `pushFace` calls (back, front, left, right, top,
   * bottom) append the 24 lit cube vertices and face k's indices
   * base + 4k + {0, 1, 2, 0, 2, 3}, every one naming a new vertex.
   */
  method MakeCube(verts: seq<LitVertex>, idx: seq<nat>) returns (verts': seq<LitVertex>, idx': seq<nat>)
    ensures verts' == verts + LitCubeVertices()
    ensures idx' == idx + FanGrid(|verts|, 6)
    ensures |verts'| == |verts| + 24 && |idx'| == |idx| + 36
    ensures forall i :: |idx| <= i < |idx'| ==> |verts| <= idx'[i] < |verts'|
  {
    verts', idx' := verts, idx;
    verts', idx' := PushFaceAt(verts', idx', 0, verts, idx); // back
    verts', idx' := PushFaceAt(verts', idx', 1, verts, idx); // front
    verts', idx' := PushFaceAt(verts', idx', 2, verts, idx); // left
    verts', idx' := PushFaceAt(verts', idx', 3, verts, idx); // right
    verts', idx' := PushFaceAt(verts', idx', 4, verts, idx); // top
    verts', idx' := PushFaceAt(verts', idx', 5, verts, idx); // bottom
    FanAppendFacts(idx, |verts|, 6, idx');
  }

  /** Vertex j of face k comes at 4k + j: that face's corner j, with UV j and the face's normal. */
  lemma LitVertexAt(k: nat, j: nat)
    requires k < 6 && j < 4
    ensures |LitCubeVertices()| == 24
    ensures LitCubeVertices()[4 * k + j] == LitVertex(FaceCorner(k, j), FaceUVs[j], FaceNormal(k))
  {
    var f := LitCell();
    forall y: nat, x: nat | y < 6 && x < 4 ensures |f(y, x)| == 1 {
    }
    GridAt(6, 4, f, 1, k, j, 0);
  }

  /** Each face's normal points out of it: its corners lie at distance 0.5 along the normal. */
  lemma NormalsPointOut(k: nat, j: nat)
    requires k < 6 && j < 4
    ensures Dot(FaceNormal(k), FaceCorner(k, j)) == 0.5
  {
    FacesMatchTheirNames();
  }

  // ---------------------------------------------------------------------
  // Input

  /** GLFW's codes for the keys and the action the callback reacts to. */
  const Press: int := 1
  const KeyP: int := 80
  const KeyEscape: int := 256
  const KeyF1: int := 290

  /** A flag `key_cb` flips: it changes exactly on a press of its key. */
  function Toggled(flag: bool, key: int, action: int, target: int): (r: bool)
    ensures r != flag <==> action == Press && key == target
  {
    if action == Press && key == target then !flag else flag
  }

  /** Pressing a flag's key twice restores the flag. */
  lemma ToggleTwice(flag: bool, target: int)
    ensures Toggled(Toggled(flag, target, Press, target), target, Press, target) == flag
  {
  }

  /** The globals `gPaused` and `gWire`, and the window's close request. */
  class Controls {
    var paused: bool
    var wire: bool
    var closeRequested: bool

    /** Both flags start false. */
    constructor ()
      ensures !paused && !wire && !closeRequested
    {
      paused, wire, closeRequested := false, false, false;
    }

    /**
     * `key_cb`: only a press acts; P flips the pause flag, F1 the wireframe
     * flag, Escape asks the window to close.
     */
    method KeyCallback(key: int, action: int)
      modifies this
      ensures paused == Toggled(old(paused), key, action, KeyP)
      ensures wire == Toggled(old(wire), key, action, KeyF1)
      ensures closeRequested == (old(closeRequested) || (action == Press && key == KeyEscape))
    {
      if action == Press {
        if key == KeyEscape {
          closeRequested := true;
        }
        if key == KeyP {
          paused := !paused;
        }
        if key == KeyF1 {
          wire := !wire;
        }
      }
    }
  }

  /** `gCam`: the fly camera's state. */
  class Camera {
    var pos: Vec3
    var yaw: real
    var pitch: real
    var fov: real
    var speed: real
    var sensitivity: real
    var firstMouse: bool
    var lastX: real
    var lastY: real

    /** The member initialisers of `struct Camera`. */
    constructor ()
      ensures pos == Vec3(0.0, 1.8, 8.0) && yaw == -90.0 && pitch == -10.0
      ensures fov == 60.0 && speed == 4.2 && sensitivity == 0.12
      ensures firstMouse && lastX == 0.0 && lastY == 0.0
    {
      pos := Vec3(0.0, 1.8, 8.0);
      yaw, pitch := -90.0, -10.0;
      fov, speed, sensitivity := 60.0, 4.2, 0.12;
      firstMouse := true;
      lastX, lastY := 0.0, 0.0;
    }

    /**
     * `mouse_cb`: the first event only records the cursor; every event turns
     * the camera by the offset since the last one, times the sensitivity,
     * and the pitch is clamped to [-89, 89].
     */
    method MouseMove(xpos: real, ypos: real)
      modifies this
      ensures !firstMouse && lastX == xpos && lastY == ypos
      ensures var dx := if old(firstMouse) then 0.0 else xpos - old(lastX);
              var dy := if old(firstMouse) then 0.0 else old(lastY) - ypos;
        yaw == old(yaw) + dx * sensitivity &&
        pitch == Clamp(old(pitch) + dy * sensitivity, -89.0, 89.0)
      ensures -89.0 <= pitch <= 89.0
      ensures pos == old(pos) && fov == old(fov) && speed == old(speed) && sensitivity == old(sensitivity)
    {
      if firstMouse {
        lastX, lastY, firstMouse := xpos, ypos, false;
      }
      var dx := xpos - lastX;
      var dy := lastY - ypos;
      lastX, lastY := xpos, ypos;
      yaw := yaw + dx * sensitivity;
      pitch := pitch + dy * sensitivity;
      pitch := Clamp(pitch, -89.0, 89.0);
    }
  }

  // ---------------------------------------------------------------------
  // sRGB texture formats

  /** The internal formats `loadTextureSRGB` can choose. */
  datatype InternalFormat = Srgb8 | Srgb8Alpha8

  /** `loadTextureSRGB`: 4 channels upload as GL_RGBA into GL_SRGB8_ALPHA8, any other count as GL_RGB into GL_SRGB8. */
  function SrgbFormats(ch: int): (r: (Format, InternalFormat))
    ensures r.0 == RGBA <==> ch == 4
    ensures r.0 == RGB <==> ch != 4
    ensures r.1 == Srgb8Alpha8 <==> ch == 4
  {
    if ch == 4 then (RGBA, Srgb8Alpha8) else (RGB, Srgb8)
  }

  /** The upload reads exactly the image's bytes per pixel only for 3 and 4 channels, the two cases the sample's comment names. */
  lemma SrgbFormatsFit(ch: int)
    ensures Channels(SrgbFormats(ch).0) == ch <==> ch == 3 || ch == 4
  {
  }
}
