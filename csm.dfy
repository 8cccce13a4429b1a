/**
 * The integer and bookkeeping parts of src/samples/csm.h, the cascaded
 * shadow map demo: the 1024-entry key-state array its key callback keeps,
 * the mouse callback's pitch clamp, and the near/far planes of each
 * cascade's light projection.
 */
module CsmDemo {
  import opened Vectors

  /** The entries of `bool keys[1024]`. */
  const KeyCount: nat := 1024

  /** `GLFW_RELEASE`, `GLFW_PRESS` (GLFW's action codes). */
  const Release: int := 0
  const Press: int := 1

  /** `CASCADE_COUNT`. */
  const CascadeCount: nat := 3

  /** `float cascadeEnds[CASCADE_COUNT]`. */
  const CascadeEnds: seq<real> := [10.0, 30.0, 100.0]

  /** The near plane of cascade 0. */
  const FirstNear: real := 0.1

  /**
   * The near and far plane of cascade i: `0.1` or the previous split, and
   * the split itself.
   */
  function CascadePlanes(ends: seq<real>, i: nat): (planes: (real, real))
    requires i < |ends|
    ensures planes.1 == ends[i]
    ensures planes.0 == (if i == 0 then FirstNear else ends[i - 1])
  {
    (if i == 0 then FirstNear else ends[i - 1], ends[i])
  }

  /** Splits that start above 0.1 and increase. */
  predicate Increasing(ends: seq<real>) {
    |ends| > 0 && ends[0] > FirstNear && forall i :: 0 < i < |ends| ==> ends[i - 1] < ends[i]
  }

  /** With increasing splits every cascade's depth range is non-empty, and consecutive cascades meet. */
  lemma CascadesOrdered(ends: seq<real>)
    requires Increasing(ends)
    ensures forall i :: 0 <= i < |ends| ==> CascadePlanes(ends, i).0 < CascadePlanes(ends, i).1
    ensures forall i :: 0 < i < |ends| ==> CascadePlanes(ends, i).0 == CascadePlanes(ends, i - 1).1
  {
  }

  /** The demo's splits {10, 30, 100} are increasing, so its three cascades are ordered. */
  lemma DemoCascades()
    ensures Increasing(CascadeEnds) && |CascadeEnds| == CascadeCount
    ensures CascadePlanes(CascadeEnds, 0) == (0.1, 10.0)
    ensures CascadePlanes(CascadeEnds, 1) == (10.0, 30.0)
    ensures CascadePlanes(CascadeEnds, 2) == (30.0, 100.0)
  {
  }

  /** `orthoSize = farPlane * 0.5f`: the half-width of cascade i's orthographic projection. */
  function OrthoSize(ends: seq<real>, i: nat): (size: real)
    requires i < |ends|
    ensures size * 2.0 == CascadePlanes(ends, i).1
  {
    CascadePlanes(ends, i).1 * 0.5
  }

  /** `Camera::Sensitivity`. */
  const Sensitivity: real := 0.1

  /** The globals the callbacks change: the key array, the cursor record and the camera's angles. */
  class Demo {
    const keys: array<bool>
    var lastX: real
    var lastY: real
    var firstMouse: bool
    var yaw: real
    var pitch: real

    /** Static storage: every key up; the camera's initial `Yaw = -90`, `Pitch = 0`. */
    constructor ()
      ensures keys.Length == KeyCount && fresh(keys)
      ensures forall k :: 0 <= k < KeyCount ==> !keys[k]
      ensures lastX == 640.0 && lastY == 360.0 && firstMouse
      ensures yaw == -90.0 && pitch == 0.0
    {
      keys := new bool[KeyCount](_ => false);
      lastX, lastY := 640.0, 360.0;
      firstMouse := true;
      yaw, pitch := -90.0, 0.0;
    }

    /**
     * `key_callback`: for k in [0, 1024), a press sets `keys[k]` and a
     * release clears it; any other key or action changes nothing.
     */
    method KeyCallback(k: int, action: int)
      requires keys.Length == KeyCount
      modifies keys
      ensures 0 <= k < KeyCount && action == Press ==> keys[..] == old(keys[..])[k := true]
      ensures 0 <= k < KeyCount && action == Release ==> keys[..] == old(keys[..])[k := false]
      ensures !(0 <= k < KeyCount) || (action != Press && action != Release) ==> keys[..] == old(keys[..])
    {
      if 0 <= k < KeyCount {
        if action == Press {
          keys[k] := true;
        }
        if action == Release {
          keys[k] := false;
        }
      }
    }

    /**
     * `mouse_callback`: the first event only records the cursor; each event
     * turns the camera by a tenth of the offset (y inverted) and keeps the
     * pitch within [-89, 89].
     */
    method MouseCallback(xpos: real, ypos: real)
      modifies this
      ensures !firstMouse && lastX == xpos && lastY == ypos
      ensures var xoffset := if old(firstMouse) then 0.0 else xpos - old(lastX);
              var yoffset := if old(firstMouse) then 0.0 else old(lastY) - ypos;
        yaw == old(yaw) + xoffset * Sensitivity
        && pitch == Clamp(old(pitch) + yoffset * Sensitivity, -89.0, 89.0)
      ensures -89.0 <= pitch <= 89.0
    {
      if firstMouse {
        lastX := xpos;
        lastY := ypos;
        firstMouse := false;
      }
      var xoffset, yoffset := xpos - lastX, lastY - ypos;
      lastX := xpos;
      lastY := ypos;
      yaw := yaw + xoffset * Sensitivity;
      pitch := pitch + yoffset * Sensitivity;
      if pitch > 89.0 {
        pitch := 89.0;
      }
      if pitch < -89.0 {
        pitch := -89.0;
      }
    }
  }
}
