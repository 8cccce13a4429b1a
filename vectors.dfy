/** The glm vector values and scalar helpers the model needs, over the reals. */
module Vectors {

  datatype Vec3 = Vec3(x: real, y: real, z: real)
  datatype Vec2 = Vec2(u: real, v: real)

  const Zero3: Vec3 := Vec3(0.0, 0.0, 0.0)

  function Add(a: Vec3, b: Vec3): Vec3 {
    Vec3(a.x + b.x, a.y + b.y, a.z + b.z)
  }

  function Sub(a: Vec3, b: Vec3): Vec3 {
    Vec3(a.x - b.x, a.y - b.y, a.z - b.z)
  }

  function Scale(k: real, a: Vec3): Vec3 {
    Vec3(k * a.x, k * a.y, k * a.z)
  }

  function Dot(a: Vec3, b: Vec3): real {
    a.x * b.x + a.y * b.y + a.z * b.z
  }

  /** The three floats of a vector, in x, y, z order. */
  function Components(a: Vec3): (c: seq<real>)
    ensures |c| == 3 && c[0] == a.x && c[1] == a.y && c[2] == a.z
  {
    [a.x, a.y, a.z]
  }

  /** `glm::clamp(v, lo, hi)`: `min(max(v, lo), hi)`. */
  function Clamp(v: real, lo: real, hi: real): (r: real)
    requires lo <= hi
    ensures lo <= r <= hi
    ensures lo <= v <= hi ==> r == v
    ensures v < lo ==> r == lo
    ensures v > hi ==> r == hi
  {
    var m := if v < lo then lo else v;
    if m > hi then hi else m
  }
}
