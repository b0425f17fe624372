/** Three-component vectors of reals and the numpy operations the viewer applies to them.
    A Vec3 stands for a point, a direction, or an RGB colour (x, y, z read as r, g, b). */
module Geometry {

  datatype Vec3 = Vec3(x: real, y: real, z: real)

  function Add(a: Vec3, b: Vec3): Vec3 {
    Vec3(a.x + b.x, a.y + b.y, a.z + b.z)
  }

  function Sub(a: Vec3, b: Vec3): Vec3 {
    Vec3(a.x - b.x, a.y - b.y, a.z - b.z)
  }

  /** A scalar times a vector. */
  function Scale(k: real, a: Vec3): Vec3 {
    Vec3(k * a.x, k * a.y, k * a.z)
  }

  /** numpy's element-wise `*` of two arrays. */
  function Mul(a: Vec3, b: Vec3): Vec3 {
    Vec3(a.x * b.x, a.y * b.y, a.z * b.z)
  }

  /** np.dot */
  function Dot(a: Vec3, b: Vec3): real {
    a.x * b.x + a.y * b.y + a.z * b.z
  }

  /** np.cross */
  function Cross(a: Vec3, b: Vec3): Vec3 {
    Vec3(a.y * b.z - a.z * b.y, a.z * b.x - a.x * b.z, a.x * b.y - a.y * b.x)
  }

  /** The squared length of a vector. */
  function NormSq(a: Vec3): real {
    Dot(a, a)
  }

  /** Python's max(a, 0). */
  function Max0(a: real): real {
    if 0.0 > a then 0.0 else a
  }

  /** np.power(a, 4.0), for the non-negative arguments the shading passes it. */
  function Pow4(a: real): real {
    a * a * a * a
  }

  /** np.clip(a, lo, hi) on one channel. */
  function Clamp(a: real, lo: real, hi: real): real {
    if a < lo then lo else if a > hi then hi else a
  }

  /** A channel clipped to [0, 255]: kept if it lies in the range, else the nearer bound. */
  predicate ClippedChannel(a: real, r: real) {
    (0.0 <= a <= 255.0 ==> r == a) && (a > 255.0 ==> r == 255.0) && (a < 0.0 ==> r == 0.0)
  }

  /** np.clip(v, 0, 255) on a colour, channel by channel. */
  function Clip(v: Vec3): (r: Vec3)
    ensures ClippedChannel(v.x, r.x) && ClippedChannel(v.y, r.y) && ClippedChannel(v.z, r.z)
    ensures InChannelRange(r)
    ensures InChannelRange(v) ==> r == v
  {
    Vec3(Clamp(v.x, 0.0, 255.0), Clamp(v.y, 0.0, 255.0), Clamp(v.z, 0.0, 255.0))
  }

  /** Every channel lies in [0, 255]. */
  predicate InChannelRange(c: Vec3) {
    0.0 <= c.x <= 255.0 && 0.0 <= c.y <= 255.0 && 0.0 <= c.z <= 255.0
  }

  /** Python's int() on a float: truncation toward zero. */
  function Trunc(a: real): (r: int)
    ensures 0.0 <= a ==> r as real <= a < r as real + 1.0
    ensures a <= 0.0 ==> r as real - 1.0 < a <= r as real
  {
    if a >= 0.0 then a.Floor else -((-a).Floor)
  }
}
