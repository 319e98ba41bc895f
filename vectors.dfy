/**
 * The small vector types and the component-wise operations the mesh loader
 * applies to them. Coordinates are exact reals: the renderer's single-precision
 * floats are not modelled, and only min, max, addition and division by a
 * non-zero scalar are ever applied to them.
 */
module Vectors {

  datatype Vec2 = Vec2(x: real, y: real)
  datatype Vec3 = Vec3(x: real, y: real, z: real)
  datatype Vec4 = Vec4(x: real, y: real, z: real, w: real)

  /** The smaller of two reals: a lower bound of both, and one of them. */
  function Min(a: real, b: real): (m: real)
    ensures m <= a && m <= b
    ensures m == a || m == b
  {
    if a < b then a else b
  }

  /** The larger of two reals: an upper bound of both, and one of them. */
  function Max(a: real, b: real): (m: real)
    ensures a <= m && b <= m
    ensures m == a || m == b
  {
    if a > b then a else b
  }

  function Vec3Min(a: Vec3, b: Vec3): Vec3
  {
    Vec3(Min(a.x, b.x), Min(a.y, b.y), Min(a.z, b.z))
  }

  function Vec3Max(a: Vec3, b: Vec3): Vec3
  {
    Vec3(Max(a.x, b.x), Max(a.y, b.y), Max(a.z, b.z))
  }

  function Vec3Add(a: Vec3, b: Vec3): Vec3
  {
    Vec3(a.x + b.x, a.y + b.y, a.z + b.z)
  }

  function Vec3Div(a: Vec3, s: real): Vec3
    requires s != 0.0
  {
    Vec3(a.x / s, a.y / s, a.z / s)
  }

  /** Component-wise order: every coordinate of `a` is at most that of `b`. */
  predicate LessEq(a: Vec3, b: Vec3)
  {
    a.x <= b.x && a.y <= b.y && a.z <= b.z
  }
}
