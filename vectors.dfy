/** three.js `Vector2` and `Vector3` as values over the reals (rounding is not modelled). */
module Vectors {

  datatype Vec2 = Vec2(x: real, y: real)

  datatype Vec3 = Vec3(x: real, y: real, z: real)

  /** `new Vector3()`: the origin. */
  const Origin: Vec3 := Vec3(0.0, 0.0, 0.0)
}
