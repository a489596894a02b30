/** Three-component vectors over the reals, standing in for the engine's
    single-precision `Vector3`. Float rounding is deliberately not modelled. */
module Vectors {

  datatype Vec3 = Vec3(x: real, y: real, z: real)

  function Add(a: Vec3, b: Vec3): Vec3 {
    Vec3(a.x + b.x, a.y + b.y, a.z + b.z)
  }

  function Sub(a: Vec3, b: Vec3): Vec3 {
    Vec3(a.x - b.x, a.y - b.y, a.z - b.z)
  }

  /** The vector (k, k, k). */
  function Uniform(k: real): Vec3 {
    Vec3(k, k, k)
  }

  /** Component-wise `v >= lo`. */
  predicate AtLeast(v: Vec3, lo: Vec3) {
    v.x >= lo.x && v.y >= lo.y && v.z >= lo.z
  }
}
