/**
 * The math values the components store. Nothing in the modelled code computes
 * with them; they are only stored, compared and returned, so each is a plain
 * record of reals, and an `f32` is a real.
 */
module Mathematics {
  type F32 = real

  /** `AngleF`, as the modelled code builds it: an angle in degrees. */
  datatype Angle = Degrees(degrees: real)

  datatype Vec3 = Vec3(x: F32, y: F32, z: F32)

  datatype Quat = Quat(x: F32, y: F32, z: F32, w: F32)

  /** A 4x4 matrix, row by row. */
  datatype Matrix4x4 = Matrix4x4(entries: seq<F32>)

  const VEC3_ZERO: Vec3 := Vec3(0.0, 0.0, 0.0)
  const VEC3_ONE: Vec3 := Vec3(1.0, 1.0, 1.0)
  const QUAT_IDENTITY: Quat := Quat(0.0, 0.0, 0.0, 1.0)
  const MATRIX_ZERO: Matrix4x4 := Matrix4x4([0.0, 0.0, 0.0, 0.0, 0.0, 0.0, 0.0, 0.0, 0.0, 0.0, 0.0, 0.0, 0.0, 0.0, 0.0, 0.0])
}
