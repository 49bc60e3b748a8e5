/** The few three.js value types the falling-leaf pool touches: a 3-vector
    (also used for Euler angles, whose order the pool never changes) and the
    translation/rotation/scale record an instanced mesh keeps per instance. */
module Three {

  /** THREE.Vector3, and the x/y/z angles of a THREE.Euler. */
  datatype Vec3 = Vec3(x: real, y: real, z: real)

  const Zero := Vec3(0.0, 0.0, 0.0)

  /** Component-wise sum, as `Vector3.add`. */
  function Add(a: Vec3, b: Vec3): Vec3 {
    Vec3(a.x + b.x, a.y + b.y, a.z + b.z)
  }

  /** One slot of an instanced mesh's matrix buffer, kept as the translation,
      Euler rotation and per-axis scale it is composed from. */
  datatype Trs = Trs(position: Vec3, rotation: Vec3, scale: Vec3)

  /** A fresh instanced mesh starts every slot at the identity transform. */
  const Identity := Trs(Zero, Zero, Vec3(1.0, 1.0, 1.0))
}
