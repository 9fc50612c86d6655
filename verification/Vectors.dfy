/** Vectors shared by the simulation and the track. */
module Vectors {

  datatype Vec3 = Vec3(x: real, y: real, z: real)

  const ORIGIN := Vec3(0.0, 0.0, 0.0)

  function Plus(a: Vec3, b: Vec3): Vec3 {
    Vec3(a.x + b.x, a.y + b.y, a.z + b.z)
  }

  function Minus(a: Vec3, b: Vec3): Vec3 {
    Vec3(a.x - b.x, a.y - b.y, a.z - b.z)
  }

  function Times(a: Vec3, f: real): Vec3 {
    Vec3(a.x * f, a.y * f, a.z * f)
  }
}
