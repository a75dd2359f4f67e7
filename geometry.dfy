/** Vectors and matrices of the scene, over the reals.
    Matrices are symbolic: a product is kept as a term, so nothing about
    glm's numerics is assumed. */
module Geometry {

  datatype Vec2 = Vec2(x: real, y: real)

  datatype Vec3 = Vec3(x: real, y: real, z: real)

  function Add(a: Vec3, b: Vec3): Vec3
  {
    Vec3(a.x + b.x, a.y + b.y, a.z + b.z)
  }

  function Neg(a: Vec3): Vec3
  {
    Vec3(-a.x, -a.y, -a.z)
  }

  function Sub(a: Vec3, b: Vec3): Vec3
  {
    Vec3(a.x - b.x, a.y - b.y, a.z - b.z)
  }

  function Scale(a: Vec3, k: real): Vec3
  {
    Vec3(a.x * k, a.y * k, a.z * k)
  }

  function Dot(a: Vec3, b: Vec3): real
  {
    a.x * b.x + a.y * b.y + a.z * b.z
  }

  function Cross(a: Vec3, b: Vec3): Vec3
  {
    Vec3(a.y * b.z - a.z * b.y, a.z * b.x - a.x * b.z, a.x * b.y - a.y * b.x)
  }

  function Sub2(a: Vec2, b: Vec2): Vec2
  {
    Vec2(a.x - b.x, a.y - b.y)
  }

  /** A 4x4 matrix as a term: `Model` stands for the scale-rotate-translate
      composition of an actor, `Perspective` for the camera's projection,
      `Upper3x3` for the truncation to a 3x3 matrix, `Product` for a
      multiplication whose value is left uninterpreted. */
  datatype Mat =
    | Zero
    | Identity
    | Model(pos: Vec3, rot: Vec3, sc: Vec3)
    | Perspective(fieldOfView: real, width: int, height: int, near: real, far: real)
    | Upper3x3(m: Mat)
    | Product(left: Mat, right: Mat)

  /** Adding an offset and then its negation gives back the start point. */
  lemma AddNegRestores(p: Vec3, d: Vec3)
    ensures Add(Add(p, d), Neg(d)) == p
  {
  }
}
