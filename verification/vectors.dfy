/** Displacements in the plane and in space: `Vector2<int>` and `Vector3<int>`.
    Both are plain records; the point modules use them as the operand of a
    translation and as the result of the difference of two points. */
module Vectors {

  /** A two-dimensional displacement; the component constructor `Vector2(xx, yy)`. */
  datatype Vector2 = Vector2(x: int, y: int)

  /** A three-dimensional displacement; the component constructor `Vector3(xx, yy, zz)`. */
  datatype Vector3 = Vector3(x: int, y: int, z: int)

  /** The default constructor `Vector2()`: every component is zero. */
  function ZeroVector2(): (v: Vector2) {
    Vector2(0, 0)
  }

  /** The default constructor `Vector3()`: every component is zero. */
  function ZeroVector3(): (v: Vector3) {
    Vector3(0, 0, 0)
  }
}
