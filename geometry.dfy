/**
 * Three-component vectors over the reals (JOML's Vector3d/Vector3f), the
 * library mathematics the viewer calls, and Java's double-to-int cast.
 */
module Geometry {
  import opened JavaText

  datatype Vec3 = Vec3(x: real, y: real, z: real)

  const Origin: Vec3 := Vec3(0.0, 0.0, 0.0)

  function Add(a: Vec3, b: Vec3): Vec3
  {
    Vec3(a.x + b.x, a.y + b.y, a.z + b.z)
  }

  function Sub(a: Vec3, b: Vec3): Vec3
  {
    Vec3(a.x - b.x, a.y - b.y, a.z - b.z)
  }

  function Scale(a: Vec3, k: real): Vec3
  {
    Vec3(a.x * k, a.y * k, a.z * k)
  }

  function Dot(a: Vec3, b: Vec3): real
  {
    a.x * b.x + a.y * b.y + a.z * b.z
  }

  /** The squared Euclidean length, `dx*dx + dy*dy + dz*dz`. */
  function Norm2(a: Vec3): real
  {
    a.x * a.x + a.y * a.y + a.z * a.z
  }

  function Cross(a: Vec3, b: Vec3): Vec3
  {
    Vec3(a.y * b.z - a.z * b.y, a.z * b.x - a.x * b.z, a.x * b.y - a.y * b.x)
  }

  /**
   * java.lang.Math and JOML functions whose numeric behaviour is not
   * modelled: the model calls them through this record and proves nothing
   * about their values.
   */
  datatype Libm = Libm(
    sqrt: real -> real,
    sin: real -> real,
    cos: real -> real,
    acos: real -> real,
    pow: (real, real) -> real,
    normalize: Vec3 -> Vec3)

  const PI: real := 3.141592653589793

  /** `Math.toRadians`. */
  function ToRadians(deg: real): real
  {
    deg * (PI / 180.0)
  }

  /**
   * The Java cast `(int) d` of a double: truncation toward zero, saturating
   * at the 32-bit bounds.
   */
  function IntCast(d: real): (c: int)
    ensures INT_MIN <= c <= INT_MAX
    ensures d >= 0.0 ==> 0 <= c && (c == INT_MAX || (c as real <= d < c as real + 1.0))
    ensures d < 0.0 ==> c <= 0 && (c == INT_MIN || (c as real - 1.0 < d <= c as real))
  {
    var t := if d >= 0.0 then d.Floor else -((-d).Floor);
    if t > INT_MAX then INT_MAX else if t < INT_MIN then INT_MIN else t
  }
}
