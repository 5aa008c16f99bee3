/** Values shared by the scripts: optional references, Unity vectors and C# 32-bit integers. */
module Common {

  /** A reference that may be unassigned (null in the scene). */
  datatype Option<T> = None | Some(value: T)

  /** Identity of a GameObject in the scene; C# compares these by reference. */
  type ObjectId = nat

  /** Unity's Vector3, with float components modelled as reals. */
  datatype Vec3 = Vec3(x: real, y: real, z: real)

  /** Unity's Vector2. */
  datatype Vec2 = Vec2(x: real, y: real)

  const Zero3: Vec3 := Vec3(0.0, 0.0, 0.0)

  function Neg(v: Vec3): Vec3 {
    Vec3(-v.x, -v.y, -v.z)
  }

  function Scale(v: Vec3, k: real): Vec3 {
    Vec3(v.x * k, v.y * k, v.z * k)
  }

  /** C#'s `int`. */
  type Int32 = x: int | -0x8000_0000 <= x < 0x8000_0000

  /** C#'s unchecked 32-bit wrap-around: the Int32 congruent to `x` modulo 2^32. */
  function Wrap32(x: int): (r: Int32)
    ensures -0x8000_0000 <= x < 0x8000_0000 ==> r == x
    ensures (x - r) % 0x1_0000_0000 == 0
  {
    (x + 0x8000_0000) % 0x1_0000_0000 - 0x8000_0000
  }

  /** `Mathf.Min` and `Mathf.Max` on ints. */
  function Min(a: int, b: int): int {
    if a < b then a else b
  }

  function Max(a: int, b: int): int {
    if a > b then a else b
  }
}
