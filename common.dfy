/**
 * Shared vocabulary of the engine model: three- and four-component vectors
 * over the reals (the engine's F32 scalars), the error wrappers that stand for
 * thrown exceptions and null results, and the unsigned integer widths whose
 * wrap-around matters.
 */
module Common {

  /** A value that may be absent: a null pointer or a missing entry. */
  datatype Option<T> = None | Some(value: T)

  /** The outcome of an operation that either returns a value or throws. */
  datatype Result<T> = Ok(value: T) | Err(message: string)

  /** An F32x3 / the first three lanes of an XMVECTOR. */
  datatype Vec3 = Vec3(x: real, y: real, z: real)

  /** An F32x4 / all four lanes of an XMVECTOR. */
  datatype Vec4 = Vec4(x: real, y: real, z: real, w: real)

  function Add(a: Vec3, b: Vec3): Vec3 { Vec3(a.x + b.x, a.y + b.y, a.z + b.z) }
  function Sub(a: Vec3, b: Vec3): Vec3 { Vec3(a.x - b.x, a.y - b.y, a.z - b.z) }
  /** The vector whose three components all equal s. */
  function Splat(s: real): Vec3 { Vec3(s, s, s) }
  /** Component-wise product. */
  function Mul(a: Vec3, b: Vec3): Vec3 { Vec3(a.x * b.x, a.y * b.y, a.z * b.z) }

  function Add4(a: Vec4, b: Vec4): Vec4 { Vec4(a.x + b.x, a.y + b.y, a.z + b.z, a.w + b.w) }
  function Sub4(a: Vec4, b: Vec4): Vec4 { Vec4(a.x - b.x, a.y - b.y, a.z - b.z, a.w - b.w) }
  function Scale4(k: real, a: Vec4): Vec4 { Vec4(k * a.x, k * a.y, k * a.z, k * a.w) }

  /** XMVector3Less: true only when every one of the three lanes compares less. */
  predicate AllLess(a: Vec3, b: Vec3) { a.x < b.x && a.y < b.y && a.z < b.z }

  /** XMVector3LessOrEqual: true only when every lane compares less or equal. */
  predicate AllLessOrEqual(a: Vec3, b: Vec3) { a.x <= b.x && a.y <= b.y && a.z <= b.z }

  function Abs(r: real): real { if r < 0.0 then -r else r }
  function Max(a: real, b: real): real { if a < b then b else a }
  function Min(a: real, b: real): real { if a < b then a else b }

  const U32_LIMIT: int := 0x1_0000_0000
  const U64_LIMIT: int := 0x1_0000_0000_0000_0000

  /** The value of an integer once stored in a 32-bit unsigned integer. */
  function ToU32(i: int): (r: nat)
    ensures r < U32_LIMIT
    ensures 0 <= i < U32_LIMIT ==> r == i
  {
    i % U32_LIMIT
  }
}
