/** Shared value types of the OpenXR CAS layer model: optional values, the
    fixed-width integers of the C++ source, and opaque handles. */
module XrTypes {

  datatype Option<+T> = None | Some(value: T) {
    function GetOr(default: T): T {
      match this
      case Some(v) => v
      case None => default
    }
  }

  const TWO_TO_32: int := 0x1_0000_0000
  const TWO_TO_31: int := 0x8000_0000

  /** C++ `uint32_t` / `UINT`. */
  type u32 = x: int | 0 <= x < TWO_TO_32

  /** C++ `int32_t` (OpenXR offsets and extents are signed). */
  type i32 = x: int | -TWO_TO_31 <= x < TWO_TO_31

  /** The conversion `(UINT)x` of a signed 32-bit value: two's complement
      reinterpretation, i.e. reduction modulo 2^32. */
  function AsUint(x: i32): (r: u32)
    ensures 0 <= x ==> r == x
    ensures x < 0 ==> r == x + TWO_TO_32
  {
    x % TWO_TO_32
  }

  /** Unsigned 32-bit addition, which wraps. */
  function AddU32(a: u32, b: u32): (r: u32)
    ensures a + b < TWO_TO_32 ==> r == a + b
    ensures TWO_TO_32 <= a + b ==> r == a + b - TWO_TO_32
  {
    (a + b) % TWO_TO_32
  }

  /** A 64-bit opaque OpenXR handle. */
  datatype XrHandle = XrHandle(bits: bv64)

  type Swapchain = XrHandle    // XrSwapchain
  type SessionHandle = XrHandle    // XrSession

  /** Opaque identity of a D3D11 texture, device or view. */
  type Handle = nat
}
