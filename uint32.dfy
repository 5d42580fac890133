/**
 * The fixed-width integer arithmetic of the C++ source, written out explicitly:
 * `uint32_t`/`UINT` values, their wrap-around on `*`, and the conversions
 * from `int` and to `LONG` (a signed 32-bit integer on the target platform).
 */
module UInt32 {

  const Modulus: int := 0x1_0000_0000

  /** A value of a C++ `uint32_t` or `UINT`. */
  type u32 = x: int | 0 <= x < Modulus

  /** A value of a C++ `int` or `LONG`. */
  type i32 = x: int | -0x8000_0000 <= x < 0x8000_0000

  /** Conversion of any integer to `uint32_t`: reduction modulo 2^32. */
  function Wrap(x: int): (r: u32)
    ensures 0 <= x < Modulus ==> r == x
    ensures (x - r) % Modulus == 0
  {
    x % Modulus
  }

  /** `a * b` on `uint32_t`. */
  function Mul(a: u32, b: u32): (r: u32)
    ensures a * b < Modulus ==> r == a * b
  {
    Wrap(a * b)
  }

  /** Conversion of a `uint32_t` to `LONG`: values from 2^31 on reappear negative. */
  function ToLong(x: u32): (r: i32)
    ensures x < 0x8000_0000 ==> r == x
    ensures x >= 0x8000_0000 ==> r < 0
    ensures (x - r) % Modulus == 0
    ensures Wrap(r) == x
  {
    if x < 0x8000_0000 then x else x - Modulus
  }
}
