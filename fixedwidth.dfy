/** The fixed-width integer types of the ESP32 target (32-bit `int`, `unsigned long`,
    `uint32_t`, `uint16_t`) and the wrap-around arithmetic C performs on them. */
module FixedWidth {

  const TWO_16: int := 0x1_0000
  const TWO_31: int := 0x8000_0000
  const TWO_32: int := 0x1_0000_0000

  type uint16 = x: int | 0 <= x < 0x1_0000
  type uint32 = x: int | 0 <= x < 0x1_0000_0000
  type int32 = x: int | -0x8000_0000 <= x < 0x8000_0000

  /** `a - b` on unsigned 32-bit operands: the true difference, reduced modulo 2^32. */
  function Sub32(a: uint32, b: uint32): (r: uint32)
    ensures a >= b ==> r == a - b
    ensures a < b ==> r == TWO_32 - (b - a)
  {
    (a - b) % TWO_32
  }

  /** `a + b` on unsigned 32-bit operands. */
  function Add32(a: uint32, b: uint32): (r: uint32)
    ensures a + b < TWO_32 ==> r == a + b
    ensures a + b >= TWO_32 ==> r == a + b - TWO_32
  {
    (a + b) % TWO_32
  }

  /** `x++` on an unsigned 16-bit counter. */
  function Inc16(x: uint16): (r: uint16)
    ensures x < TWO_16 - 1 ==> r == x + 1
    ensures x == TWO_16 - 1 ==> r == 0
  {
    (x + 1) % TWO_16
  }

  /** `x++` on an unsigned 32-bit counter. */
  function Inc32(x: uint32): (r: uint32)
    ensures x < TWO_32 - 1 ==> r == x + 1
    ensures x == TWO_32 - 1 ==> r == 0
  {
    (x + 1) % TWO_32
  }

  /** Unsigned subtraction undoes unsigned addition, whatever wraps. */
  lemma SubAdd32(a: uint32, b: uint32)
    ensures Sub32(Add32(a, b), a) == b
  {
  }
}
