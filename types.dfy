/** Integer widths of irrTypes.h and the C conversions between them.
    Dafny integers are unbounded, so every place where the engine relies
    on a fixed width goes through one of the truncations below. */
module IrrTypes {

  type u8 = x: int | 0 <= x < 0x100
  type u16 = x: int | 0 <= x < 0x1_0000
  type u32 = x: int | 0 <= x < 0x1_0000_0000
  type s16 = x: int | -0x8000 <= x < 0x8000
  type s32 = x: int | -0x8000_0000 <= x < 0x8000_0000

  const U32_MODULUS: int := 0x1_0000_0000

  /** The conventional Some/None wrapper, standing in for a nullable pointer. */
  datatype Option<T> = None | Some(value: T)

  /** `(u8)x`: conversion to an unsigned 8-bit type keeps x modulo 2^8. */
  function ToU8(x: int): (r: u8)
    ensures (x - r) % 0x100 == 0
    ensures 0 <= x < 0x100 ==> r == x
  {
    x % 0x100
  }

  /** `(u32)x`: conversion to an unsigned 32-bit type keeps x modulo 2^32. */
  function ToU32(x: int): (r: u32)
    ensures (x - r) % U32_MODULUS == 0
    ensures 0 <= x < U32_MODULUS ==> r == x
  {
    x % U32_MODULUS
  }

  /** `(s32)x` on a two's complement target. */
  function ToS32(x: int): (r: s32)
    ensures (x - r) % U32_MODULUS == 0
    ensures -0x8000_0000 <= x < 0x8000_0000 ==> r == x
  {
    var m := x % U32_MODULUS;
    if m < 0x8000_0000 then m else m - U32_MODULUS
  }

  /** A 32-bit flag word, seen as the set of the positions of its set bits:
      `x | m` is `x + m`, `x & ~m` is `x - m` and `x & m` is `x * m`. */
  type Flags32 = s: set<nat> | forall i :: i in s ==> i < 32

  /** The flag word with bit i alone set, `1 << i`. */
  function Bit(i: nat): Flags32
    requires i < 32
  {
    {i}
  }
}
