/** include/irr.h: the SDK version constants and the MAKE_IRR_ID
    four-character-code macro. */
module Irr {
  import opened IrrTypes

  const IRRLICHT_VERSION_MAJOR: nat := 1
  const IRRLICHT_VERSION_MINOR: nat := 9
  const IRRLICHT_VERSION_REVISION: nat := 0
  const IRRLICHT_SDK_VERSION: string := "1.9.0"

  /** Decimal spelling of a version component: digits only, most
      significant first, and read back as a number it is n. */
  function DecimalString(n: nat): (s: string)
    ensures |s| >= 1
    ensures forall i :: 0 <= i < |s| ==> '0' <= s[i] <= '9'
    ensures DecimalValue(s) == n
  {
    if n < 10 then [Digit(n)]
    else
      var s := DecimalString(n / 10) + [Digit(n % 10)];
      assert s[..|s| - 1] == DecimalString(n / 10);
      s
  }

  /** The number a string of decimal digits spells. */
  function DecimalValue(s: string): nat
    requires forall i :: 0 <= i < |s| ==> '0' <= s[i] <= '9'
  {
    if s == [] then 0 else DecimalValue(s[..|s| - 1]) * 10 + (s[|s| - 1] as int - '0' as int)
  }

  function Digit(d: nat): (c: char)
    requires d < 10
    ensures '0' <= c <= '9' && c as int - '0' as int == d
  {
    ['0', '1', '2', '3', '4', '5', '6', '7', '8', '9'][d]
  }

  /** The version string is the three numeric components joined by dots. */
  lemma SdkVersionMatchesComponents()
    ensures IRRLICHT_SDK_VERSION ==
      DecimalString(IRRLICHT_VERSION_MAJOR) + "." +
      DecimalString(IRRLICHT_VERSION_MINOR) + "." +
      DecimalString(IRRLICHT_VERSION_REVISION)
  {
  }

  /** `(irr::u8)(c)`: each argument, an `int` after the usual promotions,
      is truncated to its low byte before it is shifted. */
  function TruncByte(c: bv32): (b: bv8)
    ensures b as bv32 == c % 0x100
  {
    (c & 0xFF) as bv8
  }

  /** MAKE_IRR_ID(c0, c1, c2, c3): c0 in the least significant byte, c3 in the most. */
  function MakeIrrId(c0: bv32, c1: bv32, c2: bv32, c3: bv32): (id: bv32)
    ensures IdByte(id, 0) == TruncByte(c0)
    ensures IdByte(id, 1) == TruncByte(c1)
    ensures IdByte(id, 2) == TruncByte(c2)
    ensures IdByte(id, 3) == TruncByte(c3)
  {
    PackBytes(TruncByte(c0), TruncByte(c1), TruncByte(c2), TruncByte(c3))
  }

  /** The shift-and-or of the macro once its four arguments are bytes. */
  function PackBytes(b0: bv8, b1: bv8, b2: bv8, b3: bv8): bv32
  {
    (b0 as bv32) | ((b1 as bv32) << 8) | ((b2 as bv32) << 16) | ((b3 as bv32) << 24)
  }

  /** Byte k (k = 0 the least significant) of a 32-bit id. */
  function IdByte(id: bv32, k: nat): bv8
    requires k < 4
  {
    if k == 0 then (id & 0xFF) as bv8
    else if k == 1 then ((id >> 8) & 0xFF) as bv8
    else if k == 2 then ((id >> 16) & 0xFF) as bv8
    else (id >> 24) as bv8
  }

  /** The four bytes of an id determine it: the id is the packing of its bytes. */
  lemma IdIsPackingOfItsBytes(id: bv32)
    ensures PackBytes(IdByte(id, 0), IdByte(id, 1), IdByte(id, 2), IdByte(id, 3)) == id
  {
  }

  /** Two byte 4-tuples give the same id only if they are the same tuple. */
  lemma {:induction false} PackBytesInjective(a0: bv8, a1: bv8, a2: bv8, a3: bv8, b0: bv8, b1: bv8, b2: bv8, b3: bv8)
    requires PackBytes(a0, a1, a2, a3) == PackBytes(b0, b1, b2, b3)
    ensures a0 == b0 && a1 == b1 && a2 == b2 && a3 == b3
  {
    PackedBytes(a0, a1, a2, a3);
    PackedBytes(b0, b1, b2, b3);
  }

  /** Unpacking a packed id gives back the four bytes. */
  lemma PackedBytes(b0: bv8, b1: bv8, b2: bv8, b3: bv8)
    ensures IdByte(PackBytes(b0, b1, b2, b3), 0) == b0
    ensures IdByte(PackBytes(b0, b1, b2, b3), 1) == b1
    ensures IdByte(PackBytes(b0, b1, b2, b3), 2) == b2
    ensures IdByte(PackBytes(b0, b1, b2, b3), 3) == b3
  {
  }

  /** MAKE_IRR_ID is injective on byte arguments: equal ids come from
      equal 4-tuples of bytes. */
  lemma MakeIrrIdInjective(a0: bv8, a1: bv8, a2: bv8, a3: bv8, b0: bv8, b1: bv8, b2: bv8, b3: bv8)
    requires MakeIrrId(a0 as bv32, a1 as bv32, a2 as bv32, a3 as bv32) ==
             MakeIrrId(b0 as bv32, b1 as bv32, b2 as bv32, b3 as bv32)
    ensures (a0, a1, a2, a3) == (b0, b1, b2, b3)
  {
    PackBytesInjective(a0, a1, a2, a3, b0, b1, b2, b3);
  }

  /** Two calls give the same id exactly when their arguments agree
      argument by argument in the low byte: a negative `char` such as -1 and
      its unsigned spelling 0xFF are the same code. */
  lemma MakeIrrIdTruncates(c0: bv32, c1: bv32, c2: bv32, c3: bv32, d0: bv32, d1: bv32, d2: bv32, d3: bv32)
    ensures MakeIrrId(c0, c1, c2, c3) == MakeIrrId(d0, d1, d2, d3) <==>
      TruncByte(c0) == TruncByte(d0) && TruncByte(c1) == TruncByte(d1) &&
      TruncByte(c2) == TruncByte(d2) && TruncByte(c3) == TruncByte(d3)
  {
    if MakeIrrId(c0, c1, c2, c3) == MakeIrrId(d0, d1, d2, d3) {
      PackBytesInjective(TruncByte(c0), TruncByte(c1), TruncByte(c2), TruncByte(c3),
                         TruncByte(d0), TruncByte(d1), TruncByte(d2), TruncByte(d3));
    }
  }
}
