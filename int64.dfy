/** The C# `long` type and its two's-complement view as a 64-bit vector. */
module Int64 {

  const MinLong: int := -0x8000_0000_0000_0000
  const MaxLong: int := 0x7FFF_FFFF_FFFF_FFFF

  /** A value of the C# `long` type. */
  type Long = x: int | MinLong <= x <= MaxLong

  /** The signed `long` whose two's-complement bit pattern is `b`. */
  function Signed(b: bv64): int
  {
    if b < 0x8000_0000_0000_0000 then b as int else b as int - 0x1_0000_0000_0000_0000
  }
}
