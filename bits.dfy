/**
 * Facts about 64-bit two's-complement words (C# `long`) used by the flag
 * enums: single-bit values, the mask `1 << n`, and how `&`, `|` and `+`
 * behave on disjoint bits.
 */
module Bits {

  /**
   * The mask after `n` left shifts of 1, for a bit index `n` of 0 to 64;
   * `Bit(64)` has shifted out to 0.
   */
  function Bit(n: bv7): bv64
    requires n <= 64
  {
    if n == 64 then 0 else (1 as bv64) << n
  }

  /** The single-bit test `value != 0 && (value & (value - 1)) == 0`, with wrap-around subtraction. */
  predicate SingleBit(v: bv64)
  {
    v != 0 && v & (v - 1) == 0
  }

  /** `x` has no bit outside `m | x`. */
  lemma WithinOr(x: bv64, m: bv64)
    ensures x & !(m | x) == 0
  {
  }

  /** Whether word `x` has any of the bits of `b` set. */
  predicate Has(x: bv64, b: bv64)
  {
    x & b != 0
  }

  /**
   * The masks the flag loop visits: `Bit(0)` is 1, each of the first 64 is a
   * single bit, and shifting one left gives the next.
   */
  lemma BitFacts(n: bv7)
    requires n <= 64
    ensures Bit(0) == 1
    ensures n < 64 ==> SingleBit(Bit(n))
    ensures n < 64 ==> Bit(n) << 1 == Bit(n + 1)
  {
  }

  /** Two different single bits share no bit. */
  lemma DistinctBitsDisjoint(a: bv64, b: bv64)
    requires SingleBit(a) && SingleBit(b)
    ensures Has(a, b) <==> a == b
  {
  }

  /** A bit is in `x | y` exactly when it is in `x` or in `y`. */
  lemma OrHasBit(x: bv64, y: bv64, b: bv64)
    ensures Has(x | y, b) <==> Has(x, b) || Has(y, b)
  {
    OrKeepsBits(x, y, b);
    OrAddsNoBit(x, y, b);
  }

  lemma OrKeepsBits(x: bv64, y: bv64, b: bv64)
    ensures Has(x, b) ==> Has(x | y, b)
    ensures Has(y, b) ==> Has(x | y, b)
  {
  }

  lemma OrAddsNoBit(x: bv64, y: bv64, b: bv64)
    ensures Has(x | y, b) ==> Has(x, b) || Has(y, b)
  {
  }

  /** Adding words with no common bit gives their bitwise OR: no carry arises. */
  lemma AddDisjoint(x: bv64, y: bv64)
    requires !Has(x, y)
    ensures x + y == x | y
  {
  }

  /** The bits below `b << 1` are those below `b` and `b` itself. */
  lemma SingleBitStep(b: bv64)
    requires SingleBit(b)
    ensures (b << 1) - 1 == (b - 1) | b
  {
  }

  /** `x` has no bit outside `m` below the single bit `b`. */
  predicate CheckedBelow(x: bv64, m: bv64, b: bv64)
  {
    x & !m & (b - 1) == 0
  }

  lemma CheckStepBits(x: bv64, m: bv64, b: bv64)
    requires x & !m & (b - 1) == 0
    requires x & b == 0 || m & b != 0
    requires SingleBit(b)
    ensures x & !m & ((b << 1) - 1) == 0
  {
    SingleBitStep(b);
  }

  /** One step of the flag loop: once bit `b` is checked, the bits below `b << 1` are. */
  lemma CheckStep(x: bv64, m: bv64, b: bv64)
    requires CheckedBelow(x, m, b)
    requires !Has(x, b) || Has(m, b)
    requires SingleBit(b)
    ensures CheckedBelow(x, m, b << 1)
  {
    CheckStepBits(x, m, b);
  }

  /** Once the mask has shifted out to 0, all 64 bits have been checked. */
  lemma AllChecked(x: bv64, m: bv64, b: bv64)
    requires b == 0 && CheckedBelow(x, m, b)
    ensures x & !m == 0
  {
  }

  /** A bit of `x` outside `m` makes `x & !m` non-zero. */
  lemma Outside(x: bv64, m: bv64, b: bv64)
    requires Has(x, b) && !Has(m, b)
    ensures x & !m != 0
  {
  }

  /** A bit of `x` inside `m` once `x` has no bit outside `m`. */
  lemma Inside(x: bv64, m: bv64, b: bv64)
    requires x & !m == 0 && x & b != 0
    ensures m & b != 0
  {
  }

  /** When `x` has no bit outside `m`, every single bit of `x` is a bit of `m`. */
  lemma AllInside(x: bv64, m: bv64)
    requires x & !m == 0
    ensures forall b :: SingleBit(b) && Has(x, b) ==> Has(m, b)
  {
    forall b | SingleBit(b) && Has(x, b)
      ensures Has(m, b)
    {
      Inside(x, m, b);
    }
  }

  /** When `x` has a bit outside `m`, its lowest such bit is a single bit `m` lacks. */
  lemma SomeOutside(x: bv64, m: bv64) returns (b: bv64)
    requires x & !m != 0
    ensures SingleBit(b) && Has(x, b) && !Has(m, b)
  {
    b := (x & !m) & (0 - (x & !m));
  }

  /**
   * `x` has no bit outside `m` exactly when every single bit of `x` is a bit
   * of `m`; when it fails, the lowest offending bit is a witness.
   */
  lemma Within(x: bv64, m: bv64)
    ensures x & !m == 0 <==> forall b :: SingleBit(b) && Has(x, b) ==> Has(m, b)
  {
    if x & !m == 0 {
      AllInside(x, m);
    } else {
      var b := SomeOutside(x, m);
    }
  }
}
