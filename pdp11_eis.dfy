// The extended instruction set of the K1801VM2 (`pdp_mul`, `pdp_div`,
// `pdp_ash`, `pdp_ashc`): signed products and quotients on C `int`s, and
// the shift loops of ASH and ASHC as recursive functions over the count.

module Pdp11Eis {
  import opened Common
  import opened Pdp11
  import opened Pdp11Alu

  // ---------------------------------------------------------------------
  // C `int`s as 32-bit two's complement values

  /** Bit 31: the sign of an `int`. */
  predicate Neg32(x: bv32)
  {
    x & 0x8000_0000 != 0
  }

  /** `x < y` on signed 32-bit values: with the sign bits flipped, two's complement order becomes unsigned order. */
  predicate Below(x: bv32, y: bv32)
  {
    x ^ 0x8000_0000 < y ^ 0x8000_0000
  }

  /** A word as a `signed short` promoted to `int`: sign-extended. */
  function Widen(v: bv16): bv32
  {
    if Neg16(v) then v as bv32 | 0xffff_0000 else v as bv32
  }

  /** The register pair `(Rn << 16) | Rn+1`. */
  function Join(hi: bv16, lo: bv16): bv32
  {
    (hi as bv32 << 16) | lo as bv32
  }

  /** `(x >> 16) & 0xffff` */
  function HighHalf(x: bv32): bv16
  {
    (x >> 16) as bv16
  }

  /** `x & 0xffff` */
  function LowHalf(x: bv32): bv16
  {
    (x & 0xffff) as bv16
  }

  /** The halves of a joined pair are its words, and a value is the join of its halves. */
  lemma JoinHalves(hi: bv16, lo: bv16, x: bv32)
    ensures HighHalf(Join(hi, lo)) == hi && LowHalf(Join(hi, lo)) == lo
    ensures Join(HighHalf(x), LowHalf(x)) == x
  {
  }

  /** `-(1 << 15) <= x <= (1 << 15) - 1`: a signed word can hold `x`. */
  predicate InWord(x: bv32)
  {
    !Below(x, 0xffff_8000) && !Below(0x7fff, x)
  }

  /** A value a signed word can hold is its low word sign-extended. */
  lemma Fits(x: bv32)
    requires InWord(x)
    ensures Widen(LowHalf(x)) == x
  {
    TopBitsAgree(x);
    if x & 0xffff_8000 == 0 {
      FitsAbove(x);
    } else {
      FitsBelow(x);
    }
  }

  lemma TopBitsAgree(x: bv32)
    requires InWord(x)
    ensures x & 0xffff_8000 == 0 || x & 0xffff_8000 == 0xffff_8000
  {
  }

  lemma FitsAbove(x: bv32)
    requires x & 0xffff_8000 == 0
    ensures Widen(LowHalf(x)) == x
  {
  }

  lemma FitsBelow(x: bv32)
    requires x & 0xffff_8000 == 0xffff_8000
    ensures Widen(LowHalf(x)) == x
  {
  }

  // ---------------------------------------------------------------------
  // MUL

  /**
   * The product MUL forms in a 32-bit `int`: source times register, both
   * signed words.  Its magnitude is at most 2^30, so the 32-bit value is
   * the exact product.
   */
  function Product(src: bv16, reg: bv16): bv32
  {
    Widen(src) * Widen(reg)
  }

  /**
   * The carry of MUL as the source computes it: the bounds are written
   * `-(2 << 15)` and `(2 << 15) - 1`, which are -65536 and 65535.
   */
  predicate MulCarryAsWritten(res: bv32)
  {
    Below(res, 0xffff_0000) || !Below(res, 0xffff)
  }

  /**
   * The carry of MUL with the DEC handbook's rule: set when the product is below -(1 << 15)
   * or at least (1 << 15) - 1, so that 32767 itself sets C.
   */
  predicate MulCarry(res: bv32)
  {
    Below(res, 0xffff_8000) || !Below(res, 0x7fff)
  }

  /** 200 times 200 is 40000, which no signed word holds, yet the carry as written stays clear. */
  lemma MulCarryMissed()
    ensures Product(200, 200) == 40000
    ensures !MulCarryAsWritten(Product(200, 200))
    ensures Widen(LowHalf(Product(200, 200))) != Product(200, 200)
    ensures MulCarry(Product(200, 200))
  {
  }

  /** With the corrected bounds, a clear carry means that the low word alone holds the product. */
  lemma MulCarryClear(src: bv16, reg: bv16)
    requires !MulCarry(Product(src, reg))
    ensures Widen(LowHalf(Product(src, reg))) == Product(src, reg)
  {
    BelowBound(Product(src, reg));
    Fits(Product(src, reg));
  }

  lemma BelowBound(x: bv32)
    requires Below(x, 0x7fff)
    ensures !Below(0x7fff, x)
  {
  }

  /** A product that no signed word holds sets the corrected carry. */
  lemma MulCarrySet(src: bv16, reg: bv16)
    requires !InWord(Product(src, reg))
    ensures MulCarry(Product(src, reg))
  {
    if !MulCarry(Product(src, reg)) {
      BelowBound(Product(src, reg));
    }
  }

  // ---------------------------------------------------------------------
  // DIV

  /**
   * C division of a 32-bit `int` by a positive divisor: the quotient of the
   * magnitudes, negated for a negative dividend (truncation toward zero).
   */
  function Quot(a: bv32, d: bv32): bv32
    requires d != 0
  {
    if Neg32(a) then -((-a) / d) else a / d
  }

  /** C remainder: it takes the sign of the dividend. */
  function Rem(a: bv32, d: bv32): bv32
    requires d != 0
  {
    if Neg32(a) then -((-a) % d) else a % d
  }

  /** The quotient rounds toward zero and the remainder keeps the dividend's sign: -7 by 2 is -3 remainder -1. */
  lemma DivTruncates()
    ensures Quot(0xffff_fff9, 2) == 0xffff_fffd && Rem(0xffff_fff9, 2) == 0xffff_ffff
    ensures Quot(7, 2) == 3 && Rem(7, 2) == 1
  {
  }

  /** The overflow of DIV as the source computes it: a zero dividend, or a quotient outside -(2 << 15) .. (2 << 15) - 1. */
  predicate DivOverflowAsWritten(dividend: bv32, res: bv32)
  {
    dividend == 0 || Below(res, 0xffff_0000) || Below(0xffff, res)
  }

  /** The overflow of DIV with the bounds a word quotient needs. */
  predicate DivOverflow(dividend: bv32, res: bv32)
  {
    dividend == 0 || !InWord(res)
  }

  /** Dividing 40000 by 1 gives a quotient no signed word holds, yet V as written stays clear. */
  lemma DivOverflowMissed()
    ensures Quot(40000, 1) == 40000
    ensures !DivOverflowAsWritten(40000, Quot(40000, 1))
    ensures Widen(LowHalf(Quot(40000, 1))) != Quot(40000, 1)
    ensures DivOverflow(40000, Quot(40000, 1))
  {
  }

  /** With the corrected bounds, a clear V means that the quotient register holds the whole quotient. */
  lemma DivOverflowClear(dividend: bv32, divisor: bv32)
    requires divisor != 0 && !DivOverflow(dividend, Quot(dividend, divisor))
    ensures Widen(LowHalf(Quot(dividend, divisor))) == Quot(dividend, divisor)
  {
    Fits(Quot(dividend, divisor));
  }

  // ---------------------------------------------------------------------
  // ASH: the shift loops on one word

  /** `n` rounds of the left-shift loop of `pdp_ash`: C takes bit 15, then the word moves up. */
  function ShiftLeft(v: bv16, n: bv16, c: bool): (bv16, bool)
    decreases n
  {
    if n == 0 then (v, c) else ShiftLeft(v << 1, n - 1, Neg16(v))
  }

  /** `n` rounds of the right-shift loop: C takes bit 0, then the word moves down keeping bit 15. */
  function ShiftRight(v: bv16, n: bv16, c: bool): (bv16, bool)
    decreases n
  {
    if n == 0 then (v, c) else ShiftRight(HalfWord(v), n - 1, Has(v, 1))
  }

  /** One arithmetic step right: the sign stays, the rest moves down. */
  function HalfWord(v: bv16): bv16
  {
    (v & 0x8000) | (v >> 1)
  }

  /** The count field of ASH and ASHC: the low six bits of the source, bit 5 meaning "right". */
  function Count(src: bv16): bv16
  {
    src & 0x3f
  }

  /** ASH: a count with bit 5 set shifts right `0x40 - count` places, any other shifts left `count` places. */
  function ArithShift(v: bv16, src: bv16, c: bool): (bv16, bool)
  {
    var k := Count(src);
    if Has(k, 0x20) then ShiftRight(v, 0x40 - k, c) else ShiftLeft(v, k, c)
  }

  lemma ShiftStep(v: bv16, n: bv16)
    requires 0 < n <= 16
    ensures (v << 1) << (n - 1) == v << n
  {
  }

  /** The left-shift loop computes the shift `v << n`. */
  lemma {:induction false} LeftIsShift(v: bv16, n: bv16, c: bool)
    requires n <= 16
    ensures ShiftLeft(v, n, c).0 == v << n
    decreases n
  {
    if n != 0 {
      LeftIsShift(v << 1, n - 1, Neg16(v));
      ShiftStep(v, n);
    }
  }

  /** A zero count changes neither the word nor C. */
  lemma ZeroCount(v: bv16, c: bool)
    ensures ShiftLeft(v, 0, c) == (v, c) && ShiftRight(v, 0, c) == (v, c)
  {
  }

  lemma SignStep(v: bv16)
    ensures Neg16(HalfWord(v)) == Neg16(v)
  {
  }

  /** The right-shift loop keeps the sign bit: ASH right is an arithmetic shift. */
  lemma {:induction false} RightKeepsSign(v: bv16, n: bv16, c: bool)
    ensures Neg16(ShiftRight(v, n, c).0) == Neg16(v)
    decreases n
  {
    if n != 0 {
      RightKeepsSign(HalfWord(v), n - 1, Has(v, 1));
      SignStep(v);
    }
  }

  /** A right count takes 1 to 32 rounds, a left count 0 to 31. */
  lemma CountRange(src: bv16)
    ensures Has(Count(src), 0x20) ==> 1 <= 0x40 - Count(src) <= 0x20
    ensures !Has(Count(src), 0x20) ==> Count(src) < 0x20
  {
  }

  // ---------------------------------------------------------------------
  // ASHC: the shift loops on the register pair as one 32-bit value

  function ShiftLeft32(x: bv32, n: bv16, c: bool): (bv32, bool)
    decreases n
  {
    if n == 0 then (x, c) else ShiftLeft32(x << 1, n - 1, Neg32(x))
  }

  /** The right shift of a signed `int`: the sign is copied down. */
  function HalfLong(x: bv32): bv32
  {
    (x & 0x8000_0000) | (x >> 1)
  }

  function ShiftRight32(x: bv32, n: bv16, c: bool): (bv32, bool)
    decreases n
  {
    if n == 0 then (x, c) else ShiftRight32(HalfLong(x), n - 1, x & 1 != 0)
  }

  /** ASHC: as ASH, on the register pair. */
  function ArithShiftPair(x: bv32, src: bv16, c: bool): (bv32, bool)
  {
    var k := Count(src);
    if Has(k, 0x20) then ShiftRight32(x, 0x40 - k, c) else ShiftLeft32(x, k, c)
  }

  lemma ShiftStep32(x: bv32, n: bv16)
    requires 0 < n <= 32
    ensures (x << 1) << (n - 1) as bv32 == x << n as bv32
  {
  }

  /** The left-shift loop of ASHC computes the shift of the pair. */
  lemma {:induction false} LeftIsShift32(x: bv32, n: bv16, c: bool)
    requires n <= 32
    ensures ShiftLeft32(x, n, c).0 == x << n as bv32
    decreases n
  {
    if n != 0 {
      LeftIsShift32(x << 1, n - 1, Neg32(x));
      ShiftStep32(x, n);
    }
  }

  lemma SignStep32(x: bv32)
    ensures Neg32(HalfLong(x)) == Neg32(x)
  {
  }

  /** The right-shift loop of ASHC keeps the sign of the pair. */
  lemma {:induction false} RightKeepsSign32(x: bv32, n: bv16, c: bool)
    ensures Neg32(ShiftRight32(x, n, c).0) == Neg32(x)
    decreases n
  {
    if n != 0 {
      RightKeepsSign32(HalfLong(x), n - 1, x & 1 != 0);
      SignStep32(x);
    }
  }
}
