// What the 80286 register-and-flag arithmetic of I286Alu means.

module I286AluFacts {
  import opened Common
  import opened I286
  import opened I286Alu

  // ---------------------------------------------------------------------------
  // inc / dec

  /** The flags inc/dec leave alone: C, T, I, D, N and IOPL. */
  predicate KeepsOthers(f: Flags, g: Flags)
  {
    g.(o := f.o, s := f.s, z := f.z, a := f.a, p := f.p) == f
  }

  /** INC of a byte: the next value; O iff the operand was 7F, A iff its low digit was F, Z iff it was FF; C kept. */
  lemma Inc8Flags(env: Env, f: Flags, r: bv8)
    ensures Inc8(env, f, r).0 == r + 1
    ensures Inc8(env, f, r).1.o <==> r == 0x7f
    ensures Inc8(env, f, r).1.a <==> r & 15 == 15
    ensures Inc8(env, f, r).1.z <==> r == 0xff
    ensures Inc8(env, f, r).1.c == f.c && KeepsOthers(f, Inc8(env, f, r).1)
  {}

  /** DEC of a byte: O iff the operand was 80, A iff its low digit was 0, Z iff it was 01; C kept. */
  lemma Dec8Flags(env: Env, f: Flags, r: bv8)
    ensures Dec8(env, f, r).0 == r - 1
    ensures Dec8(env, f, r).1.o <==> r == 0x80
    ensures Dec8(env, f, r).1.a <==> r & 15 == 0
    ensures Dec8(env, f, r).1.z <==> r == 1
    ensures Dec8(env, f, r).1.c == f.c && KeepsOthers(f, Dec8(env, f, r).1)
  {}

  lemma SuccFacts(r: bv16)
    ensures Succ(r) == 0x8000 <==> r == 0x7fff
    ensures Succ(r) == 0 <==> r == 0xffff
    ensures Lo(Succ(r)) & 15 == 0 <==> Lo(r) & 15 == 15
  {}

  lemma PredFacts(r: bv16)
    ensures Pred(r) == 0x7fff <==> r == 0x8000
    ensures Pred(r) == 0 <==> r == 1
    ensures Lo(Pred(r)) & 15 == 15 <==> Lo(r) & 15 == 0
  {}

  /** INC of a word: O iff the operand was 7FFF, A iff its low digit was F, Z iff it was FFFF; C kept. */
  lemma Inc16Flags(env: Env, f: Flags, r: bv16)
    ensures Inc16(env, f, r).0 == Succ(r)
    ensures Inc16(env, f, r).1.o <==> r == 0x7fff
    ensures Inc16(env, f, r).1.a <==> Lo(r) & 15 == 15
    ensures Inc16(env, f, r).1.z <==> r == 0xffff
    ensures Inc16(env, f, r).1.c == f.c && KeepsOthers(f, Inc16(env, f, r).1)
  {
    SuccFacts(r);
  }

  /** DEC of a word: O iff the operand was 8000, A iff its low digit was 0, Z iff it was 0001; C kept. */
  lemma Dec16Flags(env: Env, f: Flags, r: bv16)
    ensures Dec16(env, f, r).0 == Pred(r)
    ensures Dec16(env, f, r).1.o <==> r == 0x8000
    ensures Dec16(env, f, r).1.a <==> Lo(r) & 15 == 0
    ensures Dec16(env, f, r).1.z <==> r == 1
    ensures Dec16(env, f, r).1.c == f.c && KeepsOthers(f, Dec16(env, f, r).1)
  {
    PredFacts(r);
  }

  /** DEC undoes INC on the value, at both widths. */
  lemma IncDecInverse(env: Env, f: Flags, b: bv8, w: bv16)
    ensures Dec8(env, Inc8(env, f, b).1, Inc8(env, f, b).0).0 == b
    ensures Dec16(env, Inc16(env, f, w).1, Inc16(env, f, w).0).0 == w
  {
    SuccPred(w);
  }

  // ---------------------------------------------------------------------------
  // ALU dispatch

  /** The opcode rows and the reg field number the operations ADD OR ADC SBB AND SUB XOR CMP. */
  lemma AluOrder(n: bv8)
    ensures AluOf(n) == AluOf(n & 7)
    ensures AluOf(0) == AddOp && AluOf(1) == OrOp && AluOf(2) == AdcOp && AluOf(3) == SbbOp
    ensures AluOf(4) == AndOp && AluOf(5) == SubOp && AluOf(6) == XorOp && AluOf(7) == CmpOp
    ensures Stores(AluOf(n)) <==> n & 7 != 7
  {}

  /** CMP computes exactly what SUB computes; the two differ only in whether the result is stored. */
  lemma CmpIsSub(env: Env, f: Flags, a: bv16, b: bv16, wide: bool)
    ensures Alu(env, CmpOp, f, a, b, wide) == Alu(env, SubOp, f, a, b, wide)
    ensures Stores(SubOp) && !Stores(CmpOp)
  {}

  /** ADC and SBB add the carry in, ADD and SUB do not. */
  lemma CarryIn(env: Env, f: Flags, a: bv8, b: bv8)
    ensures Alu8(env, AdcOp, f, a, b) == env.add8(f, a, b, f.c)
    ensures Alu8(env, SbbOp, f, a, b) == env.sub8(f, a, b, f.c)
    ensures Alu8(env, AddOp, f, a, b) == env.add8(f, a, b, false)
  {}

  // ---------------------------------------------------------------------------
  // Jcc

  /** The odd Jcc opcodes test the negation of the condition of the even opcode below them. */
  lemma CondPairs(f: Flags, k: bv8)
    requires k < 8
    ensures Holds(f, CondOf(2 * k + 1)) <==> !Holds(f, CondOf(2 * k))
  {}

  /** JBE / JA are the unsigned "below or equal" of a CMP's C and Z; JL is S != O. */
  lemma CondMeaning(f: Flags)
    ensures Holds(f, CondOf(0x76)) <==> f.c || f.z
    ensures Holds(f, CondOf(0x7c)) <==> f.s != f.o
    ensures Holds(f, CondOf(0x7e)) <==> Holds(f, CondOf(0x74)) || Holds(f, CondOf(0x7c))
    ensures Holds(f, CondOf(0x7f)) <==> !Holds(f, CondOf(0x74)) && !Holds(f, CondOf(0x7c))
  {}

  // ---------------------------------------------------------------------------
  // CBW / CWD, SAHF / LAHF

  /** CBW makes AX the signed value of AL and keeps AL. */
  lemma CbwExtends(r: Regs)
    ensures SWord(Cbw(r).ax) == SByte(AL(r))
    ensures AL(Cbw(r)) == AL(r) && Cbw(r).(ax := r.ax) == r
  {}

  /** CWD makes DX all copies of the sign bit of AX and keeps AX. */
  lemma CwdExtends(r: Regs)
    ensures Cwd(r).dx == (if SWord(r.ax) < 0 then 0xffff else 0x0000)
    ensures Cwd(r).(dx := r.dx) == r
  {}

  lemma MergeByte(x: bv8, y: bv8)
    ensures (y & !0xd5) | ((((x & !0xd5) | (y & 0xd5))) & 0xd5) == y
    ensures (((x & !0xd5) | (y & 0xd5))) & !0xd5 == x & !0xd5
  {}

  /** LAHF after SAHF gives AH back; SAHF keeps the high byte and the low-byte bits outside S, Z, A, P, C. */
  lemma SahfLahf(w: bv16, ah: bv8)
    ensures LahfByte(ah, SahfWord(w, ah)) == ah
    ensures Hi(SahfWord(w, ah)) == Hi(w) && Lo(SahfWord(w, ah)) & !0xd5 == Lo(w) & !0xd5
  {
    WordHalves(Hi(w), (Lo(w) & !0xd5) | (ah & 0xd5));
    MergeByte(Lo(w), ah);
  }

  lemma MergeBack(x: bv8, y: bv8)
    ensures (x & !0xd5) | (((y & !0xd5) | (x & 0xd5)) & 0xd5) == x
  {}

  /** SAHF of the AH that LAHF made gives the flag word back. */
  lemma LahfSahf(w: bv16, ah: bv8)
    ensures SahfWord(w, LahfByte(ah, w)) == w
  {
    MergeBack(Lo(w), ah);
    WordOfHalves(w);
  }

  // ---------------------------------------------------------------------------
  // DAA: the decimal adjust after an addition of two packed BCD bytes

  /** The flags a binary addition of `a` and `b` sets for DAA: the carries out of bit 7 and bit 3. */
  function AddCarries(f: Flags, a: bv8, b: bv8): Flags
  {
    f.(c := Widen(a) + Widen(b) > 0xff, a := (a & 15) + (b & 15) > 15)
  }

  /** Decimal addition digit by digit: the packed BCD sum of h1 l1 and h2 l2 and the decimal carry. */
  function BcdSum(h1: bv8, l1: bv8, h2: bv8, l2: bv8): (bv8, bool)
    requires h1 <= 9 && l1 <= 9 && h2 <= 9 && l2 <= 9
  {
    var low := l1 + l2;
    var c1 := low > 9;
    var high := h1 + h2 + (if c1 then 1 else 0);
    var c2 := high > 9;
    ((if c2 then high - 10 else high) * 16 + (if c1 then low - 10 else low), c2)
  }

  lemma DaaNoCarries(env: Env, f: Flags, h1: bv8, l1: bv8, h2: bv8, l2: bv8)
    requires h1 <= 9 && l1 <= 9 && h2 <= 9 && l2 <= 9 && l1 + l2 <= 9 && h1 + h2 <= 9
    ensures var a := h1 * 16 + l1; var b := h2 * 16 + l2;
      var y := Daa(env, Acc(a + b, 0, AddCarries(f, a, b)));
      (y.al, y.f.c) == BcdSum(h1, l1, h2, l2)
  {}

  lemma DaaLowCarry(env: Env, f: Flags, h1: bv8, l1: bv8, h2: bv8, l2: bv8)
    requires h1 <= 9 && l1 <= 9 && h2 <= 9 && l2 <= 9 && l1 + l2 > 9 && h1 + h2 + 1 <= 9
    ensures var a := h1 * 16 + l1; var b := h2 * 16 + l2;
      var y := Daa(env, Acc(a + b, 0, AddCarries(f, a, b)));
      (y.al, y.f.c) == BcdSum(h1, l1, h2, l2)
  {}

  lemma DaaHighCarry(env: Env, f: Flags, h1: bv8, l1: bv8, h2: bv8, l2: bv8)
    requires h1 <= 9 && l1 <= 9 && h2 <= 9 && l2 <= 9 && l1 + l2 <= 9 && h1 + h2 > 9
    ensures var a := h1 * 16 + l1; var b := h2 * 16 + l2;
      var y := Daa(env, Acc(a + b, 0, AddCarries(f, a, b)));
      (y.al, y.f.c) == BcdSum(h1, l1, h2, l2)
  {}

  lemma DaaBothCarries(env: Env, f: Flags, h1: bv8, l1: bv8, h2: bv8, l2: bv8)
    requires h1 <= 9 && l1 <= 9 && h2 <= 9 && l2 <= 9 && l1 + l2 > 9 && h1 + h2 + 1 > 9
    ensures var a := h1 * 16 + l1; var b := h2 * 16 + l2;
      var y := Daa(env, Acc(a + b, 0, AddCarries(f, a, b)));
      (y.al, y.f.c) == BcdSum(h1, l1, h2, l2)
  {}

  /**
   * DAA after the binary addition of two packed BCD bytes h1 l1 and h2 l2 leaves in AL the
   * packed BCD digits of their decimal sum and in C the decimal carry.
   */
  lemma DaaAddsDecimal(env: Env, f: Flags, h1: bv8, l1: bv8, h2: bv8, l2: bv8)
    requires h1 <= 9 && l1 <= 9 && h2 <= 9 && l2 <= 9
    ensures var a := h1 * 16 + l1; var b := h2 * 16 + l2;
      var y := Daa(env, Acc(a + b, 0, AddCarries(f, a, b)));
      (y.al, y.f.c) == BcdSum(h1, l1, h2, l2)
  {
    if l1 + l2 <= 9 {
      if h1 + h2 <= 9 { DaaNoCarries(env, f, h1, l1, h2, l2); } else { DaaHighCarry(env, f, h1, l1, h2, l2); }
    } else {
      if h1 + h2 + 1 <= 9 { DaaLowCarry(env, f, h1, l1, h2, l2); } else { DaaBothCarries(env, f, h1, l1, h2, l2); }
    }
  }

  /**
   * The DAA as written after BCD 99 + 61, a binary sum of FA with no carries: it leaves 00 with
   * C clear, where the decimal sum 160 needs 60 with C set (which the corrected DAA gives).
   */
  lemma DaaAsWrittenMisses(env: Env, f: Flags)
    ensures var x := Acc(0x99 + 0x61, 0, AddCarries(f, 0x99, 0x61));
      x.al == 0xfa && !x.f.c && !x.f.a
      && DaaAsWritten(env, x).al == 0x00 && !DaaAsWritten(env, x).f.c
      && BcdSum(9, 9, 6, 1) == (0x60, true)
      && Daa(env, x).al == 0x60 && Daa(env, x).f.c
  {}

  // ---------------------------------------------------------------------------
  // Multiply and divide

  /** C's division: the quotient rounds toward zero and the remainder keeps the sign of the dividend. */
  lemma TruncDivMeaning(a: int, b: int)
    requires b != 0
    ensures TruncDiv(a, b) * b + TruncMod(a, b) == a
    ensures (if b > 0 then b else -b) > (if TruncMod(a, b) >= 0 then TruncMod(a, b) else -TruncMod(a, b))
    ensures TruncMod(a, b) == 0 || (TruncMod(a, b) > 0 <==> a > 0)
  {
    var n, d := if a >= 0 then a else -a, if b > 0 then b else -b;
    var t, m := TruncDiv(a, b), TruncMod(a, b);
    assert m == a - b * t;
    SumBack(a, b, t, m);
    TruncModForm(a, b, n, d);
    SignedRemainder(a, n, d, m);
  }

  lemma SumBack(a: int, b: int, t: int, m: int)
    requires m == a - b * t
    ensures t * b + m == a
  {
    assert t * b == b * t;
  }

  /** The magnitude remainder `n % d`, given the sign of `a`: below `d` in size, and zero or of a's sign. */
  lemma SignedRemainder(a: int, n: nat, d: int, m: int)
    requires d > 0 && n == (if a >= 0 then a else -a) && m == (if a >= 0 then n % d else -(n % d))
    ensures d > (if m >= 0 then m else -m)
    ensures m == 0 || (m > 0 <==> a > 0)
  {
    var r := n % d;
    assert 0 <= r < d;
    if a == 0 {
      assert n == 0;
      assert r == 0 by { assert n == d * (n / d) + r; }
    }
  }

  /** The remainder of C's division is the remainder of the magnitudes, with the sign of the dividend. */
  lemma TruncModForm(a: int, b: int, n: nat, d: nat)
    requires b != 0 && n == (if a >= 0 then a else -a) && d == (if b > 0 then b else -b)
    ensures TruncMod(a, b) == (if a >= 0 then n % d else -(n % d))
  {
    var q := n / d;
    assert n == d * q + n % d;
    if (a >= 0) == (b > 0) {
      assert TruncDiv(a, b) == q;
      if a >= 0 {
        assert b * q == d * q;
      } else {
        assert b * q == -(d * q) by { NegTimes(d, q); }
      }
    } else {
      assert TruncDiv(a, b) == -q;
      NegTimes(b, q);
      NegTimes(d, q);
      assert b * -q == (if b > 0 then -(d * q) else d * q);
    }
  }

  lemma NegTimes(d: int, q: int)
    ensures (-d) * q == -(d * q) && d * (-q) == -(d * q)
  {}

  /** DX:AX as one 32-bit value. */
  function Join(dx: bv16, ax: bv16): bv32
  {
    (dx as bv32 << 16) | ax as bv32
  }

  /** DX:AX, read as a signed 32-bit number, lies in -8000..7FFF: it fits in one signed word. */
  predicate FitsWord(dx: bv16, ax: bv16)
  {
    Join(dx, ax) + 0x8000 < 0x10000
  }

  lemma SignBit(ax: bv16)
    ensures HasAny(Hi(ax), 0x80) <==> ax >= 0x8000
  {}

  lemma FitsNegative(dx: bv16, ax: bv16)
    requires ax >= 0x8000
    ensures dx == 0xffff <==> FitsWord(dx, ax)
  {}

  lemma FitsPositive(dx: bv16, ax: bv16)
    requires ax < 0x8000
    ensures dx == 0 <==> FitsWord(dx, ax)
  {}

  lemma SignFill(dx: bv16, ax: bv16)
    ensures dx == (if HasAny(Hi(ax), 0x80) then 0xffff else 0x0000) <==> FitsWord(dx, ax)
  {
    SignBit(ax);
    if ax >= 0x8000 { FitsNegative(dx, ax); } else { FitsPositive(dx, ax); }
  }

  /** IMUL ew clears C and O exactly when the product DX:AX fits in AX as a signed word. */
  lemma ImulWordCarry(r: Regs, f: Flags, w: bv16)
    ensures !ImulWord(r, f, w).1.c <==> FitsWord(ImulWord(r, f, w).0.dx, ImulWord(r, f, w).0.ax)
    ensures ImulWord(r, f, w).1.o == ImulWord(r, f, w).1.c
  {
    SignFill(ImulWord(r, f, w).0.dx, ImulWord(r, f, w).0.ax);
  }

  /**
   * IMUL ew as written, for AX = FFFF (-1) times 1: the product -1 fits in AX, yet C and O
   * are set because DX = FFFF is compared with 00FF; the corrected IMUL clears them.
   */
  lemma ImulWordAsWrittenCarry(r: Regs, f: Flags)
    ensures ImulWordAsWritten(r.(ax := 0xffff), f, 1).0 == r.(ax := 0xffff, dx := 0xffff)
    ensures FitsWord(0xffff, 0xffff)
    ensures ImulWordAsWritten(r.(ax := 0xffff), f, 1).1.c
    ensures !ImulWord(r.(ax := 0xffff), f, 1).1.c
  {
    MinusOneProduct();
    FitsMinusOne();
  }

  /** FFFF times 1 is -1, whose low and high words are both FFFF, and AH has its sign bit set. */
  lemma MinusOneProduct()
    ensures SWord(1) * SWord(0xffff) == -1
    ensures Low16(-1) == 0xffff && HighWord(-1) == 0xffff && HasAny(Hi(0xffff), 0x80)
  {
    assert SWord(0xffff) == -1 by { assert HasAny(Hi(0xffff), 0x80); }
    assert SWord(1) == 1 by { assert !HasAny(Hi(1), 0x80); }
    assert -1 / 0x10000 == -1;
  }

  lemma FitsMinusOne()
    ensures FitsWord(0xffff, 0xffff)
  {}

  // ---------------------------------------------------------------------------
  // The shift group

  /** Repeating a rotate m + n times is repeating it m times, then n times. */
  lemma {:induction false} RotTimes8Split(env: Env, op: RotOp, f: Flags, v: bv8, m: nat, n: nat)
    ensures RotTimes8(env, op, f, v, m + n) ==
      var (v1, f1) := RotTimes8(env, op, f, v, m); RotTimes8(env, op, f1, v1, n)
    decreases m
  {
    if m > 0 {
      var (v1, f1) := env.rot8(op, f, v);
      RotTimes8Split(env, op, f1, v1, m - 1, n);
    }
  }

  /** The same for the word rotate. */
  lemma {:induction false} RotTimes16Split(env: Env, op: RotOp, f: Flags, v: bv16, m: nat, n: nat)
    ensures RotTimes16(env, op, f, v, m + n) ==
      var (v1, f1) := RotTimes16(env, op, f, v, m); RotTimes16(env, op, f1, v1, n)
    decreases m
  {
    if m > 0 {
      var (v1, f1) := env.rot16(op, f, v);
      RotTimes16Split(env, op, f1, v1, m - 1, n);
    }
  }

  /** Only five bits of the count are used, so at most 31 repeats; a count of 32 repeats nothing. */
  lemma ShiftCountBound(cnt: bv8)
    ensures ShiftCount(cnt) < 32
    ensures ShiftCount(cnt + 32) == ShiftCount(cnt)
    ensures ShiftCount(32) == 0
  {}

  /** The /6 rotate of the shift group is SAL, like /4. */
  lemma RotOrder()
    ensures RotOf(0) == Rol && RotOf(1) == Ror && RotOf(2) == Rcl && RotOf(3) == Rcr
    ensures RotOf(4) == Sal && RotOf(5) == Shr && RotOf(6) == Sal && RotOf(7) == Sar
  {}
}
