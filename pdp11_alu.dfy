// The arithmetic of the K1801VM1: what each operation computes from its
// operands and the old PSW, and how it sets the condition codes.  The
// handlers in `Pdp11Ops` fetch the operands and write the results.

module Pdp11Alu {
  import opened Common
  import opened Pdp11

  /** A result with the PSW it leaves. */
  datatype Out = Out(v: bv16, f: Psw)

  /** Bit 15 of a word: its sign. */
  predicate Neg16(v: bv16)
  {
    Has(v, 0x8000)
  }

  /** Bit 7 of a byte: its sign. */
  predicate Neg8(b: bv8)
  {
    HasAny(b, 0x80)
  }

  /** The PSW with N and Z set from a word result. */
  function NZ(p: Psw, r: bv16): Psw
  {
    p.(n := Neg16(r), z := r == 0)
  }

  /** The PSW with N and Z set from a byte result. */
  function NZb(p: Psw, r: bv8): Psw
  {
    p.(n := Neg8(r), z := r == 0)
  }

  // ---------------------------------------------------------------------
  // One-operand word operations

  datatype WordOp = Com | Inc | Dec | Neg | Adc | Sbc | Ror | Rol | Asr | Asl | Swab

  /** The high and low bytes exchanged. */
  function Swapped(v: bv16): bv16
  {
    Word(Lo(v), Hi(v))
  }

  /** Shifted right one place with `top` entering bit 15. */
  function ShiftIn(v: bv16, top: bool): bv16
  {
    (v >> 1) | Flag(top, 0x8000)
  }

  /** Shifted left one place with `low` entering bit 0. */
  function ShiftUp(v: bv16, low: bool): bv16
  {
    (v << 1) | Flag(low, 1)
  }

  /** One-operand word instruction: the result and the PSW, as `pdp_com` .. `pdp_asl` and `pdp_swab` compute them. */
  function UnaryWord(op: WordOp, v: bv16, p: Psw): Out
  {
    match op
    case Com =>
      var r := v ^ 0xffff; Out(r, NZ(p, r).(c := true, v := false))
    case Inc =>
      var r := Succ(v); Out(r, NZ(p, r).(v := r == 0x8000))
    case Dec =>
      var r := Pred(v); Out(r, NZ(p, r).(v := r == 0x7fff))
    case Neg =>
      var r := !v + 1; Out(r, NZ(p, r).(v := v == 0x8000))
    case Adc =>
      var r := if p.c then Succ(v) else v;
      Out(r, NZ(p, r).(v := r == 0x8000, c := p.c && r == 0))
    case Sbc =>
      var r := if p.c then Pred(v) else v;
      Out(r, NZ(p, r).(v := p.c && r == 0x7fff, c := p.c && r == 0xffff))
    case Ror =>
      var c := Has(v, 1); var r := ShiftIn(v, p.c);
      Out(r, NZ(p, r).(c := c, v := c != Neg16(r)))
    case Rol =>
      var c := Neg16(v); var r := ShiftUp(v, p.c);
      Out(r, NZ(p, r).(c := c, v := c != Neg16(r)))
    case Asr =>
      var c := Has(v, 1); var r := ShiftIn(v, Has(v >> 1, 0x4000));
      Out(r, NZ(p, r).(c := c, v := c != Neg16(r)))
    case Asl =>
      var c := Neg16(v); var r := ShiftUp(v, false);
      Out(r, NZ(p, r).(c := c, v := c != Neg16(r)))
    case Swab =>
      var r := Swapped(v);
      Out(r, p.(c := false, v := false, n := HasAny(Lo(r), 0x80), z := Lo(r) == 0))
  }

  /** COM undoes itself. */
  lemma ComTwice(v: bv16, p: Psw)
    ensures UnaryWord(Com, UnaryWord(Com, v, p).v, p).v == v
  {
  }

  /** NEG undoes itself. */
  lemma NegTwice(v: bv16, p: Psw)
    ensures UnaryWord(Neg, UnaryWord(Neg, v, p).v, p).v == v
  {
  }

  /** SWAB undoes itself. */
  lemma SwabTwice(v: bv16, p: Psw)
    ensures UnaryWord(Swab, UnaryWord(Swab, v, p).v, p).v == v
  {
    WordOfHalves(v);
    WordHalves(Lo(v), Hi(v));
  }

  /** DEC undoes INC. */
  lemma DecUndoesInc(v: bv16, p: Psw)
    ensures UnaryWord(Dec, UnaryWord(Inc, v, p).v, p).v == v
  {
    SuccPred(v);
  }

  /** NEG overflows exactly on the most negative word, the one it maps to itself. */
  lemma NegOverflow(v: bv16, p: Psw)
    ensures UnaryWord(Neg, v, p).f.v <==> v == 0x8000
    ensures UnaryWord(Neg, v, p).v == 0 - v
  {
  }

  /** ROL with the carry ROR left behind restores the word and the carry. */
  lemma RolUndoesRor(v: bv16, p: Psw)
    ensures var o := UnaryWord(Ror, v, p);
      UnaryWord(Rol, o.v, o.f).v == v && UnaryWord(Rol, o.v, o.f).f.c == p.c
  {
  }

  /** ROR with the carry ROL left behind restores the word and the carry. */
  lemma RorUndoesRol(v: bv16, p: Psw)
    ensures var o := UnaryWord(Rol, v, p);
      UnaryWord(Ror, o.v, o.f).v == v && UnaryWord(Ror, o.v, o.f).f.c == p.c
  {
    RotateBack(v, p.c);
  }

  /** Shifting left with `low` entering and back right with the lost sign entering gives the word back. */
  lemma RotateBack(v: bv16, low: bool)
    ensures ShiftIn(ShiftUp(v, low), Neg16(v)) == v && Has(ShiftUp(v, low), 1) == low
  {
    ShiftedBack(v, low);
    SignRestored(v);
  }

  lemma ShiftedBack(v: bv16, low: bool)
    ensures ShiftUp(v, low) >> 1 == v & 0x7fff
  {
  }

  /** The low fifteen bits of a word with its own sign put back are the word. */
  lemma SignRestored(v: bv16)
    ensures (v & 0x7fff) | Flag(Neg16(v), 0x8000) == v
  {
    if Neg16(v) {
      NegativeRestored(v);
    } else {
      PositiveRestored(v);
    }
  }

  lemma NegativeRestored(v: bv16)
    requires v & 0x8000 != 0
    ensures (v & 0x7fff) | 0x8000 == v
  {
  }

  lemma PositiveRestored(v: bv16)
    requires v & 0x8000 == 0
    ensures v & 0x7fff == v
  {
  }

  /** ASL doubles the word and moves its sign into C. */
  lemma AslDoubles(v: bv16, p: Psw)
    ensures UnaryWord(Asl, v, p).v == v + v && UnaryWord(Asl, v, p).f.c == Neg16(v)
  {
  }

  /** ASR keeps the sign and moves bit 0 into C. */
  lemma AsrKeepsSign(v: bv16, p: Psw)
    ensures Neg16(UnaryWord(Asr, v, p).v) == Neg16(v) && UnaryWord(Asr, v, p).f.c == Has(v, 1)
  {
    if Neg16(v) {
    } else {
    }
  }

  /** ASL after ASR loses only bit 0. */
  lemma AslAfterAsr(v: bv16, p: Psw)
    ensures UnaryWord(Asl, UnaryWord(Asr, v, p).v, p).v == v & 0xfffe
  {
    if Neg16(v) {
    } else {
    }
  }

  /** ADC adds the carry, and sets C exactly when that wraps the word round to 0. */
  lemma AdcAddsCarry(v: bv16, p: Psw)
    ensures UnaryWord(Adc, v, p).v == v + Flag(p.c, 1)
    ensures UnaryWord(Adc, v, p).f.c <==> p.c && v == 0xffff
  {
    if p.c {
      SuccPred(v);
    }
  }

  /** SBC subtracts the carry, and sets C exactly when that borrows from 0. */
  lemma SbcSubtractsCarry(v: bv16, p: Psw)
    ensures UnaryWord(Sbc, v, p).v == v - Flag(p.c, 1)
    ensures UnaryWord(Sbc, v, p).f.c <==> p.c && v == 0
  {
    if p.c {
      SuccPred(v);
    }
  }

  // ---------------------------------------------------------------------
  // One-operand byte operations

  datatype ByteOp = Comb | Incb | Decb | Negb | Adcb | Sbcb | Rorb | Rolb | Asrb | Aslb

  /** One-operand byte instruction: the result byte and the PSW, as `pdp_comb` .. `pdp_aslb` compute them. */
  function UnaryByte(op: ByteOp, b: bv8, p: Psw): (bv8, Psw)
  {
    match op
    case Comb =>
      var r := b ^ 0xff; (r, NZb(p, r).(v := false, c := true))
    case Incb =>
      var r := b + 1; (r, NZb(p, r).(v := r == 0x80))
    case Decb =>
      var r := b - 1; (r, NZb(p, r).(v := r == 0x7f))
    case Negb =>
      var r := 0 - b; (r, NZb(p, r).(c := r != 0, v := r == 0x80))
    case Adcb =>
      var r := if p.c then b + 1 else b;
      (r, NZb(p, r).(v := p.c && r == 0x80, c := p.c && r == 0))
    case Sbcb =>
      var r := if p.c then b - 1 else b;
      (r, NZb(p, r).(v := p.c && r == 0x7f, c := p.c && r == 0xff))
    case Rorb =>
      var c := HasAny(b, 1); var r := (b >> 1) | Bit(p.c, 0x80);
      (r, NZb(p, r).(c := c, v := c != Neg8(r)))
    case Rolb =>
      var c := Neg8(b); var r := ((b << 1) & 0xfe) | Bit(p.c, 1);
      (r, NZb(p, r).(c := c, v := c != Neg8(r)))
    case Asrb =>
      var c := HasAny(b, 1); var h := b >> 1; var r := h | Bit(HasAny(h, 0x40), 0x80);
      (r, NZb(p, r).(c := c, v := c != Neg8(r)))
    case Aslb =>
      var c := Neg8(b); var r := (b << 1) & 0xfe;
      (r, NZb(p, r).(c := c, v := c != Neg8(r)))
  }

  /** ROLB with the carry RORB left behind restores the byte and the carry. */
  lemma RolbUndoesRorb(b: bv8, p: Psw)
    ensures var (r, f) := UnaryByte(Rorb, b, p); UnaryByte(Rolb, r, f).0 == b && UnaryByte(Rolb, r, f).1.c == p.c
  {
  }

  /** RORB with the carry ROLB left behind restores the byte and the carry. */
  lemma RorbUndoesRolb(b: bv8, p: Psw)
    ensures var (r, f) := UnaryByte(Rolb, b, p); UnaryByte(Rorb, r, f).0 == b && UnaryByte(Rorb, r, f).1.c == p.c
  {
  }

  /** NEGB borrows (sets C) unless the byte is zero, and overflows only on 80. */
  lemma NegbFlags(b: bv8, p: Psw)
    ensures UnaryByte(Negb, b, p).1.c <==> b != 0
    ensures UnaryByte(Negb, b, p).1.v <==> b == 0x80
  {
  }

  // ---------------------------------------------------------------------
  // Two-operand operations

  /** CMP: computes `s - d` for the condition codes only. */
  function Compare(s: bv16, d: bv16, p: Psw): Psw
  {
    var r := s - d;
    NZ(p, r).(c := s < d, v := Neg16(s ^ d) && Neg16(s ^ r))
  }

  /** CMPB: the same on bytes. */
  function CompareByte(s: bv8, d: bv8, p: Psw): Psw
  {
    var r := s - d;
    NZb(p, r).(c := s < d, v := Neg8(s ^ d) && Neg8(s ^ r))
  }

  /**
   * `s` is below `d` as signed bytes: with the sign bits flipped, two's
   * complement order becomes unsigned order.
   */
  predicate SignedBelowByte(s: bv8, d: bv8)
  {
    s ^ 0x80 < d ^ 0x80
  }

  /** After CMP, Z says the operands are equal. */
  lemma CompareEqual(s: bv16, d: bv16, p: Psw)
    ensures Compare(s, d, p).z <==> s == d
  {
    ZeroDifference(s, d);
  }

  lemma ZeroDifference(s: bv16, d: bv16)
    ensures s - d == 0 <==> s == d
  {
  }

  /** After CMPB, Z says the bytes are equal and N xor V that the source is below the destination as signed bytes. */
  lemma CompareBytesOrders(s: bv8, d: bv8, p: Psw)
    ensures CompareByte(s, d, p).z <==> s == d
    ensures (CompareByte(s, d, p).n != CompareByte(s, d, p).v) <==> SignedBelowByte(s, d)
  {
    SignedOrderByte(s, d);
  }

  lemma SignedOrderByte(s: bv8, d: bv8)
    ensures (Neg8(s - d) != (Neg8(s ^ d) && Neg8(s ^ (s - d)))) <==> SignedBelowByte(s, d)
  {
  }

  /**
   * ADD: the sum and the carry out of bit 15, which is set when the
   * wrapped sum is below an operand.  V is set when the operands have the
   * same sign and the sum is negative.
   */
  function AddWords(s: bv16, d: bv16, p: Psw): Out
  {
    var r := s + d;
    Out(r, NZ(p, r).(c := r < s, v := !Neg16(s ^ d) && Neg16(r)))
  }

  /**
   * SUB: `d - s` and the borrow.  V is set when the operands differ in sign
   * and the difference is not negative.
   */
  function SubWords(s: bv16, d: bv16, p: Psw): Out
  {
    var r := d - s;
    Out(r, NZ(p, r).(c := s > d, v := Neg16(s ^ d) && !Neg16(r)))
  }

  /** ADD leaves the 16-bit sum. */
  lemma AddSum(s: bv16, d: bv16, p: Psw)
    ensures AddWords(s, d, p).v == s + d
  {
  }

  /** ADD sets C exactly when the full sum of the operands does not fit in 16 bits. */
  lemma AddCarry(s: bv16, d: bv16, p: Psw)
    ensures AddWords(s, d, p).f.c <==> s as bv32 + d as bv32 > 0xffff
  {
  }

  /** SUB of the source undoes ADD of it: from the sum `s + d` that ADD stores, SUB gives back `d`. */
  lemma SubUndoesAdd(s: bv16, d: bv16, p: Psw)
    ensures SubWords(s, s + d, p).v == d
  {
    AddThenSubtract(s, d);
  }


  lemma AddThenSubtract(s: bv16, d: bv16)
    ensures (s + d) - s == d
  {
  }

  /** After SUB, Z says the operands are equal. */
  lemma SubEqual(s: bv16, d: bv16, p: Psw)
    ensures SubWords(s, d, p).f.z <==> s == d
  {
    ZeroDifference(d, s);
  }

  /**
   * The V rules as written at work: FFFF + FFFF (-1 + -1) sets V and 8000 + 8000 leaves it
   * clear, and 0001 - FFFF (1 - -1) sets it.
   */
  lemma OverflowAsWritten(p: Psw)
    ensures AddWords(0xFFFF, 0xFFFF, p).f.v && !AddWords(0x8000, 0x8000, p).f.v
    ensures SubWords(0xFFFF, 0x0001, p).f.v
  {
  }

  datatype Logic = Bic | Bis | BitTest

  /** BIC, BIS and BIT: the result and its N and Z; V is cleared and C kept. */
  function LogicWord(op: Logic, s: bv16, d: bv16, p: Psw): Out
  {
    var r := match op
      case Bic => d & !s
      case Bis => d | s
      case BitTest => d & s;
    Out(r, NZ(p, r).(v := false))
  }

  function LogicByte(op: Logic, s: bv8, d: bv8, p: Psw): (bv8, Psw)
  {
    var r := match op
      case Bic => d & !s
      case Bis => d | s
      case BitTest => d & s;
    (r, NZb(p, r).(v := false))
  }

  /** BIC clears in the destination exactly the bits the source sets, and keeps C. */
  lemma BicClears(s: bv16, d: bv16, p: Psw)
    ensures LogicWord(Bic, s, d, p).v & s == 0 && LogicWord(Bic, s, d, p).v | s == d | s
    ensures LogicWord(Bic, s, d, p).f.c == p.c
  {
    ClearedBits(s, d);
    KeptBits(s, d);
  }

  lemma ClearedBits(s: bv16, d: bv16)
    ensures (d & !s) & s == 0
  {
  }

  lemma KeptBits(s: bv16, d: bv16)
    ensures (d & !s) | s == d | s
  {
  }

  /** BIS sets in the destination exactly the bits the source sets, and keeps C. */
  lemma BisSets(s: bv16, d: bv16, p: Psw)
    ensures LogicWord(Bis, s, d, p).v & s == s && LogicWord(Bis, s, d, p).v & !s == d & !s
    ensures LogicWord(Bis, s, d, p).f.c == p.c
  {
    SetBits(s, d);
    OtherBits(s, d);
  }

  lemma SetBits(s: bv16, d: bv16)
    ensures (d | s) & s == s
  {
  }

  lemma OtherBits(s: bv16, d: bv16)
    ensures (d | s) & !s == d & !s
  {
  }

  /** BIT sets Z exactly when the operands share no bit. */
  lemma BitTests(s: bv16, d: bv16, p: Psw)
    ensures LogicWord(BitTest, s, d, p).f.z <==> d & s == 0
  {
  }

  // ---------------------------------------------------------------------
  // Branch conditions

  datatype Cond = Br | Bne | Beq | Bge | Blt | Bgt | Ble
                | Bpl | Bmi | Bhi | Blos | Bvc | Bvs | Bcc | Bcs

  /** Whether a conditional branch is taken under PSW `p`. */
  predicate Taken(c: Cond, p: Psw)
  {
    match c
    case Br => true
    case Bne => !p.z
    case Beq => p.z
    case Bge => p.n == p.v
    case Blt => p.n != p.v
    case Bgt => !(p.z || p.n != p.v)
    case Ble => p.z || p.n != p.v
    case Bpl => !p.n
    case Bmi => p.n
    case Bhi => !(p.c || p.z)
    case Blos => p.c || p.z
    case Bvc => !p.v
    case Bvs => p.v
    case Bcc => !p.c
    case Bcs => p.c
  }

  /** The opposite condition of each pair. */
  function Opposite(c: Cond): Cond
    requires c != Br
  {
    match c
    case Bne => Beq case Beq => Bne case Bge => Blt case Blt => Bge
    case Bgt => Ble case Ble => Bgt case Bpl => Bmi case Bmi => Bpl
    case Bhi => Blos case Blos => Bhi case Bvc => Bvs case Bvs => Bvc
    case Bcc => Bcs case Bcs => Bcc
  }

  /** Of each pair of conditional branches exactly one is taken. */
  lemma OppositesExclusive(c: Cond, p: Psw)
    requires c != Br
    ensures Taken(Opposite(c), p) <==> !Taken(c, p)
  {
  }

  /**
   * After `CMPB s, d` the signed branches compare `s` with `d` as signed
   * bytes and the unsigned ones as unsigned bytes.
   */
  lemma BranchesAfterCompareByte(s: bv8, d: bv8, p: Psw)
    ensures Taken(Beq, CompareByte(s, d, p)) <==> s == d
    ensures Taken(Blt, CompareByte(s, d, p)) <==> SignedBelowByte(s, d)
    ensures Taken(Bge, CompareByte(s, d, p)) <==> !SignedBelowByte(s, d)
    ensures Taken(Ble, CompareByte(s, d, p)) <==> SignedBelowByte(s, d) || s == d
    ensures Taken(Bgt, CompareByte(s, d, p)) <==> SignedBelowByte(d, s)
    ensures Taken(Bcs, CompareByte(s, d, p)) <==> s < d
    ensures Taken(Blos, CompareByte(s, d, p)) <==> s <= d
    ensures Taken(Bhi, CompareByte(s, d, p)) <==> s > d
  {
    CompareBytesOrders(s, d, p);
    SignedTrichotomyByte(s, d);
  }

  lemma SignedTrichotomyByte(s: bv8, d: bv8)
    ensures s != d && !SignedBelowByte(s, d) <==> SignedBelowByte(d, s)
  {
  }

  /** The branch displacement: twice the sign-extended low byte of the opcode (`pdp_jr`). */
  function Offset(com: bv16): bv16
  {
    var o := (com << 1) & 0x1fe;
    if Has(o, 0x100) then o | 0xff00 else o
  }

  /** The low byte of a word, sign-extended. */
  function SextByte(b: bv8): bv16
  {
    if Neg8(b) then Word(0xff, b) else Word(0, b)
  }

  /** The displacement is the sign-extended low byte added to itself: even, and negative with that byte. */
  lemma OffsetIsTwiceByte(com: bv16)
    ensures Offset(com) == SextByte(Lo(com)) + SextByte(Lo(com))
  {
  }

  lemma OffsetSign(com: bv16)
    ensures Neg16(Offset(com)) == Neg8(Lo(com)) && !Has(Offset(com), 1)
  {
  }

  // ---------------------------------------------------------------------
  // PSW instructions

  /** CL / SE: clear or set the NZVC bits named in the low nibble of the opcode. */
  function ClearCodes(p: Psw, com: bv16): Psw
  {
    Unpack(Pack(p) & !(com & 0x0f))
  }

  function SetCodes(p: Psw, com: bv16): Psw
  {
    Unpack(Pack(p) | (com & 0x0f))
  }

  /** CL clears exactly the condition codes selected by the opcode, and changes nothing else in the PSW. */
  lemma ClearSelected(p: Psw, com: bv16)
    ensures ClearCodes(p, com) == p.(c := p.c && !Has(com, 1), v := p.v && !Has(com, 2),
                                     z := p.z && !Has(com, 4), n := p.n && !Has(com, 8))
  {
    ClearLow(p, com);
    ClearHigh(p, com);
  }

  lemma ClearLow(p: Psw, com: bv16)
    ensures var q := ClearCodes(p, com);
      q.c == (p.c && !Has(com, 1)) && q.v == (p.v && !Has(com, 2)) &&
      q.z == (p.z && !Has(com, 4)) && q.n == (p.n && !Has(com, 8))
  {
  }

  lemma ClearHigh(p: Psw, com: bv16)
    ensures var q := ClearCodes(p, com); q.t == p.t && q.f7 == p.f7 && q.f10 == p.f10 && q.f11 == p.f11
  {
  }

  /** SE sets exactly the condition codes selected by the opcode, and changes nothing else in the PSW. */
  lemma SetSelected(p: Psw, com: bv16)
    ensures SetCodes(p, com) == p.(c := p.c || Has(com, 1), v := p.v || Has(com, 2),
                                   z := p.z || Has(com, 4), n := p.n || Has(com, 8))
  {
    SetLow(p, com);
    SetHigh(p, com);
  }

  lemma SetLow(p: Psw, com: bv16)
    ensures var q := SetCodes(p, com);
      q.c == (p.c || Has(com, 1)) && q.v == (p.v || Has(com, 2)) &&
      q.z == (p.z || Has(com, 4)) && q.n == (p.n || Has(com, 8))
  {
  }

  lemma SetHigh(p: Psw, com: bv16)
    ensures var q := SetCodes(p, com); q.t == p.t && q.f7 == p.f7 && q.f10 == p.f10 && q.f11 == p.f11
  {
  }

  /** MTPS: the PSW low byte from the source, except T; bits 8..15 unchanged. */
  function MovePsw(p: Psw, src: bv16): Psw
  {
    Unpack((Pack(p) & 0xff10) | (src & 0xef))
  }

  /** MTPS keeps T and the high PSW bits and loads C V Z N and bit 7 from the source. */
  lemma MovePswKeepsT(p: Psw, src: bv16)
    ensures MovePsw(p, src) == Psw(Has(src, 1), Has(src, 2), Has(src, 4), Has(src, 8),
                                   p.t, Has(src, 0x80), p.f10, p.f11)
  {
  }

  /** MFPS: the PSW low byte, sign-extended to a word. */
  function PswByte(p: Psw): bv16
  {
    var b := Pack(p) & 0xff;
    if Has(b, 0x80) then b | 0xff00 else b
  }

  /** The sign extension MFPS writes to a register repeats bit 7, the interrupt mask. */
  lemma PswByteSign(p: Psw)
    ensures Lo(PswByte(p)) == Lo(Pack(p))
    ensures Hi(PswByte(p)) == if p.f7 then 0xff else 0
  {
  }
}
