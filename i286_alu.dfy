// The register-and-flag arithmetic of the 80286 handlers that i80286_nop.c spells out itself:
// the choice of ALU helper by operation, inc/dec, the BCD adjusts, AAM/AAD, multiply and
// divide, CBW/CWD, SAHF/LAHF, the Jcc conditions and the repeated rotate of the shift group.
// The ALU helpers themselves (i286_add8 ...) and the rotates are Env parameters.

module I286Alu {
  import opened Common
  import opened I286

  // ---------------------------------------------------------------------------
  // The eight ALU operations

  /** The ALU operations in the order of the opcode rows 00..38 and of the reg field of 80..83. */
  datatype AluOp = AddOp | OrOp | AdcOp | SbbOp | AndOp | SubOp | XorOp | CmpOp

  /** The operation numbered `n` (0..7). */
  function AluOf(n: bv8): AluOp
  {
    var k := n & 7;
    if k == 0 then AddOp else if k == 1 then OrOp else if k == 2 then AdcOp else if k == 3 then SbbOp
    else if k == 4 then AndOp else if k == 5 then SubOp else if k == 6 then XorOp else CmpOp
  }

  /** CMP computes a subtraction for its flags and drops the result. */
  predicate Stores(op: AluOp)
  {
    op != CmpOp
  }

  /** The byte ALU: the helper of the operation, with the carry in for ADC and SBB; CMP subtracts. */
  function Alu8(env: Env, op: AluOp, f: Flags, a: bv8, b: bv8): (bv8, Flags)
  {
    match op
    case AddOp => env.add8(f, a, b, false)
    case OrOp => env.or8(f, a, b)
    case AdcOp => env.add8(f, a, b, f.c)
    case SbbOp => env.sub8(f, a, b, f.c)
    case AndOp => env.and8(f, a, b)
    case SubOp => env.sub8(f, a, b, false)
    case XorOp => env.xor8(f, a, b)
    case CmpOp => env.sub8(f, a, b, false)
  }

  /** The word ALU, chosen the same way. */
  function Alu16(env: Env, op: AluOp, f: Flags, a: bv16, b: bv16): (bv16, Flags)
  {
    match op
    case AddOp => env.add16(f, a, b, false)
    case OrOp => env.or16(f, a, b)
    case AdcOp => env.add16(f, a, b, f.c)
    case SbbOp => env.sub16(f, a, b, f.c)
    case AndOp => env.and16(f, a, b)
    case SubOp => env.sub16(f, a, b, false)
    case XorOp => env.xor16(f, a, b)
    case CmpOp => env.sub16(f, a, b, false)
  }

  /** An ALU operation of either width on words (a byte operation on the low bytes, zero-extended). */
  function Alu(env: Env, op: AluOp, f: Flags, a: bv16, b: bv16, wide: bool): (bv16, Flags)
  {
    if wide then Alu16(env, op, f, a, b)
    else var (v, f1) := Alu8(env, op, f, Lo(a), Lo(b)); (Widen(v), f1)
  }

  /**
   * The operand order of the "reg, ea" forms (02, 0A, ... 3A): CMP, SUB and SBB take the
   * register first, the commutative operations and ADD/ADC the EA operand first.
   */
  predicate RegFirst(op: AluOp)
  {
    op == SbbOp || op == SubOp || op == CmpOp
  }

  // ---------------------------------------------------------------------------
  // inc / dec (i286_inc8 ... i286_dec16)

  /** The flags inc/dec set from their result: O, S, Z, A and P; C and the others are kept. */
  function IncDecFlags(env: Env, f: Flags, o: bool, s: bool, z: bool, a: bool, low: bv8): Flags
  {
    f.(o := o, s := s, z := z, a := a, p := env.parity(low))
  }

  function Inc8(env: Env, f: Flags, r: bv8): (bv8, Flags)
  {
    var v := r + 1;
    (v, IncDecFlags(env, f, v == 0x80, HasAny(v, 0x80), v == 0, v & 15 == 0, v))
  }

  function Dec8(env: Env, f: Flags, r: bv8): (bv8, Flags)
  {
    var v := r - 1;
    (v, IncDecFlags(env, f, v == 0x7f, HasAny(v, 0x80), v == 0, v & 15 == 15, v))
  }

  function Inc16(env: Env, f: Flags, r: bv16): (bv16, Flags)
  {
    var v := Succ(r);
    (v, IncDecFlags(env, f, v == 0x8000, HasAny(Hi(v), 0x80), v == 0, Lo(v) & 15 == 0, Lo(v)))
  }

  function Dec16(env: Env, f: Flags, r: bv16): (bv16, Flags)
  {
    var v := Pred(r);
    (v, IncDecFlags(env, f, v == 0x7fff, HasAny(Hi(v), 0x80), v == 0, Lo(v) & 15 == 15, Lo(v)))
  }

  // ---------------------------------------------------------------------------
  // BCD adjusts (27 DAA, 2F DAS, 37 AAA, 3F AAS) and AAM / AAD

  /** The flags and accumulator a decimal adjust works on. */
  datatype Acc = Acc(al: bv8, ah: bv8, f: Flags)

  /**
   * 27 DAA as written: 6 is added when the low digit exceeds 9 or A is set, then 60 when
   * AL, as it stands AFTER the first adjustment, exceeds 9F or C is set; S, Z and P follow
   * the result. For AL = FA..FF with C clear the first adjustment wraps AL to 00..05 and the
   * second one is missed.
   */
  function DaaAsWritten(env: Env, x: Acc): Acc
  {
    var lowFix := (x.al & 0x0f) > 9 || x.f.a;
    var al1 := if lowFix then x.al + 6 else x.al;
    var highFix := al1 > 0x9f || x.f.c;
    var al2 := if highFix then al1 + 0x60 else al1;
    Acc(al2, x.ah, x.f.(a := lowFix, c := highFix, s := HasAny(al2, 0x80), z := al2 == 0, p := env.parity(al2)))
  }

  /**
   * 27 DAA: as above, but the test for the high digit is made on AL as it was before the
   * low adjustment (AL > 99 or C), the decimal adjust the instruction is meant to perform.
   */
  function Daa(env: Env, x: Acc): Acc
  {
    var lowFix := (x.al & 0x0f) > 9 || x.f.a;
    var al1 := if lowFix then x.al + 6 else x.al;
    var highFix := x.al > 0x99 || x.f.c;
    var al2 := if highFix then al1 + 0x60 else al1;
    Acc(al2, x.ah, x.f.(a := lowFix, c := highFix, s := HasAny(al2, 0x80), z := al2 == 0, p := env.parity(al2)))
  }

  /**
   * 2F DAS as written: 9 is subtracted for the low digit, 60 for the high one, and C is then
   * replaced by bit 7 of the result (no decimal-correctness is claimed for it).
   */
  function Das(env: Env, x: Acc): Acc
  {
    var lowFix := (x.al & 15) > 9 || x.f.a;
    var al1 := if lowFix then x.al - 9 else x.al;
    var highFix := al1 > 0x9f || x.f.c;
    var al2 := if highFix then al1 - 0x60 else al1;
    Acc(al2, x.ah, x.f.(a := lowFix, c := HasAny(al2, 0x80), z := al2 == 0, p := env.parity(al2)))
  }

  /** 37 AAA: for a low digit above 9 or A set, AL += 6 and AH += 1 with A and C set; else A and C cleared. */
  function Aaa(x: Acc): Acc
  {
    if (x.al & 0x0f) > 9 || x.f.a then Acc(x.al + 6, x.ah + 1, x.f.(a := true, c := true))
    else Acc(x.al, x.ah, x.f.(a := false, c := false))
  }

  /** 3F AAS: AL -= 6 and AH -= 1 with A and C set, or A and C cleared; AL then keeps its low digit. */
  function Aas(x: Acc): Acc
  {
    if (x.al & 15) > 9 || x.f.a then Acc((x.al - 6) & 15, x.ah - 1, x.f.(a := true, c := true))
    else Acc(x.al & 15, x.ah, x.f.(a := false, c := false))
  }

  /** D4 AAM with a non-zero base: AH = AL / base, AL = AL % base; S from AH, Z from AX, P from AL. */
  function Aam(env: Env, x: Acc, base: bv8): Acc
    requires base != 0
  {
    var ah := x.al / base;
    var al := x.al % base;
    Acc(al, ah, x.f.(s := HasAny(ah, 0x80), z := Word(ah, al) == 0, p := env.parity(al)))
  }

  /** D5 AAD: AL = AH * base + AL (modulo 256), AH = 0; S, Z and P from AL. */
  function Aad(env: Env, x: Acc, base: bv8): Acc
  {
    var al := x.ah * base + x.al;
    Acc(al, 0, x.f.(s := HasAny(al, 0x80), z := al == 0, p := env.parity(al)))
  }

  // ---------------------------------------------------------------------------
  // Sign extension (98 CBW, 99 CWD) and SAHF / LAHF

  /** 98 CBW: AH becomes FF or 00 by bit 7 of AL. */
  function Cbw(r: Regs): Regs
  {
    SetAH(r, if HasAny(AL(r), 0x80) then 0xff else 0x00)
  }

  /** 99 CWD: DX becomes FFFF or 0000 by bit 7 of AH. */
  function Cwd(r: Regs): Regs
  {
    r.(dx := if HasAny(AH(r), 0x80) then 0xffff else 0x0000)
  }

  /** 9E SAHF: the flag word with its D5 bits (all in the low byte) replaced by those of AH. */
  function SahfWord(flagWord: bv16, ah: bv8): bv16
  {
    Word(Hi(flagWord), (Lo(flagWord) & !0xd5) | (ah & 0xd5))
  }

  /** 9F LAHF: AH with its D5 bits replaced by those of the flag word. */
  function LahfByte(ah: bv8, flagWord: bv16): bv8
  {
    (ah & !0xd5) | (Lo(flagWord) & 0xd5)
  }

  // ---------------------------------------------------------------------------
  // Multiply and divide (F6 / F7 groups)

  /** A byte as a signed number. */
  function SByte(b: bv8): int
  {
    if HasAny(b, 0x80) then b as int - 0x100 else b as int
  }

  /** A word as a signed number. */
  function SWord(w: bv16): int
  {
    if HasAny(Hi(w), 0x80) then w as int - 0x10000 else w as int
  }

  /** C's `/` on ints: the quotient rounded toward zero. */
  function TruncDiv(a: int, b: int): int
    requires b != 0
  {
    if (a >= 0) == (b > 0) then
      (if a >= 0 then a / b else (-a) / (-b))
    else
      -((if a >= 0 then a else -a) / (if b > 0 then b else -b))
  }

  /** C's `%` on ints: the remainder that goes with TruncDiv, with the sign of the dividend. */
  function TruncMod(a: int, b: int): int
    requires b != 0
  {
    a - b * TruncDiv(a, b)
  }

  /** F6 /4 MUL eb: AX = operand * AL; C and O set when AH is not zero. */
  function MulByte(r: Regs, f: Flags, b: bv8): (Regs, Flags)
  {
    var ax := Low16(b as int * AL(r) as int);
    var c := Hi(ax) != 0;
    (r.(ax := ax), f.(c := c, o := c))
  }

  /** F6 /5 IMUL eb: AX = the signed product; C and O set when AH is not the sign extension of AL. */
  function ImulByte(r: Regs, f: Flags, b: bv8): (Regs, Flags)
  {
    var ax := Low16(SByte(b) * SByte(AL(r)));
    var c := Hi(ax) != (if HasAny(Lo(ax), 0x80) then 0xff else 0x00);
    (r.(ax := ax), f.(c := c, o := c))
  }

  /** F7 /4 MUL ew: DX:AX = operand * AX; C and O set when DX is not zero. */
  function MulWord(r: Regs, f: Flags, w: bv16): (Regs, Flags)
  {
    var p := w as int * r.ax as int;
    var r1 := r.(ax := Low16(p), dx := Low16(p / 0x10000));
    (r1, f.(c := r1.dx != 0, o := r1.dx != 0))
  }

  /** The high word DX of a signed 32-bit product p: bits 16..31 of its two's complement. */
  function HighWord(p: int): bv16
  {
    Low16(p / 0x10000)
  }

  /**
   * F7 /5 IMUL ew: DX:AX = the signed product; C and O set when DX is not the sign extension
   * of AX, that is when the product does not fit in a signed word.
   */
  function ImulWord(r: Regs, f: Flags, w: bv16): (Regs, Flags)
  {
    var p := SWord(w) * SWord(r.ax);
    var ax := Low16(p);
    var dx := HighWord(p);
    var c := dx != (if HasAny(Hi(ax), 0x80) then 0xffff else 0x0000);
    (r.(ax := ax, dx := dx), f.(c := c, o := c))
  }

  /** F7 /5 IMUL ew as written: DX is compared with 00FF, not FFFF, for a negative product. */
  function ImulWordAsWritten(r: Regs, f: Flags, w: bv16): (Regs, Flags)
  {
    var p := SWord(w) * SWord(r.ax);
    var ax := Low16(p);
    var dx := HighWord(p);
    var c := dx != (if HasAny(Hi(ax), 0x80) then 0x00ff else 0x0000);
    (r.(ax := ax, dx := dx), f.(c := c, o := c))
  }

  /** F6 /6 DIV eb: None (divide error) for a zero divisor or a quotient above FF; else AL = quotient, AH = remainder. */
  function DivByte(r: Regs, b: bv8): Option<Regs>
  {
    if b == 0 then None
    else
      var q := r.ax as int / b as int;
      if q > 0xff then None
      else Some(r.(ax := Word(Lo(Low16(r.ax as int % b as int)), Lo(Low16(q)))))
  }

  /**
   * F6 /7 IDIV eb: the same zero and range tests on the UNSIGNED quotient AX / operand, then
   * the signed quotient and remainder (rounded toward zero) into AL and AH.
   */
  function IdivByte(r: Regs, b: bv8): Option<Regs>
  {
    if b == 0 then None
    else if r.ax as int / b as int > 0xff then None
    else
      var q := TruncDiv(SWord(r.ax), SByte(b));
      var m := TruncMod(SWord(r.ax), SByte(b));
      Some(r.(ax := Word(Lo(Low16(m)), Lo(Low16(q)))))
  }

  /** F7 /6 DIV ew: DX:AX divided by the operand; None for a zero divisor or a quotient above FFFF. */
  function DivWord(r: Regs, w: bv16): Option<Regs>
  {
    if w == 0 then None
    else
      var n := r.dx as int * 0x10000 + r.ax as int;
      var q := n / w as int;
      if q > 0xffff then None
      else Some(r.(ax := Low16(q), dx := Low16(n % w as int)))
  }

  // ---------------------------------------------------------------------------
  // Jcc conditions (70..7F)

  /** The conditions of 70..7F in opcode order. */
  datatype Cond = JO | JNO | JC | JNC | JZ | JNZ | JBE | JA | JS | JNS | JP | JNP | JL | JNL | JLE | JG

  /** The condition of Jcc opcode `op` (its low four bits). */
  function CondOf(op: bv8): Cond
  {
    var k := op & 15;
    if k == 0 then JO else if k == 1 then JNO else if k == 2 then JC else if k == 3 then JNC
    else if k == 4 then JZ else if k == 5 then JNZ else if k == 6 then JBE else if k == 7 then JA
    else if k == 8 then JS else if k == 9 then JNS else if k == 10 then JP else if k == 11 then JNP
    else if k == 12 then JL else if k == 13 then JNL else if k == 14 then JLE else JG
  }

  /** Whether the condition holds for the flags, as the handlers 70..7F test it. */
  predicate Holds(f: Flags, c: Cond)
  {
    match c
    case JO => f.o
    case JNO => !f.o
    case JC => f.c
    case JNC => !f.c
    case JZ => f.z
    case JNZ => !f.z
    case JBE => f.c || f.z
    case JA => !f.c && !f.z
    case JS => f.s
    case JNS => !f.s
    case JP => f.p
    case JNP => !f.p
    case JL => f.s != f.o
    case JNL => f.s == f.o
    case JLE => f.z || (f.s != f.o)
    case JG => !f.z && f.s == f.o
  }

  // ---------------------------------------------------------------------------
  // The shift group (C0, C1, D0..D3)

  /** The rotate or shift of reg field `n`, in the order of i286_rot8_tab: /6 is SAL again. */
  function RotOf(n: bv8): RotOp
  {
    var k := n & 7;
    if k == 0 then Rol else if k == 1 then Ror else if k == 2 then Rcl else if k == 3 then Rcr
    else if k == 4 then Sal else if k == 5 then Shr else if k == 6 then Sal else Sar
  }

  /** The byte rotate applied `n` times, each time to the previous result and flags. */
  function RotTimes8(env: Env, op: RotOp, f: Flags, v: bv8, n: nat): (bv8, Flags)
    decreases n
  {
    if n == 0 then (v, f)
    else
      var (v1, f1) := env.rot8(op, f, v);
      RotTimes8(env, op, f1, v1, n - 1)
  }

  /** The word rotate applied `n` times. */
  function RotTimes16(env: Env, op: RotOp, f: Flags, v: bv16, n: nat): (bv16, Flags)
    decreases n
  {
    if n == 0 then (v, f)
    else
      var (v1, f1) := env.rot16(op, f, v);
      RotTimes16(env, op, f1, v1, n - 1)
  }

  /** The repeat count of a shift: the low five bits of the count given. */
  function ShiftCount(cnt: bv8): nat
  {
    (cnt & 0x1f) as nat
  }
}
