// The K1801VM1 instruction handlers (`pdp_halt` .. `pdp_sub`) as functions
// of the machine state.  The opcode being executed is in the latch
// `lat.com`; every handler runs after the fetch has moved PC past it.

module Pdp11Ops {
  import opened Common
  import opened Pdp11
  import opened Pdp11Alu
  import opened Pdp11Addr
  import opened Pdp11Eis

  /** The opcode being executed. */
  function Opcode(s: State): bv16
  {
    s.lat.com
  }

  /** The source operand field of a two-operand opcode, in the low six bits. */
  function SrcField(s: State): bv16
  {
    Opcode(s) >> 6
  }

  /** The register named by bits 6..8 of the opcode. */
  function HighReg(s: State): RegNo
  {
    RegOf(SrcField(s))
  }

  /** A fault: MCIR 5 (push PSW and PC), the vector select code, then the trap through `vec`. */
  function Fault(s: State, vcel: bv8, vec: bv16): State
  {
    Trap(s.(ctl := s.ctl.(mcir := 5, vcel := vcel)), vec)
  }

  /** `pdp_undef`: an opcode the CPU does not implement traps through vector 010. */
  function Undefined(s: State): State
  {
    Fault(s, 2, 0x08)
  }

  /** The PSW loaded from the low byte of a word, as RTI and RTT do. */
  function LowPsw(w: bv16): Psw
  {
    Unpack(w & 0xff)
  }

  /** The word at 177716 with bit 3 cleared, as START writes it back. */
  function ClearStep(w: bv16): bv16
  {
    w & 0xfff7
  }

  /** A branch target: PC plus the opcode's displacement. */
  function Target(pc: bv16, com: bv16): bv16
  {
    pc + Offset(com)
  }

  /** Twice the six-bit count in the low bits of the opcode (MARK, SOB). */
  function Words(com: bv16): bv16
  {
    (com & 0x3f) << 1
  }

  /** `pc` moved forward by the opcode's word count (MARK). */
  function Ahead(pc: bv16, com: bv16): bv16
  {
    pc + Words(com)
  }

  /** `pc` moved back by the opcode's word count (SOB). */
  function Behind(pc: bv16, com: bv16): bv16
  {
    pc - Words(com)
  }

  /** A divisor word taken as unsigned (`unsigned short` promoted to `int`). */
  function Unsigned(d: bv16): (r: bv32)
    ensures r == 0 <==> d == 0
  {
    d as bv32
  }

  /** A signed long divided by a nonzero unsigned word: the quotient and the remainder, both rounded toward zero as in C. */
  function Divide(a: bv32, d: bv16): (bv32, bv32)
    requires d != 0
  {
    (Quot(a, Unsigned(d)), Rem(a, Unsigned(d)))
  }

  /** The sign bits of `a` and `b` differ. */
  predicate SignChanged(a: bv16, b: bv16)
  {
    Neg16(a ^ b)
  }

  /** The bitwise exclusive or of two words. */
  function Toggle(a: bv16, b: bv16): bv16
  {
    a ^ b
  }

  /** The high byte of a word, kept in place: the start page RESET loads into PC. */
  function PageOf(w: bv16): bv16
  {
    w & 0xff00
  }

  // ---------------------------------------------------------------------
  // 000000 .. 000017

  /** `pdp_wait`: WAIT is set and PC moves back onto the instruction, which so repeats until an interrupt. */
  function Wait(s: State): State
  {
    s.(ctl := s.ctl.(wait := true), r := s.r[7 := Prev(s.r[7])])
  }

  /** The return frame RTI and RTT pop: PC, then the PSW from the low byte of the next word. */
  function Unwind(s: State): State
  {
    var (pc, s1) := Pop(s);
    var (w, s2) := Pop(s1);
    s2.(r := s2.r[7 := pc], f := LowPsw(w))
  }

  /** A set T bit is cleared and traps through 014. */
  function TraceTrap(s: State): State
  {
    if s.f.t then Fault(s.(f := s.f.(t := false)), 3, 0x0c) else s
  }

  /** `pdp_rti`: the frame is popped in 19 cycles; a popped T bit is cleared and traps through 014. */
  function Rti(s: State): State
  {
    TraceTrap(Unwind(s).(t := s.t + 19))
  }

  /** `pdp_bpt`: trap through 014. */
  function Bpt(s: State): State
  {
    Fault(s, 3, 0x0c)
  }

  /** `pdp_iot`: trap through 020. */
  function Iot(s: State): State
  {
    Fault(s, 1, 0x10)
  }

  /** `pdp_res`: RESET takes 448 cycles, reloads and stops the timer and sends INIT on the bus. */
  function ResetBus(s: State): State
  {
    s.(t := s.t + 448, timer := s.timer.(val := 0xffff, ival := 0xffff, flag := 0xff),
       ctl := s.ctl.(inits := s.ctl.inits + 1))
  }

  /** `pdp_rtt`: as RTI, but T is always cleared and never traps. */
  function Rtt(s: State): State
  {
    var s2 := Unwind(s);
    s2.(f := s2.f.(t := false))
  }

  /**
   * `pdp_start` and `pdp_step` (the same body): PC and PSW come from the
   * words at 177674 and 177676, and bit 3 of the word at 177716 is cleared
   * through WZ.
   */
  function Start(s: State): State
  {
    var s1 := s.(r := s.r[7 := Rd(s, 0xffbc)], f := Unpack(Rd(s, 0xffbe)));
    var w := ClearStep(Rd(s1, 0xffce));
    Wr(SetWz(s1, w), 0xffce, w)
  }

  // ---------------------------------------------------------------------
  // 0001dd .. 0003dd

  /** `pdp_jmp`: PC takes the operand address; register mode has none and traps through 004. */
  function Jmp(s: State): State
  {
    var (a, s1) := Adr(s, Opcode(s), false);
    match a
    case None => Fault(s1, 4, 0x04)
    case Some(x) => s1.(r := s1.r[7 := x])
  }

  /** RTS Rn proper: PC takes Rn, Rn is popped, 8 cycles. */
  function Unlink(s: State, n: RegNo): State
  {
    var s2 := s.(r := s.r[7 := s.r[n]]);
    var s3 := s2.(r := s2.r[n := Rd(s2, s2.r[6])], t := s2.t + 8);
    s3.(r := s3.r[6 := Next(s3.r[6])])
  }

  /** `pdp_008x`: RTS Rn after 8 cycles; bit 3 set is undefined. */
  function Rts(s: State): State
  {
    var s1 := s.(t := s.t + 8);
    if Has(Opcode(s), 8) then Undefined(s1) else Unlink(s1, RegOf(Opcode(s)))
  }

  /** `pdp_cl` */
  function Cl(s: State): State
  {
    s.(f := ClearCodes(s.f, Opcode(s)))
  }

  /** `pdp_se` */
  function Se(s: State): State
  {
    s.(f := SetCodes(s.f, Opcode(s)))
  }

  /** `pdp_jr` under a condition, with the 12 cycles every branch takes. */
  function Branch(s: State, c: Cond): State
  {
    var s1 := s.(t := s.t + 12);
    if Taken(c, s.f) then s1.(r := s1.r[7 := Target(s1.r[7], Opcode(s))]) else s1
  }

  /**
   * `pdp_jsr`: resolves the target first; then Rn is pushed, the return
   * address goes to Rn and PC takes the target.  Register mode traps through 004.
   */
  function Jsr(s: State): State
  {
    var (a, s1) := Adr(s, Opcode(s), false);
    match a
    case None => Fault(s1, 4, 0x04)
    case Some(x) =>
      var n := HighReg(s);
      var s2 := s1.(r := s1.r[6 := Prev(s1.r[6])]);
      var s3 := Wr(s2, s2.r[6], s2.r[n]);
      s3.(r := s3.r[n := s3.r[7]][7 := x])
  }

  // ---------------------------------------------------------------------
  // One-operand instructions

  /** `pdp_clr`: the operand becomes 0; N V C cleared, Z set. */
  function Clr(s: State): State
  {
    var s1 := Dst(s, 0, Opcode(s), false);
    s1.(f := s1.f.(c := false, n := false, v := false, z := true))
  }

  /** `pdp_com` .. `pdp_asl` and `pdp_swab`: fetch the operand, compute, write back through WZ. */
  function OneWord(s: State, op: WordOp): State
  {
    var (v, s1) := Src(s, Opcode(s), false);
    var o := UnaryWord(op, v, s1.f);
    Wres(s1.(f := o.f), Opcode(s), o.v)
  }

  /** `pdp_tst`: N and Z from the operand, V and C cleared, nothing written. */
  function Tst(s: State): State
  {
    var (v, s1) := Src(s, Opcode(s), false);
    s1.(f := NZ(s1.f, v).(c := false, v := false))
  }

  /** `pdp_mark`: SP goes 2n bytes past PC, PC takes R5, and R5 is popped. */
  function Mark(s: State): State
  {
    var s1 := s.(r := s.r[6 := Ahead(s.r[7], Opcode(s))]);
    var s2 := s1.(r := s1.r[7 := s1.r[5]]);
    var (w, s3) := Pop(s2);
    s3.(r := s3.r[5 := w])
  }

  /** `pdp_sxt`: the operand becomes all ones when N is set and 0 otherwise; Z is the opposite of N. */
  function Sxt(s: State): State
  {
    var w: bv16 := if s.f.n then 0xffff else 0;
    Dst(s.(f := s.f.(z := !s.f.n)), w, Opcode(s), false)
  }

  /** `pdp_88xx`: EMT traps through 030. */
  function Emt(s: State): State
  {
    Fault(s, 6, 0x18)
  }

  /** `pdp_89xx`: TRAP traps through 034. */
  function TrapInstr(s: State): State
  {
    Fault(s, 12, 0x1c)
  }

  /** `pdp_clrb` */
  function Clrb(s: State): State
  {
    var s1 := Dst(s, 0, Opcode(s), true);
    s1.(f := s1.f.(c := false, n := false, v := false, z := true))
  }

  /** `pdp_comb` .. `pdp_aslb`: the byte operand computed and written back through WZ. */
  function OneByte(s: State, op: ByteOp): State
  {
    var (v, s1) := Src(s, Opcode(s), true);
    var (r, f) := UnaryByte(op, Lo(v), s1.f);
    Wresb(s1.(f := f), Opcode(s), r)
  }

  /** `pdp_tstb` */
  function Tstb(s: State): State
  {
    var (v, s1) := Src(s, Opcode(s), true);
    s1.(f := NZb(s1.f, Lo(v)).(c := false, v := false))
  }

  /** `pdp_mtps`: the PSW low byte, except T, from the byte operand. */
  function Mtps(s: State): State
  {
    var (v, s1) := Src(s, Opcode(s), true);
    s1.(f := MovePsw(s1.f, v))
  }

  /**
   * `pdp_mfps`: the PSW low byte goes to the byte at the operand address, or
   * sign-extended to the whole register in register mode.
   */
  function Mfps(s: State): State
  {
    var (a, s1) := Adr(s, Opcode(s), true);
    var s2 := SetWz(s1, match a case None => 0xffff case Some(x) => x);
    var b := PswByte(s2.f);
    var s3 := if ModeOf(Opcode(s)) != 0 then Wrb(s2, s2.lat.wz, Lo(b)) else SetReg(s2, RegOf(Opcode(s)), b);
    s3.(f := NZb(s3.f, Lo(b)).(v := false))
  }

  // ---------------------------------------------------------------------
  // 07xxxx: the extended instruction set and SOB

  /**
   * A long result written to the register pair: Rn takes `hi`, then Rn|1
   * takes `lo`, so for an odd Rn only `lo` remains.
   */
  function SetPair(s: State, n: RegNo, hi: bv16, lo: bv16): State
  {
    SetReg(SetReg(s, n, hi), OddOf(n), lo)
  }

  /** The codes MUL sets: N and Z from the long product, V clear, C when it does not fit a word. */
  function MulCodes(p: Psw, res: bv32): Psw
  {
    p.(n := Neg32(res), z := res == 0, v := false, c := MulCarry(res))
  }

  /** The codes DIV sets for a nonzero divisor: N and Z from the quotient, V on overflow, C clear. */
  function DivCodes(p: Psw, a: bv32, q: bv32): Psw
  {
    p.(n := Neg32(q), z := q == 0, v := DivOverflow(a, q), c := false)
  }

  /** `pdp_mul`: the signed product of the operand and Rn, high word to Rn, low word to Rn|1. */
  function Mul(s: State): State
  {
    if s.ctl.gen < 1 then Undefined(s)
    else
      var (v, s1) := Src(s, Opcode(s), false);
      var n := HighReg(s);
      var res := Product(v, s1.r[n]);
      SetPair(s1.(f := MulCodes(s1.f, res)), n, HighHalf(res), LowHalf(res))
  }

  /** The even register of the DIV pair: `(com >> 6) & 6`. */
  function PairReg(s: State): (n: RegNo)
    ensures n % 2 == 0 && n < 7
  {
    RegOf(SrcField(s) & 6)
  }

  /**
   * `pdp_div`: the pair Rn:Rn+1, read before the operand, divided by the
   * operand as an unsigned word; quotient to Rn and remainder to Rn+1.  A zero
   * divisor only sets C.
   */
  function Div(s: State): State
  {
    if s.ctl.gen < 1 then Undefined(s)
    else
      var n := PairReg(s);
      var a := Join(s.r[n], s.r[OddOf(n)]);
      var (d, s1) := Src(s, Opcode(s), false);
      if d == 0 then s1.(f := s1.f.(c := true))
      else
        var (q, m) := Divide(a, d);
        SetPair(s1.(f := DivCodes(s1.f, a, q)), n, LowHalf(q), LowHalf(m))
  }

  /** `pdp_ash`: Rn shifted by the count in the operand; V says the sign changed. */
  function Ash(s: State): State
  {
    if s.ctl.gen < 1 then Undefined(s)
    else
      var (v, s1) := Src(s, Opcode(s), false);
      var n := HighReg(s);
      var d := s1.r[n];
      var (w, c) := ArithShift(d, v, s1.f.c);
      var s2 := s1.(r := s1.r[n := w]);
      s2.(f := NZ(s2.f, w).(v := SignChanged(d, w), c := c))
  }

  /** `pdp_ashc`: the pair Rn:Rn|1 shifted as one 32-bit value. */
  function Ashc(s: State): State
  {
    if s.ctl.gen < 1 then Undefined(s)
    else
      var (v, s1) := Src(s, Opcode(s), false);
      var n := HighReg(s);
      var hi := s1.r[n];
      var (y, c) := ArithShiftPair(Join(hi, s1.r[OddOf(n)]), v, s1.f.c);
      var s3 := SetPair(s1, n, HighHalf(y), LowHalf(y));
      s3.(f := s3.f.(n := Neg32(y), z := y == 0, v := SignChanged(s3.r[n], hi), c := c))
  }

  /** `pdp_xor`: the operand XOR Rn, written back; V cleared. */
  function Xor(s: State): State
  {
    var (v, s1) := Src(s, Opcode(s), false);
    var w := Toggle(v, s1.r[HighReg(s)]);
    Wres(s1.(f := NZ(s1.f, w).(v := false)), Opcode(s), w)
  }

  /** `pdp_sob`: Rn is decremented, and while it is not zero PC moves back by twice the low six bits. */
  function Sob(s: State): State
  {
    var s1 := s.(t := s.t + 8);
    var n := HighReg(s);
    var s2 := s1.(r := s1.r[n := Pred(s1.r[n])]);
    if s2.r[n] != 0 then s2.(r := s2.r[7 := Behind(s2.r[7], Opcode(s))]) else s2
  }

  // ---------------------------------------------------------------------
  // Two-operand instructions

  /** The source operand (bits 6..11) and then the destination operand (bits 0..5). */
  function Operands(s: State, byte: bool): (bv16, bv16, State)
  {
    var (a, s1) := Src(s, SrcField(s), byte);
    var (b, s2) := Src(s1, Opcode(s), byte);
    (a, b, s2)
  }

  /** `pdp_mov`: the source is stored at the destination; N Z from it, V cleared. */
  function Mov(s: State): State
  {
    var (v, s1) := Src(s, SrcField(s), false);
    var s2 := Dst(s1, v, Opcode(s), false);
    s2.(f := NZ(s2.f, v).(v := false))
  }

  /**
   * `pdp_movb`: a memory destination is read and then its byte written
   * through WZ; a register destination takes the byte sign-extended.
   */
  function Movb(s: State): State
  {
    var (v, s1) := Src(s, SrcField(s), true);
    var s2 := if ModeOf(Opcode(s)) != 0
      then var s3 := Src(s1, Opcode(s), true).1; Wrb(s3, s3.lat.wz, Lo(v))
      else SetReg(s1, RegOf(Opcode(s)), SextByte(Lo(v)));
    s2.(f := NZb(s2.f, Lo(v)).(v := false))
  }

  /** `pdp_cmp` */
  function Cmp(s: State): State
  {
    var (a, b, s1) := Operands(s, false);
    s1.(f := Compare(a, b, s1.f))
  }

  /** `pdp_cmpb` */
  function Cmpb(s: State): State
  {
    var (a, b, s1) := Operands(s, true);
    s1.(f := CompareByte(Lo(a), Lo(b), s1.f))
  }

  /** `pdp_bit`, `pdp_bic`, `pdp_bis`: BIT only sets the codes, BIC and BIS write the result back. */
  function LogicW(s: State, op: Logic): State
  {
    var (a, b, s1) := Operands(s, false);
    var o := LogicWord(op, a, b, s1.f);
    if op == BitTest then s1.(f := o.f) else Wres(s1.(f := o.f), Opcode(s), o.v)
  }

  /** `pdp_bitb`, `pdp_bicb`, `pdp_bisb` */
  function LogicB(s: State, op: Logic): State
  {
    var (a, b, s1) := Operands(s, true);
    var (r, f) := LogicByte(op, Lo(a), Lo(b), s1.f);
    if op == BitTest then s1.(f := f) else Wresb(s1.(f := f), Opcode(s), r)
  }

  /** `pdp_add` */
  function Add(s: State): State
  {
    var (a, b, s1) := Operands(s, false);
    var o := AddWords(a, b, s1.f);
    Wres(s1.(f := o.f), Opcode(s), o.v)
  }

  /** `pdp_sub`: destination minus source. */
  function Sub(s: State): State
  {
    var (a, b, s1) := Operands(s, false);
    var o := SubWords(a, b, s1.f);
    Wres(s1.(f := o.f), Opcode(s), o.v)
  }

  // ---------------------------------------------------------------------
  // Reset

  /**
   * `pdp11_reset`: R0..R6 cleared, 1016 cycles, PC from the high byte of
   * the word at FFCE, PSW from 0x300 (no modelled bit set), no request
   * pending, IRQ2 and the vectored request enabled, no WAIT or HALT, and
   * the timer stopped.
   */
  function Reset(s: State): State
  {
    s.(r := [0, 0, 0, 0, 0, 0, 0, PageOf(Rd(s, 0xffce))], t := s.t + 1016, f := Unpack(0x300),
       ctl := s.ctl.(intrq := {}, inten := {Irq2, Virq}, wait := false, halt := false),
       timer := s.timer.(flag := 1))
  }

  // ---------------------------------------------------------------------
  // Traps and returns

  /** The vector and the PSW word after it lie apart from the two stack words a trap pushes. */
  predicate VectorClear(s: State, vec: bv16)
  {
    var sp := s.r[6];
    WordAt(vec) != WordAt(Prev(sp)) && WordAt(vec) != WordAt(Prev(Prev(sp)))
    && WordAt(Next(vec)) != WordAt(Prev(sp)) && WordAt(Next(vec)) != WordAt(Prev(Prev(sp)))
  }

  /**
   * `s1` entered the handler at `vec` from `s`: the PSW and then the PC of
   * `s` were pushed, PC and PSW came from the vector, and the control state
   * records the select code with MCIR back at 1.
   */
  predicate Entered(s: State, s1: State, vcel: bv8, vec: bv16)
  {
    var sp := s.r[6];
    s1.r == s.r[6 := Prev(Prev(sp))][7 := Rd(s, vec)] && s1.f == Unpack(Rd(s, Next(vec)))
    && Rd(s1, Prev(sp)) == Pack(s.f) && Rd(s1, Prev(Prev(sp))) == s.r[7]
    && s1.ctl == s.ctl.(mcir := 1, vcel := vcel)
  }

  /** A fault pushes PSW and PC and enters its vector. */
  lemma FaultPushes(s: State, vcel: bv8, vec: bv16)
    requires VectorClear(s, vec)
    ensures Entered(s, Fault(s, vcel, vec), vcel, vec)
  {
    TrapPushes(s.(ctl := s.ctl.(mcir := 5, vcel := vcel)), vec);
  }

  /**
   * The vector table of the trapping instructions: an undefined opcode
   * enters 010, BPT 014, IOT 020, EMT 030 and TRAP 034, each with its own
   * select code.
   */
  lemma TrapInstructions(s: State)
    requires VectorClear(s, 0x08) && VectorClear(s, 0x0c) && VectorClear(s, 0x10)
    requires VectorClear(s, 0x18) && VectorClear(s, 0x1c)
    ensures Entered(s, Undefined(s), 2, 0x08)
    ensures Entered(s, Bpt(s), 3, 0x0c)
    ensures Entered(s, Iot(s), 1, 0x10)
    ensures Entered(s, Emt(s), 6, 0x18)
    ensures Entered(s, TrapInstr(s), 12, 0x1c)
  {
    FaultPushes(s, 2, 0x08);
    FaultPushes(s, 3, 0x0c);
    FaultPushes(s, 1, 0x10);
    FaultPushes(s, 6, 0x18);
    FaultPushes(s, 12, 0x1c);
  }

  /** JMP and JSR with a register operand have no target and fault through vector 4. */
  lemma JumpToRegister(s: State)
    requires ModeOf(Opcode(s)) == 0 && VectorClear(s, 0x04)
    ensures Entered(s, Jmp(s), 4, 0x04)
    ensures Entered(s, Jsr(s), 4, 0x04)
  {
    RegisterMode(s, Opcode(s), false);
    FaultPushes(s, 4, 0x04);
  }

  /** Loading the low byte of a packed PSW keeps the condition codes, T and the mask bit, and drops bits 10 and 11. */
  lemma LowByteOfPsw(p: Psw)
    ensures LowPsw(Pack(p)) == p.(f10 := false, f11 := false)
  {
  }

  /**
   * RTI right after a fault returns to the interrupted PC with the
   * interrupted registers and PSW; only the PSW bits above the low byte are
   * lost, since RTI reloads the low byte alone.
   */
  lemma RtiReturns(s: State, vcel: bv8, vec: bv16)
    requires VectorClear(s, vec) && !s.f.t
    ensures Rti(Fault(s, vcel, vec)).r == s.r
    ensures Rti(Fault(s, vcel, vec)).f == s.f.(f10 := false, f11 := false)
  {
    FaultPushes(s, vcel, vec);
    NextPrev(Prev(s.r[6]));
    NextPrev(s.r[6]);
    LowByteOfPsw(s.f);
  }

  /** RTT right after a fault returns in the same way, and always with T clear. */
  lemma RttReturns(s: State, vcel: bv8, vec: bv16)
    requires VectorClear(s, vec)
    ensures Rtt(Fault(s, vcel, vec)).r == s.r
    ensures Rtt(Fault(s, vcel, vec)).f == s.f.(t := false, f10 := false, f11 := false)
  {
    FaultPushes(s, vcel, vec);
    NextPrev(Prev(s.r[6]));
    NextPrev(s.r[6]);
    LowByteOfPsw(s.f);
  }

  /** RTI of a PSW with T set clears T and traps through 014 at once. */
  lemma RtiTraceTrap(s: State)
    requires Has(Rd(s, Next(s.r[6])), 0x10)
    ensures Rti(s).ctl.vcel == 3 && Rti(s).ctl.mcir == 1
  {
  }

  /** WAIT moves PC back onto itself, so the instruction is fetched again until an interrupt. */
  lemma WaitRepeats(s: State)
    ensures Next(Wait(s).r[7]) == s.r[7] && Wait(s).ctl.wait
    ensures Wait(s).mem == s.mem && Wait(s).f == s.f
  {
    NextPrev(s.r[7]);
  }

  /** START loads PC and PSW from 177674 and 177676 and clears bit 3 of the word at 177716, keeping its other bits. */
  lemma StartLoads(s: State)
    ensures Start(s).r[7] == Rd(s, 0xffbc) && Start(s).f == Unpack(Rd(s, 0xffbe))
    ensures Rd(Start(s), 0xffce) == ClearStep(Rd(s, 0xffce))
  {
    var s1 := s.(r := s.r[7 := Rd(s, 0xffbc)], f := Unpack(Rd(s, 0xffbe)));
    WordRoundTrip(SetWz(s1, ClearStep(Rd(s1, 0xffce))), 0xffce, ClearStep(Rd(s, 0xffce)), 0xffce);
  }

  /** Clearing the step bit clears bit 3 alone. */
  lemma ClearStepBits(w: bv16)
    ensures !Has(ClearStep(w), 8) && ClearStep(w) | (w & 8) == w
  {
  }

  // ---------------------------------------------------------------------
  // Jumps and branches

  /** A branch takes 12 cycles and, when its condition holds, adds twice the signed low byte of the opcode to PC; nothing else changes. */
  lemma BranchTarget(s: State, c: Cond)
    ensures Branch(s, c).r == if Taken(c, s.f) then s.r[7 := Target(s.r[7], Opcode(s))] else s.r
    ensures Branch(s, c).t == s.t + 12
    ensures Branch(s, c).mem == s.mem && Branch(s, c).f == s.f
  {
  }

  /** The target is PC plus twice the signed low byte of the opcode: even steps, backwards for a negative byte. */
  lemma TargetIsTwiceByte(pc: bv16, com: bv16)
    ensures var d := SextByte(Lo(com)); Target(pc, com) == pc + d + d
  {
    OffsetIsTwiceByte(com);
  }

  /** SOB decrements its counter and branches back unless the counter was 1. */
  lemma SobCounts(s: State)
    requires HighReg(s) != 7
    ensures var n := HighReg(s); Sob(s).r[n] == Pred(s.r[n])
    ensures var n := HighReg(s);
      Sob(s).r[7] == if s.r[n] == 1 then s.r[7] else Behind(s.r[7], Opcode(s))
  {
    PredZero(s.r[HighReg(s)]);
  }

  /** A counter reaches zero on its decrement exactly when it was 1. */
  lemma PredZero(x: bv16)
    ensures Pred(x) == 0 <==> x == 1
  {
  }

  /** The word count of MARK and SOB is the six-bit field added to itself, an even distance below 128. */
  lemma WordsCount(com: bv16)
    ensures Words(com) == (com & 0x3f) + (com & 0x3f)
    ensures !Has(Words(com), 1) && Words(com) & 0xff80 == 0
  {
  }

  /** The RTS opcode for register `n`. */
  function RtsOpcode(n: RegNo): bv16
  {
    if n == 0 then 0x80 else if n == 1 then 0x81 else if n == 2 then 0x82 else if n == 3 then 0x83
    else if n == 4 then 0x84 else if n == 5 then 0x85 else if n == 6 then 0x86 else 0x87
  }

  /** The RTS opcode names its register and has bit 3 clear. */
  lemma RtsOpcodeFields(n: RegNo)
    ensures RegOf(RtsOpcode(n)) == n && !Has(RtsOpcode(n), 8)
  {
  }

  /**
   * JSR Rn with target `x`: Rn is pushed below the stack pointer left by
   * resolving the target, Rn takes the return address and PC the target.
   */
  lemma JsrLinks(s: State, x: bv16)
    requires Adr(s, Opcode(s), false).0 == Some(x)
    ensures var s1 := Adr(s, Opcode(s), false).1; var n := HighReg(s); var sp := Prev(s1.r[6]);
      Jsr(s).r == s1.r[6 := sp][n := s1.r[7]][7 := x] && Rd(Jsr(s), sp) == s1.r[6 := sp][n]
  {
    var s1 := Adr(s, Opcode(s), false).1;
    var s2 := s1.(r := s1.r[6 := Prev(s1.r[6])]);
    WordRoundTrip(s2, s2.r[6], s2.r[HighReg(s)], s2.r[6]);
  }

  /**
   * An RTS Rn executed right after JSR Rn restores every register as the
   * JSR found it after resolving its target.  R6 as link register is
   * excluded, since the push moves it.
   */
  lemma JsrRts(s: State, x: bv16)
    requires Adr(s, Opcode(s), false).0 == Some(x) && HighReg(s) != 6
    ensures var j := Jsr(s);
      Rts(j.(lat := j.lat.(com := RtsOpcode(HighReg(s))))).r == Adr(s, Opcode(s), false).1.r
  {
    JsrLinks(s, x);
    NextPrev(Adr(s, Opcode(s), false).1.r[6]);
    RtsOpcodeFields(HighReg(s));
  }

  // ---------------------------------------------------------------------
  // Moves

  /** MOV to memory stores the source word at the destination address. */
  lemma MovStores(s: State, x: bv16)
    requires Adr(Src(s, SrcField(s), false).1, Opcode(s), false).0 == Some(x)
    ensures Rd(Mov(s), x) == Src(s, SrcField(s), false).0
  {
    var (v, s1) := Src(s, SrcField(s), false);
    var s2 := Adr(s1, Opcode(s), false).1;
    if ModeOf(Opcode(s)) == 0 {
      RegisterMode(s1, Opcode(s), false);
      assert false;
    }
    var s3 := SetWz(s2, x);
    assert Dst(s1, v, Opcode(s), false) == Wr(s3, x, v);
    WordRoundTrip(s3, x, v, x);
  }

  /** MOV sets N and Z from the word moved and clears V; C is kept. */
  lemma MovCodes(s: State)
    ensures Mov(s).f == NZ(s.f, Src(s, SrcField(s), false).0).(v := false)
  {
    var (v, s1) := Src(s, SrcField(s), false);
    SrcFrame(s, SrcField(s), false);
    DstKeepsPsw(s1, v, Opcode(s), false);
  }

  /** A sign-extended byte keeps the byte below and repeats its sign bit above. */
  lemma SextByteHalves(b: bv8)
    ensures Lo(SextByte(b)) == b && Hi(SextByte(b)) == (if Neg8(b) then 0xff else 0)
  {
    WordHalves(0xff, b);
    WordHalves(0, b);
  }

  /** MOVB to a register sign-extends the byte into the whole register, unlike the byte operations, which keep the high byte. */
  lemma MovbToRegister(s: State)
    requires ModeOf(Opcode(s)) == 0
    ensures Movb(s).r[RegOf(Opcode(s))] == SextByte(Lo(Src(s, SrcField(s), true).0))
  {
  }

  /** MOVB to memory stores the byte at the destination address. */
  lemma MovbStores(s: State, x: bv16)
    requires Adr(Src(s, SrcField(s), true).1, Opcode(s), true).0 == Some(x)
    ensures Rdb(Movb(s), x) == Lo(Src(s, SrcField(s), true).0) as bv16
  {
    var (v, s1) := Src(s, SrcField(s), true);
    if ModeOf(Opcode(s)) == 0 {
      RegisterMode(s1, Opcode(s), true);
      assert false;
    }
    var s3 := Src(s1, Opcode(s), true).1;
    SrcLatches(s1, Opcode(s), true, x);
    assert Movb(s).mem == Wrb(s3, x, Lo(v)).mem;
    ByteRoundTrip(s3, x, Lo(v));
  }

  /** CMP, CMPB, BIT, BITB, TST and TSTB only set codes: memory is left as it was. */
  lemma TestsWriteNothing(s: State)
    ensures Cmp(s).mem == s.mem && Cmpb(s).mem == s.mem
    ensures LogicW(s, BitTest).mem == s.mem && LogicB(s, BitTest).mem == s.mem
    ensures Tst(s).mem == s.mem && Tstb(s).mem == s.mem
  {
  }

  // ---------------------------------------------------------------------
  // The extended instruction set

  /** MUL into an even register leaves the signed product in the pair, high word first; C is set whenever the product does not fit a word. */
  lemma MulProduct(s: State, v: bv16, s1: State)
    requires s.ctl.gen >= 1 && HighReg(s) % 2 == 0 && (v, s1) == Src(s, Opcode(s), false)
    ensures var n := HighReg(s); var p := Product(v, s1.r[n]);
      Join(Mul(s).r[n], Mul(s).r[n + 1]) == p && (!InWord(p) ==> Mul(s).f.c)
  {
    var n := HighReg(s);
    var p := Product(v, s1.r[n]);
    assert Mul(s) == SetPair(s1.(f := MulCodes(s1.f, p)), n, HighHalf(p), LowHalf(p));
    assert OddOf(n) == n + 1;
    JoinHalves(HighHalf(p), LowHalf(p), p);
    if !InWord(p) {
      MulCarrySet(v, s1.r[HighReg(s)]);
    }
  }

  /** With C clear the product fits a word, so the odd register alone holds it. */
  lemma MulFits(s: State, v: bv16, s1: State)
    requires s.ctl.gen >= 1 && (v, s1) == Src(s, Opcode(s), false) && !MulCarry(Product(v, s1.r[HighReg(s)]))
    ensures var p := Product(v, s1.r[HighReg(s)]);
      Mul(s).r[OddOf(HighReg(s))] == LowHalf(p) && Widen(LowHalf(p)) == p && !Mul(s).f.c
  {
    MulCarryClear(v, s1.r[HighReg(s)]);
  }

  /** DIV by zero sets C and changes no register beyond the operand fetch. */
  lemma DivByZero(s: State)
    requires s.ctl.gen >= 1 && Src(s, Opcode(s), false).0 == 0
    ensures var s1 := Src(s, Opcode(s), false).1; Div(s) == s1.(f := s1.f.(c := true))
  {
  }

  /** DIV without overflow leaves the whole quotient in Rn, rounded toward zero, and the remainder's low word in Rn+1. */
  lemma DivQuotient(s: State, a: bv32, d: bv16)
    requires s.ctl.gen >= 1 && a == Join(s.r[PairReg(s)], s.r[PairReg(s) + 1])
    requires d == Src(s, Opcode(s), false).0 && d != 0 && !DivOverflow(a, Divide(a, d).0)
    ensures Widen(Div(s).r[PairReg(s)]) == Divide(a, d).0
    ensures Div(s).r[PairReg(s) + 1] == LowHalf(Divide(a, d).1) && !Div(s).f.v && !Div(s).f.c
  {
    var n := PairReg(s);
    var s1 := Src(s, Opcode(s), false).1;
    var (q, m) := Divide(a, d);
    assert OddOf(n) == n + 1;
    assert Div(s) == SetPair(s1.(f := DivCodes(s1.f, a, q)), n, LowHalf(q), LowHalf(m));
    DivOverflowClear(a, Unsigned(d));
  }

  /** ASH by a count below 16 to the left shifts the register as `<<` does. */
  lemma AshLeft(s: State, v: bv16, s1: State)
    requires s.ctl.gen >= 1 && (v, s1) == Src(s, Opcode(s), false) && Count(v) < 16
    ensures Ash(s).r[HighReg(s)] == s1.r[HighReg(s)] << Count(v)
  {
    LeftIsShift(s1.r[HighReg(s)], Count(v), s1.f.c);
  }

  /** ASH to the right keeps the sign, so it never sets V. */
  lemma AshRight(s: State, v: bv16, s1: State)
    requires s.ctl.gen >= 1 && (v, s1) == Src(s, Opcode(s), false) && Has(Count(v), 0x20)
    ensures Neg16(Ash(s).r[HighReg(s)]) == Neg16(s1.r[HighReg(s)]) && !Ash(s).f.v
  {
    RightKeepsSign(s1.r[HighReg(s)], 0x40 - Count(v), s1.f.c);
    SignKept(s1.r[HighReg(s)], Ash(s).r[HighReg(s)]);
  }

  /** Words with the same sign bit show no sign change. */
  lemma SignKept(a: bv16, b: bv16)
    requires Neg16(a) == Neg16(b)
    ensures !SignChanged(a, b)
  {
  }

  // ---------------------------------------------------------------------
  // Reset

  /** After a reset R0..R6 are 0, PC is on a 256-byte boundary, no PSW bit is set and nothing is pending or waiting. */
  lemma ResetClears(s: State)
    ensures forall i :: 0 <= i < 7 ==> Reset(s).r[i] == 0
    ensures Lo(Reset(s).r[7]) == 0
    ensures Reset(s).f == Psw(false, false, false, false, false, false, false, false)
    ensures Reset(s).ctl.intrq == {} && !Reset(s).ctl.wait && !Reset(s).ctl.halt
    ensures Reset(s).timer.flag == 1
  {
    PageAligned(Rd(s, 0xffce));
  }

  /** The start page has a zero low byte. */
  lemma PageAligned(w: bv16)
    ensures Lo(PageOf(w)) == 0 && Hi(PageOf(w)) == Hi(w)
  {
  }
}
