// One step of the K1801VM1 (`pdp11_exec`): the interrupt check, the
// fetch, the dispatch through the opcode tables (`pdp_tab_a` and the
// nested `pdp_*_tab` tables) and the timer.

module Pdp11Exec {
  import opened Common
  import opened Pdp11
  import opened Pdp11Alu
  import Ops = Pdp11Ops

  /** The handler an opcode dispatches to. */
  datatype Op =
    | Halt | Wait | Rti | Bpt | Iot | ResetBus | Rtt | Start | Undefined
    | Jmp | Rts | Cl | Se | Branch(c: Cond) | Jsr
    | Clr | One(w: WordOp) | Tst | Mark | Sxt | Emt | TrapInstr
    | Clrb | OneB(b: ByteOp) | Tstb | Mtps | Mfps
    | Mul | Div | Ash | Ashc | Xor | Sob
    | Mov | Cmp | LogicW(l: Logic) | Add | Movb | Cmpb | LogicB(l: Logic) | Sub

  // ---------------------------------------------------------------------
  // The opcode tables

  /** The four-bit field of an opcode starting at bit `k`. */
  function Nibble(com: bv16, k: bv16): bv16
    requires k <= 12
  {
    (com >> k) & 0xf
  }

  /** Bits 6 and 7 of an opcode, which select among four handlers of a group. */
  function Quarter(com: bv16): bv16
  {
    (com >> 6) & 3
  }

  /** `pdp_tab_a`, indexed by the top four bits. */
  function Decode(com: bv16): Op
  {
    var a := Nibble(com, 12);
    if a == 0 then Decode0(com)
    else if a == 1 then Mov else if a == 2 then Cmp else if a == 3 then LogicW(BitTest)
    else if a == 4 then LogicW(Bic) else if a == 5 then LogicW(Bis) else if a == 6 then Add
    else if a == 7 then Decode7(com) else if a == 8 then Decode8(com)
    else if a == 9 then Movb else if a == 10 then Cmpb else if a == 11 then LogicB(BitTest)
    else if a == 12 then LogicB(Bic) else if a == 13 then LogicB(Bis) else if a == 14 then Sub
    else Undefined
  }

  /** `pdp_tab_0nxx`, indexed by bits 8..11. */
  function Decode0(com: bv16): Op
  {
    var b := Nibble(com, 8);
    var k := Quarter(com);
    if b == 0 then Decode00(com)
    else if b == 1 then Branch(Br) else if b == 2 then Branch(Bne) else if b == 3 then Branch(Beq)
    else if b == 4 then Branch(Bge) else if b == 5 then Branch(Blt) else if b == 6 then Branch(Bgt)
    else if b == 7 then Branch(Ble)
    else if b == 8 || b == 9 then Jsr
    else if b == 10 then (if k == 0 then Clr else if k == 1 then One(Com) else if k == 2 then One(Inc) else One(Dec))
    else if b == 11 then (if k == 0 then One(Neg) else if k == 1 then One(Adc) else if k == 2 then One(Sbc) else Tst)
    else if b == 12 then (if k == 0 then One(Ror) else if k == 1 then One(Rol) else if k == 2 then One(Asr) else One(Asl))
    else if b == 13 then (if k == 0 then Mark else if k == 3 then Sxt else Undefined)
    else Undefined
  }

  /** `pdp_00nx_tab`, indexed by bits 4..7. */
  function Decode00(com: bv16): Op
  {
    var c := Nibble(com, 4);
    if c == 0 then Decode000(com)
    else if c <= 3 then Undefined
    else if c <= 7 then Jmp
    else if c == 8 then Rts
    else if c == 9 then Undefined
    else if c == 10 then Cl
    else if c == 11 then Se
    else One(Swab)
  }

  /** `pdp_000n_tab`, indexed by the low four bits; 0010..0017 run START and STEP, which share one body. */
  function Decode000(com: bv16): Op
  {
    var d := Nibble(com, 0);
    if d == 0 then Halt else if d == 1 then Wait else if d == 2 then Rti else if d == 3 then Bpt
    else if d == 4 then Iot else if d == 5 then ResetBus else if d == 6 then Rtt
    else if d == 7 then Undefined else Start
  }

  /** `pdp_7nxx_tab`, indexed by bits 9..11; 075xxx (the VM2 floating point) is undefined here. */
  function Decode7(com: bv16): Op
  {
    var e := (com >> 9) & 7;
    if e == 0 then Mul else if e == 1 then Div else if e == 2 then Ash else if e == 3 then Ashc
    else if e == 4 then Xor else if e == 7 then Sob else Undefined
  }

  /** `pdp_8nxx_tab`, indexed by bits 8..11. */
  function Decode8(com: bv16): Op
  {
    var b := Nibble(com, 8);
    var k := Quarter(com);
    if b == 0 then Branch(Bpl) else if b == 1 then Branch(Bmi) else if b == 2 then Branch(Bhi)
    else if b == 3 then Branch(Blos) else if b == 4 then Branch(Bvc) else if b == 5 then Branch(Bvs)
    else if b == 6 then Branch(Bcc) else if b == 7 then Branch(Bcs)
    else if b == 8 then Emt else if b == 9 then TrapInstr
    else if b == 10 then (if k == 0 then Clrb else if k == 1 then OneB(Comb) else if k == 2 then OneB(Incb) else OneB(Decb))
    else if b == 11 then (if k == 0 then OneB(Negb) else if k == 1 then OneB(Adcb) else if k == 2 then OneB(Sbcb) else Tstb)
    else if b == 12 then (if k == 0 then OneB(Rorb) else if k == 1 then OneB(Rolb) else if k == 2 then OneB(Asrb) else OneB(Aslb))
    else if b == 13 then (if k == 0 then Mtps else if k == 3 then Mfps else Undefined)
    else Undefined
  }

  /** The handler call of an entry of the tables. */
  function Run(s: State, op: Op): State
  {
    match op
    case Halt => s
    case Wait => Ops.Wait(s)
    case Rti => Ops.Rti(s)
    case Bpt => Ops.Bpt(s)
    case Iot => Ops.Iot(s)
    case ResetBus => Ops.ResetBus(s)
    case Rtt => Ops.Rtt(s)
    case Start => Ops.Start(s)
    case Undefined => Ops.Undefined(s)
    case Jmp => Ops.Jmp(s)
    case Rts => Ops.Rts(s)
    case Cl => Ops.Cl(s)
    case Se => Ops.Se(s)
    case Branch(c) => Ops.Branch(s, c)
    case Jsr => Ops.Jsr(s)
    case Clr => Ops.Clr(s)
    case One(w) => Ops.OneWord(s, w)
    case Tst => Ops.Tst(s)
    case Mark => Ops.Mark(s)
    case Sxt => Ops.Sxt(s)
    case Emt => Ops.Emt(s)
    case TrapInstr => Ops.TrapInstr(s)
    case Clrb => Ops.Clrb(s)
    case OneB(b) => Ops.OneByte(s, b)
    case Tstb => Ops.Tstb(s)
    case Mtps => Ops.Mtps(s)
    case Mfps => Ops.Mfps(s)
    case Mul => Ops.Mul(s)
    case Div => Ops.Div(s)
    case Ash => Ops.Ash(s)
    case Ashc => Ops.Ashc(s)
    case Xor => Ops.Xor(s)
    case Sob => Ops.Sob(s)
    case Mov => Ops.Mov(s)
    case Cmp => Ops.Cmp(s)
    case LogicW(l) => Ops.LogicW(s, l)
    case Add => Ops.Add(s)
    case Movb => Ops.Movb(s)
    case Cmpb => Ops.Cmpb(s)
    case LogicB(l) => Ops.LogicB(s, l)
    case Sub => Ops.Sub(s)
  }

  // ---------------------------------------------------------------------
  // One step

  /** How a step ends: the cycles it took and the new state, or never, when the timer loop cannot end. */
  datatype Outcome = Step(cycles: nat, s: State) | Hang

  /** The start of a step: the old PC is remembered and the cycle counter cleared. */
  function Begin(s: State): State
  {
    s.(lat := s.lat.(oldpc := s.r[7]), t := 0)
  }

  /** The fetch: the word at PC becomes the opcode, PC moves past it, 8 cycles. */
  function Fetch(s: State): State
  {
    s.(lat := s.lat.(com := Rd(s, s.r[7])), r := s.r[7 := Next(s.r[7])], t := s.t + 8)
  }

  /** An enabled request is pending. */
  predicate Pending(s: State)
  {
    s.ctl.intrq * s.ctl.inten != {}
  }

  /**
   * The end of a step: the timer runs for the step's cycles.  Its loop adds
   * the period while the counter is negative, so a running timer whose
   * counter ends negative with a period of 0 or less never returns.
   */
  function Finish(s: State): Outcome
  {
    if HasAny(s.timer.flag, 1) || Settles(s.timer.(cnt := s.timer.cnt - s.t))
    then Step(s.t, RunTimer(s, s.t))
    else Hang
  }

  /**
   * `pdp11_exec`: a pending enabled request is served in 10 cycles and no
   * instruction is fetched; otherwise the opcode at PC is fetched and
   * dispatched; then the timer runs.
   */
  function Exec(s: State): Outcome
  {
    var s0 := Begin(s);
    if Pending(s0) then
      var (k, s1) := Interrupt(s0);
      Finish(s1.(t := k))
    else
      var s1 := Fetch(s0);
      Finish(Run(s1, Decode(s1.lat.com)))
  }

  // ---------------------------------------------------------------------
  // Properties of a step

  /** Without a pending request the step fetches the word at PC and runs the handler the tables select for it. */
  lemma QuietStep(s: State)
    requires !Pending(s)
    ensures var s1 := Fetch(Begin(s));
      s1.lat.com == Rd(s, s.r[7]) && s1.r[7] == Next(s.r[7]) && s1.t == 8 && s1.lat.oldpc == s.r[7]
    ensures Exec(s) == Finish(Run(Fetch(Begin(s)), Decode(Rd(s, s.r[7]))))
  {
  }

  /** With a pending request the step takes 10 cycles plus nothing else: no opcode is fetched. */
  lemma InterruptStep(s: State)
    requires Pending(s)
    ensures Exec(s) == Finish(Interrupt(Begin(s)).1.(t := 10))
    ensures Interrupt(Begin(s)).1.lat.com == s.lat.com
  {
    InterruptServesHighest(Begin(s));
    InterruptKeepsOpcode(Begin(s));
  }

  /** Serving an interrupt leaves the opcode latch alone. */
  lemma InterruptKeepsOpcode(s: State)
    ensures Interrupt(s).1.lat.com == s.lat.com
  {
    var q := s.ctl.intrq * s.ctl.inten;
    if q != {} {
      var s0 := s.(ctl := s.ctl.(intrq := q));
      var s1 := if s0.ctl.wait then s0.(ctl := s0.ctl.(wait := false), r := s0.r[7 := Next(s0.r[7])]) else s0;
      ServeKeepsOpcode(s1.(ctl := s1.ctl.(intrq := q - {Highest(q)})), Highest(q));
    }
  }

  lemma ServeKeepsOpcode(s: State, h: Irq)
    ensures Serve(s, h).lat.com == s.lat.com
  {
    match h
    case Irq1 =>
    case Irq2 => TrapKeepsOpcode(SetMcir(s, 5), 0x40);
    case Irq3 => TrapKeepsOpcode(SetMcir(s, 5), 0xb8);
    case Virq => TrapKeepsOpcode(SetMcir(s, 5), s.ctl.intvec);
    case TimerIrq =>
  }

  lemma TrapKeepsOpcode(s: State, vec: bv16)
    ensures Trap(s, vec).lat.com == s.lat.com
  {
  }

  /** The timer changes neither the registers nor the WAIT flag. */
  lemma TimerKeepsRegisters(s: State, t: int)
    requires HasAny(s.timer.flag, 1) || Settles(s.timer.(cnt := s.timer.cnt - t))
    ensures RunTimer(s, t).r == s.r && RunTimer(s, t).ctl.wait == s.ctl.wait
  {
  }

  /**
   * A CPU halted in WAIT resumes on a pending IRQ1 or timer request: WAIT
   * is cleared and PC moves past the WAIT instruction.
   */
  lemma WaitResumes(s: State)
    requires s.ctl.wait && Pending(s)
    requires Highest(s.ctl.intrq * s.ctl.inten) in {Irq1, TimerIrq}
    ensures Exec(s).Step? ==> Exec(s).s.r == s.r[7 := Next(s.r[7])] && !Exec(s).s.ctl.wait
  {
    InterruptEndsWait(Begin(s));
    var s1 := Interrupt(Begin(s)).1.(t := 10);
    if HasAny(s1.timer.flag, 1) || Settles(s1.timer.(cnt := s1.timer.cnt - s1.t)) {
      TimerKeepsRegisters(s1, s1.t);
    }
  }

  /** RESET stops the timer, so the step that executes it ends without touching the timer. */
  lemma ResetStopsTimer(s: State)
    ensures Finish(Run(s, ResetBus)) == Step(s.t + 448, Run(s, ResetBus))
  {
    StoppedTimer(Ops.ResetBus(s), s.t + 448);
  }

  /** After a processor reset nothing is pending, so the first step fetches its opcode from the start page. */
  lemma ResetThenFetch(s: State)
    ensures var s1 := Ops.Reset(s);
      Exec(s1) == Finish(Run(Fetch(Begin(s1)), Decode(Rd(s1, Ops.PageOf(Rd(s, 0xffce))))))
  {
    Ops.ResetClears(s);
    QuietStep(Ops.Reset(s));
  }

  // ---------------------------------------------------------------------
  // The tables against an encoding

  /**
   * The lowest opcode of each entry of the tables (all operand fields zero);
   * it decodes back to the same handler.
   */
  function Encode(op: Op): (com: bv16)
    ensures Decode(com) == op
  {
    if op.Branch? then BranchCodes(op.c); BranchBase(op.c)
    else if op.One? then WordCodes(op.w); WordBase(op.w)
    else if op.OneB? then ByteCodes(op.b); ByteBase(op.b)
    else if op.LogicW? then LogicBase(op.l, false)
    else if op.LogicB? then LogicBase(op.l, true)
    else if IsSystem(op) then SystemBase(op)
    else if IsControl(op) then ControlBase(op)
    else if IsTrapOrByte(op) then TrapOrByteBase(op)
    else if IsEis(op) then EisBase(op)
    else MoveBase(op)
  }

  /** The handlers of `pdp_000n_tab`. */
  predicate IsSystem(op: Op)
  {
    op.Halt? || op.Wait? || op.Rti? || op.Bpt? || op.Iot? || op.ResetBus? || op.Rtt? || op.Start?
  }

  /** The other handlers of the 00xxxx tables without an operation parameter. */
  predicate IsControl(op: Op)
  {
    op.Undefined? || op.Jmp? || op.Rts? || op.Cl? || op.Se? || op.Jsr? || op.Clr? || op.Tst?
    || op.Mark? || op.Sxt?
  }

  /** The handlers of the 10xxxx table without an operation parameter. */
  predicate IsTrapOrByte(op: Op)
  {
    op.Emt? || op.TrapInstr? || op.Clrb? || op.Tstb? || op.Mtps? || op.Mfps?
  }

  /** The handlers of `pdp_7nxx_tab`. */
  predicate IsEis(op: Op)
  {
    op.Mul? || op.Div? || op.Ash? || op.Ashc? || op.Xor? || op.Sob?
  }

  /** HALT 000000 .. RTT 000006 and START 000010. */
  function SystemBase(op: Op): (com: bv16)
    requires IsSystem(op)
    ensures Decode(com) == op
  {
    match op
    case Halt => 0x0000 case Wait => 0x0001 case Rti => 0x0002 case Bpt => 0x0003
    case Iot => 0x0004 case ResetBus => 0x0005 case Rtt => 0x0006 case Start => 0x0008
  }

  /** JMP 0001dd, RTS 00020r, the condition codes 00024x / 00026x, JSR 004rdd, CLR, TST, MARK, SXT; 170000 is undefined. */
  function ControlBase(op: Op): (com: bv16)
    requires IsControl(op)
    ensures Decode(com) == op
  {
    match op
    case Undefined => 0xf000 case Jmp => 0x0040 case Rts => 0x0080 case Cl => 0x00a0
    case Se => 0x00b0 case Jsr => 0x0800 case Clr => 0x0a00 case Tst => 0x0bc0
    case Mark => 0x0d00 case Sxt => 0x0dc0
  }

  /** EMT 104000, TRAP 104400, CLRB, TSTB, MTPS 1064ss and MFPS 1067dd. */
  function TrapOrByteBase(op: Op): (com: bv16)
    requires IsTrapOrByte(op)
    ensures Decode(com) == op
  {
    match op
    case Emt => 0x8800 case TrapInstr => 0x8900 case Clrb => 0x8a00
    case Tstb => 0x8bc0 case Mtps => 0x8d00 case Mfps => 0x8dc0
  }

  /** MUL 070rss, DIV 071rss, ASH 072rss, ASHC 073rss, XOR 074rdd and SOB 077rnn. */
  function EisBase(op: Op): (com: bv16)
    requires IsEis(op)
    ensures Decode(com) == op
  {
    match op
    case Mul => 0x7000 case Div => 0x7200 case Ash => 0x7400
    case Ashc => 0x7600 case Xor => 0x7800 case Sob => 0x7e00
  }

  /** MOV 01ssdd, CMP 02ssdd, ADD 06ssdd, MOVB 11ssdd, CMPB 12ssdd and SUB 16ssdd. */
  function MoveBase(op: Op): (com: bv16)
    requires !op.Branch? && !op.One? && !op.OneB? && !op.LogicW? && !op.LogicB?
    requires !IsSystem(op) && !IsControl(op) && !IsTrapOrByte(op) && !IsEis(op)
    ensures Decode(com) == op
  {
    match op
    case Mov => 0x1000 case Cmp => 0x2000 case Add => 0x6000
    case Movb => 0x9000 case Cmpb => 0xa000 case Sub => 0xe000
  }

  /** BIT, BIC and BIS 03ssdd .. 05ssdd, and their byte forms 13ssdd .. 15ssdd. */
  function LogicBase(l: Logic, byte: bool): (com: bv16)
    ensures Decode(com) == if byte then LogicB(l) else LogicW(l)
  {
    match l
    case BitTest => if byte then 0xb000 else 0x3000
    case Bic => if byte then 0xc000 else 0x4000
    case Bis => if byte then 0xd000 else 0x5000
  }

  /** The branch opcodes: BR 000400 .. BLE 003400 and BPL 100000 .. BCS 103400. */
  function BranchBase(c: Cond): bv16
  {
    match c
    case Br => 0x0100 case Bne => 0x0200 case Beq => 0x0300 case Bge => 0x0400
    case Blt => 0x0500 case Bgt => 0x0600 case Ble => 0x0700
    case Bpl => 0x8000 case Bmi => 0x8100 case Bhi => 0x8200 case Blos => 0x8300
    case Bvc => 0x8400 case Bvs => 0x8500 case Bcc => 0x8600 case Bcs => 0x8700
  }

  /** The one-operand word opcodes 0050dd .. 0063dd and SWAB 0003dd. */
  function WordBase(w: WordOp): bv16
  {
    match w
    case Com => 0x0a40 case Inc => 0x0a80 case Dec => 0x0ac0
    case Neg => 0x0b00 case Adc => 0x0b40 case Sbc => 0x0b80
    case Ror => 0x0c00 case Rol => 0x0c40 case Asr => 0x0c80 case Asl => 0x0cc0
    case Swab => 0x00c0
  }

  /** The one-operand byte opcodes 1050dd .. 1063dd. */
  function ByteBase(b: ByteOp): bv16
  {
    match b
    case Comb => 0x8a40 case Incb => 0x8a80 case Decb => 0x8ac0
    case Negb => 0x8b00 case Adcb => 0x8b40 case Sbcb => 0x8b80
    case Rorb => 0x8c00 case Rolb => 0x8c40 case Asrb => 0x8c80 case Aslb => 0x8cc0
  }

  /** Every branch is reached by its base opcode. */
  lemma BranchCodes(c: Cond)
    ensures Decode(BranchBase(c)) == Branch(c)
  {
    match c
    case Br => case Bne => case Beq => case Bge => case Blt => case Bgt => case Ble =>
    case Bpl => case Bmi => case Bhi => case Blos => case Bvc => case Bvs => case Bcc => case Bcs =>
  }

  /** Every one-operand word operation is reached by its base opcode. */
  lemma WordCodes(w: WordOp)
    ensures Decode(WordBase(w)) == One(w)
  {
    match w
    case Com => case Inc => case Dec => case Neg => case Adc => case Sbc =>
    case Ror => case Rol => case Asr => case Asl => case Swab =>
  }

  /** Every one-operand byte operation is reached by its base opcode. */
  lemma ByteCodes(b: ByteOp)
    ensures Decode(ByteBase(b)) == OneB(b)
  {
    match b
    case Comb => case Incb => case Decb => case Negb => case Adcb => case Sbcb =>
    case Rorb => case Rolb => case Asrb => case Aslb =>
  }

  /** Two handlers with the same base opcode are the same handler. */
  lemma EncodeInjective(a: Op, b: Op)
    requires Encode(a) == Encode(b)
    ensures a == b
  {
  }

  /** A branch opcode decodes to its branch whatever its displacement byte. */
  lemma BranchOffset(c: Cond, off: bv8)
    ensures Decode(BranchBase(c) | off as bv16) == Branch(c)
  {
    match c
    case Br => case Bne => case Beq => case Bge => case Blt => case Bgt => case Ble =>
    case Bpl => case Bmi => case Bhi => case Blos => case Bvc => case Bvs => case Bcc => case Bcs =>
  }

  /** No opcode with the top four bits all set is implemented. */
  lemma TopRowUndefined(com: bv16)
    requires Nibble(com, 12) == 0xf
    ensures Decode(com) == Undefined
  {
  }
}
