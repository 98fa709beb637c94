// The 80286 engine of src/libxpeccy/cpu/i80286: the processor record, the bus access of
// real and protected mode, the segment-rights predicates, descriptor-cache loading and the
// stack.
//
// The bus callbacks (cpu_mrd, cpu_mwr, cpu_fetch) become a byte map the model owns, keyed
// by the physical address `base + offset`. The helpers whose bodies live elsewhere (the
// ALU, the rotates, x86_get_flag / x86_set_flag, parity, the port-read callback) are
// parameters of a step, collected in `Env`. THROW and THROW_EC end the handler that
// raises them: a step that throws yields `Stop` with the vector and the error code.

module I286 {
  import opened Common

  // ---------------------------------------------------------------------------
  // The processor record

  /** A physical bus address. */
  datatype Phys = Phys(a: bv32)

  /**
   * A segment register with its descriptor cache (xSegPtr): the selector, the 24-bit
   * base, the limit, the access bits AR (type and S bit), the privilege level and the
   * decoded attributes.
   */
  datatype Seg = Seg(
    idx: bv16, base: bv32, limit: bv16, ar: bv8, pl: bv8,
    pr: bool, sys: bool, code: bool, data: bool, ext: bool, rd: bool, wr: bool)

  /** The general registers and IP. The byte registers AL..BH are halves of AX..DX. */
  datatype Regs = Regs(ax: bv16, cx: bv16, dx: bv16, bx: bv16, sp: bv16, bp: bv16, si: bv16, di: bv16, ip: bv16)

  /** The flag fields flgC .. flgN and regIOPL. */
  datatype Flags = Flags(
    c: bool, p: bool, a: bool, z: bool, s: bool, t: bool, i: bool, d: bool, o: bool, n: bool, iopl: bv8)

  /** The machine status word bits the handlers test: PE, MP, EM, TS. */
  datatype Msw = Msw(pe: bool, mp: bool, em: bool, ts: bool)

  /** The four segment registers. */
  datatype Segs = Segs(es: Seg, cs: Seg, ss: Seg, ds: Seg)

  /** The processor generation the opcode table is read for: 0 (8086), 1 (80186), 2 (80286). */
  type Gen = g: nat | g < 3

  /**
   * The system part: MSW, the access mode installed by x86_set_mode (`prot` for the
   * protected-mode fetch and memory routines), the descriptor-table registers GDTR and
   * LDTR, the task register TSDR, the x87 status word and the generation.
   */
  datatype Sys = Sys(msw: Msw, prot: bool, gdtr: Seg, ldtr: Seg, tsdr: Seg, x87sr: bv16, gen: Gen)

  /** The REP prefix state regREP. */
  datatype Rep = RepNone | RepZ | RepNz

  /** The opcode table opTab points at: the primary table or the 0F page. */
  datatype Page = Primary | Page0F

  /** An interrupt line of intrq / inten; BlkNmi is the bit that blocks NMI. */
  datatype Line = BlkNmi | Line(n: nat)

  /**
   * The control part: the REP prefix, LOCK, HALT, the requested and enabled interrupt
   * lines, the address of the current instruction (oldpc) and the opcode page.
   */
  datatype Ctl = Ctl(
    rep: Rep, lock: bool, halt: bool, intrq: set<Line>, inten: set<Line>, oldpc: bv16, tab: Page)

  /** One call of the port-write callback: port, value and the word flag flgWRD. */
  datatype PortWrite = PortWrite(port: bv16, value: bv16, word: bool)

  /**
   * The processor as the handlers see it: registers, flags, the segment registers, the
   * segment-override prefix `seg` (None when no prefix is in force), the system and
   * control parts, memory, the cycle counter `t` and the port writes so far.
   */
  datatype State = State(
    r: Regs, f: Flags, sg: Segs, ovr: Option<Seg>, sys: Sys, ctl: Ctl,
    mem: map<Phys, bv8>, t: nat, outs: seq<PortWrite>)

  // ---------------------------------------------------------------------------
  // Outcomes

  /** The vectors I286_INT_xx the handlers raise, and a vector given as a number. */
  datatype Vec = IntDE | IntBR | IntUD | IntNM | IntOF | IntTS | IntNP | IntSS | IntGP | IntSL | IntMF | IntNum(n: int)

  /**
   * How a handler ends early: THROW / THROW_EC, a call of i286_interrupt, the hand-over to
   * the x87 (x87_exec), a task switch that has passed its entry checks, or a path whose
   * outcome depends on scratch fields an earlier instruction left behind (StaleScratch).
   */
  datatype Abort =
    | Throw(vec: Vec, code: Option<bv16>)
    | Interrupt(vec: Vec)
    | Coprocessor
    | TaskSwitch(sel: bv16, nest: bool, iret: bool)
    | StaleScratch

  /** A step's result: a value and the state after it, or an early end and the state at that point. */
  datatype Out<+T> = Ok(val: T, st: State) | Stop(why: Abort, st: State)
  {
    predicate IsFailure() { Stop? }

    function PropagateFailure<U>(): Out<U>
      requires Stop?
    {
      Stop(why, st)
    }

    function Extract(): (T, State)
      requires Ok?
    {
      (val, st)
    }
  }

  /** The outcome of a step that yields no value. */
  function Done(s: State): Out<()>
  {
    Ok((), s)
  }

  function Fault(s: State, v: Vec): Out<()>
  {
    Stop(Throw(v, None), s)
  }

  function FaultCode(s: State, v: Vec, code: bv16): Out<()>
  {
    Stop(Throw(v, Some(code)), s)
  }

  // ---------------------------------------------------------------------------
  // What a step takes from outside this file

  /** The rotates and shifts of the C0/C1/D0..D3 group (reg field /6 is SAL again). */
  datatype RotOp = Rol | Ror | Rcl | Rcr | Sal | Shr | Sar

  /**
   * The helpers whose bodies are not part of this model: the ALU helpers (given the flags
   * and the operands they return the result and the new flags; the last argument of
   * add/sub is the carry in), the rotates, signed multiplication, x86_get_flag and
   * x86_set_flag, parity, and the port-read callback (cpu_ird, masked to 16 bits).
   */
  datatype Env = Env(
    add8: (Flags, bv8, bv8, bool) -> (bv8, Flags),
    sub8: (Flags, bv8, bv8, bool) -> (bv8, Flags),
    and8: (Flags, bv8, bv8) -> (bv8, Flags),
    or8: (Flags, bv8, bv8) -> (bv8, Flags),
    xor8: (Flags, bv8, bv8) -> (bv8, Flags),
    add16: (Flags, bv16, bv16, bool) -> (bv16, Flags),
    sub16: (Flags, bv16, bv16, bool) -> (bv16, Flags),
    and16: (Flags, bv16, bv16) -> (bv16, Flags),
    or16: (Flags, bv16, bv16) -> (bv16, Flags),
    xor16: (Flags, bv16, bv16) -> (bv16, Flags),
    rot8: (RotOp, Flags, bv8) -> (bv8, Flags),
    rot16: (RotOp, Flags, bv16) -> (bv16, Flags),
    smul: (Flags, bv16, bv16) -> (int, Flags),
    getFlag: Flags -> bv16,
    setFlag: (Flags, bv16) -> Flags,
    parity: bv8 -> bool,
    ird: bv16 -> bv16)

  /** The number of set bits of a byte. */
  function Ones(v: bv8): nat
  {
    (if v & 0x80 != 0 then 1 else 0) + (if v & 0x40 != 0 then 1 else 0) +
    (if v & 0x20 != 0 then 1 else 0) + (if v & 0x10 != 0 then 1 else 0) +
    (if v & 0x08 != 0 then 1 else 0) + (if v & 0x04 != 0 then 1 else 0) +
    (if v & 0x02 != 0 then 1 else 0) + (if v & 0x01 != 0 then 1 else 0)
  }

  /** `parity` is even parity of the byte it is given: set for an even number of ones. */
  ghost predicate EvenParity(env: Env)
  {
    forall v: bv8 :: env.parity(v) <==> Ones(v) % 2 == 0
  }

  // ---------------------------------------------------------------------------
  // Bits and words

  predicate Has16(v: bv16, m: bv16)
  {
    v & m != 0
  }

  /** A byte sign-extended to a word, as `htw = (ltw & 0x80) ? 0xff : 0x00` does. */
  function SignExtend(b: bv8): bv16
  {
    Word(if HasAny(b, 0x80) then 0xff else 0x00, b)
  }

  /** A byte zero-extended to a word. */
  function Widen(b: bv8): bv16
  {
    Word(0, b)
  }

  /** The low 16 bits of an int, as `& 0xffff` keeps them (two's complement). */
  function Low16(i: int): bv16
  {
    (i % 0x10000) as bv16
  }

  /** `x + d` on a 16-bit register. */
  function Add16(x: bv16, d: bv16): bv16
  {
    x + d
  }

  /** `x - d` on a 16-bit register. */
  function Sub16(x: bv16, d: bv16): bv16
  {
    x - d
  }

  /** The physical address of `adr` in `seg`: base + offset. */
  function At(seg: Seg, adr: bv16): Phys
  {
    Phys(seg.base + adr as bv32)
  }

  /** The physical address `adr + k`. */
  function Off(adr: bv32, k: bv32): Phys
  {
    Phys(adr + k)
  }

  /** A byte of memory; the callback of an address nothing was stored at reads FF. */
  function Peek(m: map<Phys, bv8>, p: Phys): bv8
  {
    if p in m then m[p] else 0xff
  }

  // ---------------------------------------------------------------------------
  // Registers by number

  /** The reg field of a ModRM byte, bits 3..5. */
  function RegField(m: bv8): bv8
  {
    (m >> 3) & 7
  }

  /** The r/m field of a ModRM byte, bits 0..2. */
  function RmField(m: bv8): bv8
  {
    m & 7
  }

  /** AX CX DX BX SP BP SI DI by number. */
  function Reg16(r: Regs, n: bv8): bv16
  {
    var k := n & 7;
    if k == 0 then r.ax else if k == 1 then r.cx else if k == 2 then r.dx else if k == 3 then r.bx
    else if k == 4 then r.sp else if k == 5 then r.bp else if k == 6 then r.si else r.di
  }

  function SetReg16(r: Regs, n: bv8, v: bv16): Regs
  {
    var k := n & 7;
    if k == 0 then r.(ax := v) else if k == 1 then r.(cx := v) else if k == 2 then r.(dx := v)
    else if k == 3 then r.(bx := v) else if k == 4 then r.(sp := v) else if k == 5 then r.(bp := v)
    else if k == 6 then r.(si := v) else r.(di := v)
  }

  /** AL CL DL BL AH CH DH BH by number: the low bytes of AX..BX, then their high bytes. */
  function Reg8(r: Regs, n: bv8): bv8
  {
    var k := n & 7;
    if k == 0 then Lo(r.ax) else if k == 1 then Lo(r.cx) else if k == 2 then Lo(r.dx)
    else if k == 3 then Lo(r.bx) else if k == 4 then Hi(r.ax) else if k == 5 then Hi(r.cx)
    else if k == 6 then Hi(r.dx) else Hi(r.bx)
  }

  function SetReg8(r: Regs, n: bv8, v: bv8): Regs
  {
    var k := n & 7;
    if k == 0 then r.(ax := Word(Hi(r.ax), v)) else if k == 1 then r.(cx := Word(Hi(r.cx), v))
    else if k == 2 then r.(dx := Word(Hi(r.dx), v)) else if k == 3 then r.(bx := Word(Hi(r.bx), v))
    else if k == 4 then r.(ax := Word(v, Lo(r.ax))) else if k == 5 then r.(cx := Word(v, Lo(r.cx)))
    else if k == 6 then r.(dx := Word(v, Lo(r.dx))) else r.(bx := Word(v, Lo(r.bx)))
  }

  /** AL and AH. */
  function AL(r: Regs): bv8 { Lo(r.ax) }

  function AH(r: Regs): bv8 { Hi(r.ax) }

  function SetAL(r: Regs, v: bv8): Regs { r.(ax := Word(Hi(r.ax), v)) }

  function SetAH(r: Regs, v: bv8): Regs { r.(ax := Word(v, Lo(r.ax))) }

  // ---------------------------------------------------------------------------
  // Segment rights (i286_check_segment_*, i286_check_iopl)

  predicate PE(s: State)
  {
    s.sys.msw.pe
  }

  /** i286_check_segment_limit: an offset past the limit fails, in protected mode only. */
  predicate CheckLimit(s: State, seg: Seg, adr: bv16)
  {
    !PE(s) || !(seg.limit < adr)
  }

  /** i286_check_segment_exec: only a code segment (S and bit 3 of AR) is executable. */
  predicate CheckExec(s: State, seg: Seg)
  {
    !PE(s) || (HasAny(seg.ar, 0x10) && HasAny(seg.ar, 0x08))
  }

  /** i286_check_segment_rd: data segments and readable code segments are readable. */
  predicate CheckRd(s: State, seg: Seg)
  {
    !PE(s) || (HasAny(seg.ar, 0x10) && (!HasAny(seg.ar, 0x08) || HasAny(seg.ar, 0x02)))
  }

  /** i286_check_segment_wr: only a writeable data segment is writeable. */
  predicate CheckWr(s: State, seg: Seg)
  {
    !PE(s) || (HasAny(seg.ar, 0x10) && !HasAny(seg.ar, 0x08) && HasAny(seg.ar, 0x02))
  }

  /** i286_check_iopl: in protected mode CPL may not exceed IOPL. */
  predicate CheckIopl(s: State)
  {
    !PE(s) || s.sg.cs.pl <= s.f.iopl
  }

  // ---------------------------------------------------------------------------
  // Bus access (i286_mrd / i286_mwr through the routines x86_set_mode installs)

  /** The segment an access goes through: a data access (rpl) takes the override prefix. */
  function Eff(s: State, seg: Seg, rpl: bool): Seg
  {
    if rpl && s.ovr.Some? then s.ovr.value else seg
  }

  /**
   * A byte read. Real mode: one cycle and no checks. Protected mode: an unreadable segment
   * raises #GP with its selector, an offset past the limit raises the limit fault.
   */
  function Mrd(s: State, seg: Seg, rpl: bool, adr: bv16): Out<bv8>
  {
    var sg := Eff(s, seg, rpl);
    if !s.sys.prot then Ok(Peek(s.mem, At(sg, adr)), s.(t := s.t + 1))
    else if !CheckRd(s, sg) then Stop(Throw(IntGP, Some(sg.idx)), s)
    else if !CheckLimit(s, sg, adr) then Stop(Throw(IntSL, None), s)
    else Ok(Peek(s.mem, At(sg, adr)), s)
  }

  /**
   * A byte write. Protected mode: an unwriteable segment raises #GP with its selector; an
   * offset past the limit first rewinds IP to the start of the instruction.
   */
  function Mwr(s: State, seg: Seg, rpl: bool, adr: bv16, v: bv8): Out<()>
  {
    var sg := Eff(s, seg, rpl);
    if !s.sys.prot then Done(s.(mem := s.mem[At(sg, adr) := v], t := s.t + 1))
    else if !CheckWr(s, sg) then FaultCode(s, IntGP, sg.idx)
    else if !CheckLimit(s, sg, adr) then Fault(s.(r := s.r.(ip := s.ctl.oldpc)), IntSL)
    else Done(s.(mem := s.mem[At(sg, adr) := v]))
  }

  /** The instruction fetch: the byte at CS:IP, then IP moves on; protected mode checks the CS limit. */
  function Fetch(s: State): Out<bv8>
  {
    if s.sys.prot && !CheckLimit(s, s.sg.cs, s.r.ip) then Stop(Throw(IntSL, None), s)
    else Ok(Peek(s.mem, At(s.sg.cs, s.r.ip)), s.(r := s.r.(ip := Succ(s.r.ip))))
  }

  /** i286_rd_immw: the low byte, then the high byte. */
  function FetchWord(s: State): Out<bv16>
  {
    var (lo, s1) :- Fetch(s);
    var (hi, s2) :- Fetch(s1);
    Ok(Word(hi, lo), s2)
  }

  /** i286_sys_mrdw: a word at `base + adr` with no checks, low byte first. */
  function SysWord(s: State, seg: Seg, adr: bv16): bv16
  {
    var p := At(seg, adr).a;
    Word(Peek(s.mem, Off(p, 1)), Peek(s.mem, Phys(p)))
  }

  // ---------------------------------------------------------------------------
  // Descriptor cache (i286_cash_seg_a, i286_cash_seg)

  /** The S bit: set for code and data segments, clear for system segments and gates. */
  function DecodeDescriptor(b0: bv8, b1: bv8, b2: bv8, b3: bv8, b4: bv8, acc: bv8): Seg
  {
    var sys := !HasAny(acc, 0x10);
    var code := acc & 0x18 == 0x18;
    var data := acc & 0x18 == 0x10;
    var w := Word(b3, b2) as bv32;
    Seg(0, (b4 as bv32 << 16) | w, Word(b1, b0), acc & 0x1f, (acc >> 5) & 3,
        HasAny(acc, 0x80), sys, code, data,
        !sys && HasAny(acc, 0x04),
        sys || data || (code && HasAny(acc, 0x02)),
        sys || (data && HasAny(acc, 0x02)))
  }

  /**
   * i286_cash_seg_a: the six descriptor bytes at `adr`: limit (bytes 0-1), 24-bit base
   * (bytes 2-4) and the access byte (byte 5).
   */
  function CashSegA(m: map<Phys, bv8>, adr: bv32): Seg
  {
    DecodeDescriptor(Peek(m, Phys(adr)), Peek(m, Off(adr, 1)), Peek(m, Off(adr, 2)),
                     Peek(m, Off(adr, 3)), Peek(m, Off(adr, 4)), Peek(m, Off(adr, 5)))
  }

  /** The offset of a selector's descriptor in its table: the selector without RPL and TI. */
  function TableOffset(sel: bv16): bv16
  {
    sel & 0xfff8
  }

  /** The table a selector names: the LDT when bit 2 (TI) is set, else the GDT. */
  function TableIn(sys: Sys, sel: bv16): Seg
  {
    if Has16(sel, 4) then sys.ldtr else sys.gdtr
  }

  function TableOf(s: State, sel: bv16): Seg
  {
    TableIn(s.sys, sel)
  }

  /** The real-mode segment of a selector: base sel<<4 and limit FFFF. */
  function RealSeg(sel: bv16): Seg
  {
    Seg(sel, (sel as bv32) << 4, 0xffff, 0, 0, false, false, false, false, false, false, false)
  }

  /** The physical address of a selector's descriptor: table base plus table offset. */
  function DescriptorIn(sys: Sys, sel: bv16): bv32
  {
    TableIn(sys, sel).base + TableOffset(sel) as bv32
  }

  function DescriptorAt(s: State, sel: bv16): bv32
  {
    DescriptorIn(s.sys, sel)
  }

  /** The selector's table offset lies past the limit of its table. */
  predicate PastTable(sys: Sys, sel: bv16)
  {
    TableOffset(sel) > TableIn(sys, sel).limit
  }

  predicate OutsideTable(s: State, sel: bv16)
  {
    PastTable(s.sys, sel)
  }

  /**
   * i286_cash_seg. Protected mode: the descriptor at the selector's table offset, whose
   * selector field is that offset; an offset past the table limit raises #GP(offset).
   * Real mode: RealSeg.
   */
  function CashSeg(s: State, sel: bv16): Out<Seg>
  {
    match LoadSeg(s.sys, s.mem, sel)
    case Some(seg) => Ok(seg, s)
    case None => Stop(Throw(IntGP, Some(TableOffset(sel))), s)
  }

  /** The descriptor cache load on the system part and memory: None when the offset is past the table limit. */
  function LoadSeg(sys: Sys, mem: map<Phys, bv8>, sel: bv16): Option<Seg>
  {
    if sys.msw.pe then
      if PastTable(sys, sel) then None
      else Some(CashSegA(mem, DescriptorIn(sys, sel)).(idx := TableOffset(sel)))
    else Some(RealSeg(sel))
  }

  // ---------------------------------------------------------------------------
  // Stack (i286_push, i286_pop)

  /** Fewer than two bytes left below SP. */
  predicate StackShort(sp: bv16)
  {
    sp < 2
  }

  /**
   * i286_push: in protected mode SP < 2 raises the stack fault before SP changes;
   * otherwise SP drops by 2 and the low byte goes to SS:SP, the high byte to SS:SP+1.
   */
  function Push(s: State, w: bv16): Out<()>
  {
    if PE(s) && StackShort(s.r.sp) then Fault(s, IntSS)
    else
      var sp := Pred(Pred(s.r.sp));
      var s1 := s.(r := s.r.(sp := sp));
      var (_, s2) :- Mwr(s1, s1.sg.ss, false, sp, Lo(w));
      Mwr(s2, s2.sg.ss, false, Succ(sp), Hi(w))
  }

  /**
   * The word at SP does not lie within the stack segment: its upper byte SP+1, computed
   * without wrapping, is past the limit.
   */
  predicate PopPastLimit(sp: bv16, limit: bv16)
  {
    sp == 0xffff || Succ(sp) > limit
  }

  /**
   * i286_pop, with the limit test of the word it reads (see PopAsWritten): the low byte
   * from SS:SP, the high byte from SS:SP+1, then SP rises by 2.
   */
  function Pop(s: State): Out<bv16>
  {
    if PE(s) && PopPastLimit(s.r.sp, s.sg.ss.limit) then Stop(Throw(IntSS, None), s)
    else
      var (lo, s1) :- Mrd(s, s.sg.ss, false, s.r.sp);
      var (hi, s2) :- Mrd(s1, s1.sg.ss, false, Succ(s.r.sp));
      Ok(Word(hi, lo), s2.(r := s2.r.(sp := Succ(Succ(s.r.sp)))))
  }

  /** i286_pop as written: the stack fault is raised when SP + 2, computed without wrapping, exceeds the limit. */
  function PopAsWritten(s: State): Out<bv16>
  {
    if PE(s) && (s.r.sp >= 0xfffe || Succ(Succ(s.r.sp)) > s.sg.ss.limit) then Stop(Throw(IntSS, None), s)
    else
      var (lo, s1) :- Mrd(s, s.sg.ss, false, s.r.sp);
      var (hi, s2) :- Mrd(s1, s1.sg.ss, false, Succ(s.r.sp));
      Ok(Word(hi, lo), s2.(r := s2.r.(sp := Succ(Succ(s.r.sp)))))
  }
}
