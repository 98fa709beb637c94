// The unprefixed instruction set of the Z80 (the npTab page of src/libxpeccy/cpu/Z80):
// the stack helpers, every handler npr00..nprFF, and the decode flags and base cycles
// the table gives each opcode.
//
// Memory is a byte map owned by the model in place of the z80_mrd/z80_mwr callbacks; the
// port-read callback and the ALU helpers whose bodies live elsewhere (z80_add8, z80_sub8,
// z80_and8, ..., z80_inc8, z80_dec8, z80_add16) are parameters of a step.

module Z80 {
  import opened Common
  import Z80Tables

  // ---------------------------------------------------------------------------
  // Registers and flags

  /** The eight flags, each a field of the CPU (flgS .. flgC). */
  datatype Flags = Flags(s: bool, z: bool, f5: bool, h: bool, f3: bool, pv: bool, n: bool, c: bool)

  /** z80_get_flag: the flags as the F register, S Z F5 H F3 P/V N C from bit 7 down. */
  function Pack(f: Flags): bv8
  {
    Bit(f.s, 0x80) | Bit(f.z, 0x40) | Bit(f.f5, 0x20) | Bit(f.h, 0x10) |
    Bit(f.f3, 0x08) | Bit(f.pv, 0x04) | Bit(f.n, 0x02) | Bit(f.c, 0x01)
  }

  /** z80_set_flag: the F register spread over the eight flags. */
  function Unpack(v: bv8): Flags
  {
    Flags(HasAny(v, 0x80), HasAny(v, 0x40), HasAny(v, 0x20), HasAny(v, 0x10),
          HasAny(v, 0x08), HasAny(v, 0x04), HasAny(v, 0x02), HasAny(v, 0x01))
  }

  /**
   * The register file. A and the flags, the pairs BC, DE, HL, SP, PC, the hidden WZ
   * (memptr), and the alternate set A', F', BC', DE', HL'. The byte registers B, C, D,
   * E, H, L, WZh, WZl are the halves of their pairs.
   */
  datatype Regs = Regs(
    a: bv8, f: Flags,
    bc: bv16, de: bv16, hl: bv16, sp: bv16, pc: bv16, wz: bv16,
    a': bv8, f': bv8, bc': bv16, de': bv16, hl': bv16)

  /** The opcode page opTab points at: npTab, or the page a prefix selects. */
  datatype OpTable = NpTab | CbTab | DdTab | EdTab | FdTab

  /** HALT, the interrupt flip-flops, NOINT, and the Z80_INT bit of `inten`. */
  datatype Ctl = Ctl(tab: OpTable, halt: bool, iff1: bool, iff2: bool, noint: bool, intZ80: bool)

  /** One call of the port-write callback. */
  datatype PortWrite = PortWrite(port: bv16, value: bv8)

  /**
   * The CPU as the handlers see it: registers, memory, control bits, the T-state counter
   * `t`, the number of HALT signals raised through cpu_irq, and the port writes so far.
   */
  datatype State = State(
    r: Regs, mem: map<Addr, bv8>, ctl: Ctl, t: nat, haltIrqs: nat, outs: seq<PortWrite>)

  /** The eight ALU operations of 80..BF and the immediate forms. */
  datatype AluOp = Add | Adc | Sub | Sbc | And | Xor | Or | Cp

  /**
   * What a step takes from outside the handlers: the port-read callback (already masked
   * to a byte, as z80_iord does), the 8-bit ALU helpers (given the flags, A and the
   * operand, they return the new A and flags), z80_inc8/z80_dec8 (`true` for inc), and
   * z80_add16.
   */
  datatype Env = Env(
    ird: bv16 -> bv8,
    alu: (AluOp, Flags, bv8, bv8) -> (bv8, Flags),
    incDec: (bool, Flags, bv8) -> (bv8, Flags),
    add16: (Flags, bv16, bv16) -> (bv16, Flags))

  // ---------------------------------------------------------------------------
  // Operands

  /** The 8-bit operands in opcode order; M is the byte at (HL). */
  datatype Reg8 = B | C | D | E | H | L | M | A

  /** The register pairs; AF only for push and pop, SP never for them. */
  datatype RegPair = BC | DE | HL | SP | AF

  /** The eight branch conditions, tested on Z, C, P/V and S. */
  datatype Cond = IfNZ | IfZ | IfNC | IfC | IfPO | IfPE | IfP | IfM

  predicate Holds(cc: Cond, f: Flags)
  {
    match cc
    case IfNZ => !f.z
    case IfZ => f.z
    case IfNC => !f.c
    case IfC => f.c
    case IfPO => !f.pv
    case IfPE => f.pv
    case IfP => !f.s
    case IfM => f.s
  }

  /** An unconditional form (None), or a condition. */
  predicate Taken(cc: Option<Cond>, f: Flags)
  {
    cc.None? || Holds(cc.value, f)
  }

  datatype Operand = OfReg(r: Reg8) | Imm

  // ---------------------------------------------------------------------------
  // The instructions of npTab

  datatype Instr =
    | Nop
    | LdPairImm(p: RegPair)     // 01 11 21 31  ld rr,nn
    | StoreA(p: RegPair)        // 02 12        ld (bc),a / ld (de),a
    | LoadA(p: RegPair)         // 0A 1A        ld a,(bc) / ld a,(de)
    | IncPair(p: RegPair)       // 03 13 23 33
    | DecPair(p: RegPair)       // 0B 1B 2B 3B
    | Inc(r: Reg8)              // 04 0C .. 3C
    | Dec(r: Reg8)              // 05 0D .. 3D
    | LdImm(r: Reg8)            // 06 0E .. 3E  ld r,n
    | Rlca | Rrca | Rla | Rra
    | ExAf                      // 08
    | AddHl(p: RegPair)         // 09 19 29 39
    | Djnz                      // 10
    | Jr(cc: Option<Cond>)      // 18 20 28 30 38
    | StoreHlAbs                // 22  ld (nn),hl
    | LoadHlAbs                 // 2A  ld hl,(nn)
    | StoreAAbs                 // 32  ld (nn),a
    | LoadAAbs                  // 3A  ld a,(nn)
    | Daa | Cpl | Scf | Ccf
    | Ld(dst: Reg8, src: Reg8)  // 40..7F except 76
    | Halt                      // 76
    | Alu(op: AluOp, operand: Operand)  // 80..BF, C6 CE .. FE
    | Ret(cc: Option<Cond>)     // C0 C8 .. F8, C9
    | Pop(p: RegPair)           // C1 D1 E1 F1
    | Push(p: RegPair)          // C5 D5 E5 F5
    | Jp(cc: Option<Cond>)      // C2 CA .. FA, C3
    | Call(cc: Option<Cond>)    // C4 CC .. FC, CD
    | Rst(adr: bv16)            // C7 CF .. FF
    | Prefix(tab: OpTable)      // CB DD ED FD
    | Out | In                  // D3 DB
    | Exx | ExSpHl | JpHl | ExDeHl | LdSpHl | Di | Ei

  function Reg8Of(i: bv8): Reg8
  {
    var k := i & 7;
    if k == 0 then B else if k == 1 then C else if k == 2 then D else if k == 3 then E
    else if k == 4 then H else if k == 5 then L else if k == 6 then M else A
  }

  /** Pairs as ld rr,nn / inc / dec / add hl number them. */
  function PairOf(i: bv8): RegPair
  {
    var k := i & 3;
    if k == 0 then BC else if k == 1 then DE else if k == 2 then HL else SP
  }

  /** Pairs as push and pop number them. */
  function StackPairOf(i: bv8): RegPair
  {
    var k := i & 3;
    if k == 0 then BC else if k == 1 then DE else if k == 2 then HL else AF
  }

  function CondOf(i: bv8): Cond
  {
    var k := i & 7;
    if k == 0 then IfNZ else if k == 1 then IfZ else if k == 2 then IfNC else if k == 3 then IfC
    else if k == 4 then IfPO else if k == 5 then IfPE else if k == 6 then IfP else IfM
  }

  function AluOf(i: bv8): AluOp
  {
    var k := i & 7;
    if k == 0 then Add else if k == 1 then Adc else if k == 2 then Sub else if k == 3 then Sbc
    else if k == 4 then And else if k == 5 then Xor else if k == 6 then Or else Cp
  }

  /** The handler npTab runs for `op`, read off the opcode's fields xx yyy zzz. */
  function Decode(op: bv8): Instr
  {
    var x, y, z := op >> 6, (op >> 3) & 7, op & 7;
    if x == 1 then (if op == 0x76 then Halt else Ld(Reg8Of(y), Reg8Of(z)))
    else if x == 2 then Alu(AluOf(y), OfReg(Reg8Of(z)))
    else if x == 0 then DecodeLow(y, z)
    else DecodeHigh(y, z)
  }

  /** 00..3F */
  function DecodeLow(y: bv8, z: bv8): Instr
  {
    var p, q := y >> 1, y & 1;
    if z == 0 then
      (if y == 0 then Nop else if y == 1 then ExAf else if y == 2 then Djnz
       else if y == 3 then Jr(None) else Jr(Some(CondOf(y - 4))))
    else if z == 1 then (if q == 0 then LdPairImm(PairOf(p)) else AddHl(PairOf(p)))
    else if z == 2 then
      (if y == 0 then StoreA(BC) else if y == 1 then LoadA(BC)
       else if y == 2 then StoreA(DE) else if y == 3 then LoadA(DE)
       else if y == 4 then StoreHlAbs else if y == 5 then LoadHlAbs
       else if y == 6 then StoreAAbs else LoadAAbs)
    else if z == 3 then (if q == 0 then IncPair(PairOf(p)) else DecPair(PairOf(p)))
    else if z == 4 then Inc(Reg8Of(y))
    else if z == 5 then Dec(Reg8Of(y))
    else if z == 6 then LdImm(Reg8Of(y))
    else
      (if y == 0 then Rlca else if y == 1 then Rrca else if y == 2 then Rla
       else if y == 3 then Rra else if y == 4 then Daa else if y == 5 then Cpl
       else if y == 6 then Scf else Ccf)
  }

  /** C0..FF */
  function DecodeHigh(y: bv8, z: bv8): Instr
  {
    var p, q := y >> 1, y & 1;
    if z == 0 then Ret(Some(CondOf(y)))
    else if z == 1 then
      (if q == 0 then Pop(StackPairOf(p))
       else if p == 0 then Ret(None) else if p == 1 then Exx else if p == 2 then JpHl else LdSpHl)
    else if z == 2 then Jp(Some(CondOf(y)))
    else if z == 3 then
      (if y == 0 then Jp(None) else if y == 1 then Prefix(CbTab) else if y == 2 then Out
       else if y == 3 then In else if y == 4 then ExSpHl else if y == 5 then ExDeHl
       else if y == 6 then Di else Ei)
    else if z == 4 then Call(Some(CondOf(y)))
    else if z == 5 then
      (if q == 0 then Push(StackPairOf(p))
       else if p == 0 then Call(None) else if p == 1 then Prefix(DdTab)
       else if p == 2 then Prefix(EdTab) else Prefix(FdTab))
    else if z == 6 then Alu(AluOf(y), Imm)
    else Rst((y as bv16) << 3)
  }

  // ---------------------------------------------------------------------------
  // The npTab entry: decode flags and base cycles (the mnemonic text is not modelled)

  datatype OpFlag = Skipable | RelJump | MWord | MemAdr | PrefixOp

  datatype Entry = Entry(flags: set<OpFlag>, cycles: nat, sub: Option<OpTable>)

  /** The flags, the base T-states and the sub-table of the npTab entry for `op`. */
  function NpEntry(op: bv8): Entry
  {
    var x, y, z := op >> 6, (op >> 3) & 7, op & 7;
    var q := y & 1;
    var cycles :=
      if (x == 0 && z == 3) || op == 0xf9 then 6
      else if x == 0 && z == 1 && q == 1 then 11
      else if op == 0x10 || (x == 3 && (z == 0 || z == 7 || (z == 5 && q == 0))) then 5
      else 4;
    var flags: set<OpFlag> :=
      if op == 0x10 then {Skipable, RelJump}
      else if op == 0x18 || op == 0x20 || op == 0x28 || op == 0x30 || op == 0x38 then {RelJump}
      else if op == 0x22 || op == 0x2a then {MWord, MemAdr}
      else if op == 0x32 || op == 0x3a then {MemAdr}
      else if op == 0x76 || op == 0xcd || (x == 3 && (z == 4 || z == 7)) then {Skipable}
      else if op == 0xcb || op == 0xdd || op == 0xed || op == 0xfd then {PrefixOp}
      else {};
    var sub :=
      if op == 0xcb then Some(CbTab) else if op == 0xdd then Some(DdTab)
      else if op == 0xed then Some(EdTab) else if op == 0xfd then Some(FdTab)
      else None;
    Entry(flags, cycles, sub)
  }


  // ---------------------------------------------------------------------------
  // Memory, registers and the stack

  /**
   * The byte the memory callback returns for `adr`. The map holds the bytes the model knows;
   * an address it does not hold reads as FF, the value of an undriven data bus.
   */
  function Peek(m: map<Addr, bv8>, adr: bv16): bv8
  {
    if At(adr) in m then m[At(adr)] else 0xff
  }

  /** z80_mrd */
  function Rd(s: State, adr: bv16): bv8
  {
    Peek(s.mem, adr)
  }

  /** z80_mwr */
  function Wr(s: State, adr: bv16, v: bv8): State
  {
    s.(mem := s.mem[At(adr) := v])
  }

  /** `mrd(cpu, cpu->regPC++)`: the byte at PC, and PC moved past it. */
  function Fetch(s: State): (bv8, State)
  {
    (Rd(s, s.r.pc), s.(r := s.r.(pc := Succ(s.r.pc))))
  }

  /** Two fetches, low byte first: the word operand of ld rr,nn, jp, call and the (nn) forms. */
  function Fetch16(s: State): (bv16, State)
  {
    var (lo, s1) := Fetch(s);
    var (hi, s2) := Fetch(s1);
    (Word(hi, lo), s2)
  }

  /** The byte after the opcode. */
  function Imm8(s: State): bv8
  {
    Fetch(s).0
  }

  /** The word after the opcode, low byte first. */
  function Imm16(s: State): bv16
  {
    Fetch16(s).0
  }

  function Get8(s: State, r: Reg8): bv8
  {
    match r
    case B => Hi(s.r.bc)
    case C => Lo(s.r.bc)
    case D => Hi(s.r.de)
    case E => Lo(s.r.de)
    case H => Hi(s.r.hl)
    case L => Lo(s.r.hl)
    case M => Rd(s, s.r.hl)
    case A => s.r.a
  }

  function Set8(s: State, r: Reg8, v: bv8): State
  {
    match r
    case B => s.(r := s.r.(bc := Word(v, Lo(s.r.bc))))
    case C => s.(r := s.r.(bc := Word(Hi(s.r.bc), v)))
    case D => s.(r := s.r.(de := Word(v, Lo(s.r.de))))
    case E => s.(r := s.r.(de := Word(Hi(s.r.de), v)))
    case H => s.(r := s.r.(hl := Word(v, Lo(s.r.hl))))
    case L => s.(r := s.r.(hl := Word(Hi(s.r.hl), v)))
    case M => Wr(s, s.r.hl, v)
    case A => s.(r := s.r.(a := v))
  }

  /** A pair as a word; AF packs the flags into its low byte. */
  function GetPair(s: State, p: RegPair): bv16
  {
    match p
    case BC => s.r.bc
    case DE => s.r.de
    case HL => s.r.hl
    case SP => s.r.sp
    case AF => Word(s.r.a, Pack(s.r.f))
  }

  function SetPair(s: State, p: RegPair, w: bv16): State
  {
    match p
    case BC => s.(r := s.r.(bc := w))
    case DE => s.(r := s.r.(de := w))
    case HL => s.(r := s.r.(hl := w))
    case SP => s.(r := s.r.(sp := w))
    case AF => s.(r := s.r.(a := Hi(w), f := Unpack(Lo(w))))
  }

  /** `mwr(cpu, --cpu->regSP, v)` */
  function PushB(s: State, v: bv8): State
  {
    var sp := Pred(s.r.sp);
    s.(r := s.r.(sp := sp), mem := s.mem[At(sp) := v])
  }

  /** `mrd(cpu, cpu->regSP++)` */
  function PopB(s: State): (bv8, State)
  {
    (Rd(s, s.r.sp), s.(r := s.r.(sp := Succ(s.r.sp))))
  }

  /** z80_push: the high byte at --SP, then the low byte at --SP. */
  function PushW(s: State, w: bv16): State
  {
    PushB(PushB(s, Hi(w)), Lo(w))
  }

  /** z80_pop: the low byte at SP++, then the high byte at SP++. */
  function PopW(s: State): (bv16, State)
  {
    var (lo, s1) := PopB(s);
    var (hi, s2) := PopB(s1);
    (Word(hi, lo), s2)
  }

  /** z80_call: WZ gets the target, PC is pushed, PC gets WZ. */
  function CallTo(s: State, adr: bv16): State
  {
    var s1 := PushW(s.(r := s.r.(wz := adr)), s.r.pc);
    s1.(r := s1.r.(pc := adr))
  }

  /** z80_ret: PC is popped and copied to WZ. */
  function RetFrom(s: State): State
  {
    var (w, s1) := PopW(s);
    s1.(r := s1.r.(pc := w, wz := w))
  }

  // ---------------------------------------------------------------------------
  // The handlers, one function per family of npTab

  /** (signed char)d widened to the 16-bit PC. */
  function Sext(d: bv8): bv16
  {
    if d < 0x80 then d as bv16 else (d as bv16) | 0xff00
  }

  /** `pc + (signed char)d` */
  function Disp(pc: bv16, d: bv8): bv16
  {
    pc + Sext(d)
  }

  /** A relative jump taken: PC moves by the displacement, WZ follows, 5 more T-states. */
  function Jump(s: State, d: bv8): State
  {
    var target := Disp(s.r.pc, d);
    s.(r := s.r.(pc := target, wz := target), t := s.t + 5)
  }

  /** jr cc,e: the displacement is fetched, and the jump taken when `taken` holds. */
  function JumpRel(s: State, taken: bool): State
  {
    var (d, s1) := Fetch(s);
    if taken then Jump(s1, d) else s1
  }

  /** npr10: the displacement is fetched, B is lowered, and the jump taken while B is not 0. */
  function DjnzOp(s: State): State
  {
    var (d, s1) := Fetch(s);
    var s2 := s1.(r := s1.r.(bc := LowerB(s1.r.bc)));
    if Hi(s2.r.bc) != 0 then Jump(s2, d) else s2
  }

  /** `regB--` on the pair BC. */
  function LowerB(bc: bv16): bv16
  {
    Word(Hi(bc) - 1, Lo(bc))
  }

  /** F5 and F3 copied from `a`, as the accumulator rotates and CPL/SCF/CCF do. */
  function Undoc(f: Flags, a: bv8): Flags
  {
    f.(f5 := HasAny(a, 0x20), f3 := HasAny(a, 0x08))
  }

  /** npr07: A rotated left; C gets the bit that went round. */
  function RlcaOp(s: State): State
  {
    var a := (s.r.a << 1) | (s.r.a >> 7);
    s.(r := s.r.(a := a, f := Undoc(s.r.f, a).(h := false, n := false, c := HasAny(a, 0x01))))
  }

  /** npr0F: C gets bit 0, then A rotated right. */
  function RrcaOp(s: State): State
  {
    var a := (s.r.a >> 1) | (s.r.a << 7);
    s.(r := s.r.(a := a, f := Undoc(s.r.f, a).(h := false, n := false, c := HasAny(s.r.a, 0x01))))
  }

  /** npr17: A shifted left through C. */
  function RlaOp(s: State): State
  {
    var a := (s.r.a << 1) | Bit(s.r.f.c, 0x01);
    s.(r := s.r.(a := a, f := Undoc(s.r.f, a).(h := false, n := false, c := HasAny(s.r.a, 0x80))))
  }

  /** npr1F: A shifted right through C. */
  function RraOp(s: State): State
  {
    var a := (s.r.a >> 1) | Bit(s.r.f.c, 0x80);
    s.(r := s.r.(a := a, f := Undoc(s.r.f, a).(h := false, n := false, c := HasAny(s.r.a, 0x01))))
  }

  /**
   * npr27: the flags and A the daaTab pair for A, C, N and H holds, given here by the
   * decimal-adjust rule the table follows (DaaReadsTable shows the two agree).
   */
  function DaaOp(s: State): State
  {
    var a, c, n, h := s.r.a, s.r.f.c, s.r.f.n, s.r.f.h;
    s.(r := s.r.(f := Unpack(Z80Tables.DaaF(a, c, n, h)), a := Z80Tables.DaaA(a, c, n, h)))
  }

  /** npr2F */
  function CplOp(s: State): State
  {
    var a := s.r.a ^ 0xff;
    s.(r := s.r.(a := a, f := Undoc(s.r.f, a).(h := true, n := true)))
  }

  /** npr37 */
  function ScfOp(s: State): State
  {
    s.(r := s.r.(f := Undoc(s.r.f, s.r.a).(h := false, n := false, c := true)))
  }

  /** npr3F: H gets the old C, and C is inverted. */
  function CcfOp(s: State): State
  {
    s.(r := s.r.(f := Undoc(s.r.f, s.r.a).(h := s.r.f.c, n := false, c := !s.r.f.c)))
  }

  /** npr08: A and A' swap, and so do the flags and F'. */
  function ExAfOp(s: State): State
  {
    s.(r := s.r.(a := s.r.a', a' := s.r.a, f := Unpack(s.r.f'), f' := Pack(s.r.f)))
  }

  /** nprD9 */
  function ExxOp(s: State): State
  {
    s.(r := s.r.(bc := s.r.bc', bc' := s.r.bc, de := s.r.de', de' := s.r.de,
                 hl := s.r.hl', hl' := s.r.hl))
  }

  /** nprEB */
  function ExDeHlOp(s: State): State
  {
    s.(r := s.r.(de := s.r.hl, hl := s.r.de))
  }

  /**
   * nprE3: the word at SP is popped, HL pushed, and the popped word goes to HL and WZ; one
   * T-state after the pop and two after the push.
   */
  function ExSpHlOp(s: State): State
  {
    var (w, s1) := PopW(s);
    var s2 := PushW(s1.(t := s1.t + 1), s.r.hl);
    s2.(r := s2.r.(hl := w, wz := w), t := s2.t + 2)
  }

  /** npr76: the first HALT raises the halt signal; PC stays on the instruction. */
  function HaltOp(s: State): State
  {
    var s1 := if s.ctl.halt then s else s.(ctl := s.ctl.(halt := true), haltIrqs := s.haltIrqs + 1);
    s1.(r := s1.r.(pc := Pred(s1.r.pc)))
  }

  /** nprF3 */
  function DiOp(s: State): State
  {
    s.(ctl := s.ctl.(iff1 := false, iff2 := false, intZ80 := false))
  }

  /** nprFB: the instruction after EI cannot be interrupted (NOINT). */
  function EiOp(s: State): State
  {
    s.(ctl := s.ctl.(iff1 := true, iff2 := true, noint := true, intZ80 := true))
  }

  /** npr02/npr12: A stored at (rr); WZ = A << 8 | ((rr + 1) & 0xff). */
  function StoreAOp(s: State, p: RegPair): State
  {
    var adr := GetPair(s, p);
    var s1 := Wr(s, adr, s.r.a);
    s1.(r := s1.r.(wz := Word(s.r.a, Lo(Succ(adr)))))
  }

  /** npr0A/npr1A: A loaded from (rr); WZ = rr + 1. */
  function LoadAOp(s: State, p: RegPair): State
  {
    var adr := GetPair(s, p);
    s.(r := s.r.(a := Rd(s, adr), wz := Succ(adr)))
  }

  /** L stored at nn and H at nn + 1; WZ = nn + 1. */
  function StoreHlAt(s: State, nn: bv16): State
  {
    var s1 := Wr(Wr(s, nn, Lo(s.r.hl)), Succ(nn), Hi(s.r.hl));
    s1.(r := s1.r.(wz := Succ(nn)))
  }

  /** L loaded from nn and H from nn + 1; WZ = nn + 1. */
  function LoadHlAt(s: State, nn: bv16): State
  {
    s.(r := s.r.(hl := Word(Rd(s, Succ(nn)), Rd(s, nn)), wz := Succ(nn)))
  }

  /** npr32: A stored at nn; WZ = A << 8 | ((nn + 1) & 0xff). */
  function StoreAAt(s: State, nn: bv16): State
  {
    var s1 := Wr(s, nn, s.r.a);
    s1.(r := s1.r.(wz := Word(s.r.a, Lo(Succ(nn)))))
  }

  /** npr3A: A loaded from nn; WZ = nn + 1. */
  function LoadAAt(s: State, nn: bv16): State
  {
    s.(r := s.r.(a := Rd(s, nn), wz := Succ(nn)))
  }

  /** The operand of an ALU instruction, and the state after fetching it. */
  function AluSource(s: State, src: Operand): (bv8, State)
  {
    match src
    case Imm => Fetch(s)
    case OfReg(r) => (Get8(s, r), s)
  }

  function AluOpOf(s: State, op: AluOp, src: Operand, env: Env): State
  {
    var (v, s1) := AluSource(s, src);
    var (a, f) := env.alu(op, s.r.f, s.r.a, v);
    s1.(r := s1.r.(a := a, f := f))
  }

  /** inc r / dec r; the (HL) forms spend one more T-state. */
  function IncDecOp(s: State, inc: bool, r: Reg8, env: Env): State
  {
    var (v, f) := env.incDec(inc, s.r.f, Get8(s, r));
    var s1 := s.(r := s.r.(f := f), t := if r == M then s.t + 1 else s.t);
    Set8(s1, r, v)
  }

  /** nprD3: port A << 8 | n gets A (z80_iowr, 4 T-states); WZ = A << 8 | ((n + 1) & 0xff). */
  function OutOp(s: State): State
  {
    var (n, s1) := Fetch(s);
    s1.(r := s1.r.(wz := Word(s.r.a, n + 1)),
        outs := s1.outs + [PortWrite(Word(s.r.a, n), s.r.a)], t := s1.t + 4)
  }

  /** nprDB: A is read from port A << 8 | n (z80_iord, 4 T-states); WZ = port + 1. */
  function InOp(s: State, env: Env): State
  {
    var (n, s1) := Fetch(s);
    var port := Word(s.r.a, n);
    s1.(r := s1.r.(a := env.ird(port), wz := Succ(port)), t := s1.t + 4)
  }

  /** jp cc,nn: WZ = nn whether or not the jump is taken. */
  function JpOp(s: State, cc: Option<Cond>): State
  {
    var (nn, s1) := Fetch16(s);
    s1.(r := s1.r.(wz := nn, pc := if Taken(cc, s.r.f) then nn else s1.r.pc))
  }

  /** call cc,nn: WZ = nn; a call taken spends one more T-state before the push. */
  function CallOp(s: State, cc: Option<Cond>): State
  {
    var (nn, s1) := Fetch16(s);
    if Taken(cc, s.r.f) then CallTo(s1.(t := s1.t + 1), nn) else s1.(r := s1.r.(wz := nn))
  }

  /** ld rr,nn: the low byte first. */
  function LdPairImmOp(s: State, p: RegPair): State
  {
    var (w, s1) := Fetch16(s);
    SetPair(s1, p, w)
  }

  /** inc rr / dec rr */
  function StepPairOp(s: State, p: RegPair, up: bool): State
  {
    var w := GetPair(s, p);
    SetPair(s, p, if up then Succ(w) else Pred(w))
  }

  /** ld r,n and ld (hl),n */
  function LdImmOp(s: State, r: Reg8): State
  {
    var (n, s1) := Fetch(s);
    Set8(s1, r, n)
  }

  /** add hl,rr through z80_add16, which sets WZ to HL + 1 before it adds */
  function AddHlOp(s: State, p: RegPair, env: Env): State
  {
    var (w, f) := env.add16(s.r.f, s.r.hl, GetPair(s, p));
    s.(r := s.r.(hl := w, f := f, wz := Succ(s.r.hl)))
  }

  /** The four (nn) forms: fetch nn, then store or load HL or A there. */
  function AbsOp(s: State, hl: bool, store: bool): State
  {
    var (nn, s1) := Fetch16(s);
    if hl then (if store then StoreHlAt(s1, nn) else LoadHlAt(s1, nn))
    else (if store then StoreAAt(s1, nn) else LoadAAt(s1, nn))
  }

  /** ld r,r' (the (hl) forms read or write memory) */
  function LdOp(s: State, dst: Reg8, src: Reg8): State
  {
    Set8(s, dst, Get8(s, src))
  }

  /** ret cc */
  function RetOp(s: State, cc: Option<Cond>): State
  {
    if Taken(cc, s.r.f) then RetFrom(s) else s
  }

  /** pop rr */
  function PopOp(s: State, p: RegPair): State
  {
    var (w, s1) := PopW(s);
    SetPair(s1, p, w)
  }

  /** push rr */
  function PushOp(s: State, p: RegPair): State
  {
    PushW(s, GetPair(s, p))
  }

  /** The prefixes CB, DD, ED, FD: opTab is pointed at the page. */
  function SelectOp(s: State, tab: OpTable): State
  {
    s.(ctl := s.ctl.(tab := tab))
  }

  /** jp (hl) and ld sp,hl */
  function FromHlOp(s: State, toSp: bool): State
  {
    if toSp then s.(r := s.r.(sp := s.r.hl)) else s.(r := s.r.(pc := s.r.hl))
  }

  /** One npTab handler. */
  function Run(s: State, ins: Instr, env: Env): State
  {
    match ins
    case Nop => s
    case LdPairImm(p) => LdPairImmOp(s, p)
    case StoreA(p) => StoreAOp(s, p)
    case LoadA(p) => LoadAOp(s, p)
    case IncPair(p) => StepPairOp(s, p, true)
    case DecPair(p) => StepPairOp(s, p, false)
    case Inc(r) => IncDecOp(s, true, r, env)
    case Dec(r) => IncDecOp(s, false, r, env)
    case LdImm(r) => LdImmOp(s, r)
    case Rlca => RlcaOp(s)
    case Rrca => RrcaOp(s)
    case Rla => RlaOp(s)
    case Rra => RraOp(s)
    case ExAf => ExAfOp(s)
    case AddHl(p) => AddHlOp(s, p, env)
    case Djnz => DjnzOp(s)
    case Jr(cc) => JumpRel(s, Taken(cc, s.r.f))
    case StoreHlAbs => AbsOp(s, true, true)
    case LoadHlAbs => AbsOp(s, true, false)
    case StoreAAbs => AbsOp(s, false, true)
    case LoadAAbs => AbsOp(s, false, false)
    case Daa => DaaOp(s)
    case Cpl => CplOp(s)
    case Scf => ScfOp(s)
    case Ccf => CcfOp(s)
    case Ld(dst, src) => LdOp(s, dst, src)
    case Halt => HaltOp(s)
    case Alu(op, src) => AluOpOf(s, op, src, env)
    case Ret(cc) => RetOp(s, cc)
    case Pop(p) => PopOp(s, p)
    case Push(p) => PushOp(s, p)
    case Jp(cc) => JpOp(s, cc)
    case Call(cc) => CallOp(s, cc)
    case Rst(adr) => CallTo(s, adr)
    case Prefix(tab) => SelectOp(s, tab)
    case Out => OutOp(s)
    case In => InOp(s, env)
    case Exx => ExxOp(s)
    case ExSpHl => ExSpHlOp(s)
    case JpHl => FromHlOp(s, false)
    case ExDeHl => ExDeHlOp(s)
    case LdSpHl => FromHlOp(s, true)
    case Di => DiOp(s)
    case Ei => EiOp(s)
  }

  // ---------------------------------------------------------------------------
  // Flags, operands, memory and the stack

  /** Unpacking the F register that packing built gives back every flag. */
  lemma UnpackPack(f: Flags)
    ensures Unpack(Pack(f)) == f
  {
  }

  /** Every F byte is the packing of the flags it unpacks to. */
  lemma PackUnpack(v: bv8)
    ensures Pack(Unpack(v)) == v
  {
  }

  /** A word operand is the bytes at PC and PC + 1, low byte first, and PC moves past both. */
  lemma FetchWord(s: State)
    ensures Fetch16(s).0 == Word(Rd(s, Succ(s.r.pc)), Rd(s, s.r.pc))
    ensures Fetch16(s).1 == s.(r := s.r.(pc := s.r.pc + 2))
  {
    TwoSteps(s.r.pc);
  }

  /** z80_push stores the high byte just below SP and the low byte below it; SP drops by 2. */
  lemma PushLayout(s: State, w: bv16)
    ensures var s' := PushW(s, w);
      s'.r.sp == s.r.sp - 2 && Peek(s'.mem, Pred(s.r.sp)) == Hi(w) &&
      Peek(s'.mem, Pred(Pred(s.r.sp))) == Lo(w)
  {
    PushBytes(s, w);
    PushRegs(s, w);
    TwoSteps(s.r.sp);
  }

  /** The bytes z80_push stores, by the SP it starts from. */
  lemma PushBytes(s: State, w: bv16)
    ensures Peek(PushW(s, w).mem, Pred(s.r.sp)) == Hi(w)
    ensures Peek(PushW(s, w).mem, Pred(Pred(s.r.sp))) == Lo(w)
  {
    NeighboursDistinct(s.r.sp);
  }

  /** z80_push changes no other byte of memory and no register but SP. */
  lemma PushFrame(s: State, w: bv16, k: bv16)
    requires k != Pred(s.r.sp) && k != Pred(Pred(s.r.sp))
    ensures Peek(PushW(s, w).mem, k) == Peek(s.mem, k)
  {
  }

  /** z80_push changes no register but SP, which steps down twice. */
  lemma PushRegs(s: State, w: bv16)
    ensures PushW(s, w).r == s.r.(sp := Pred(Pred(s.r.sp)))
  {
  }

  /** z80_pop changes no register but SP, which steps up twice, and no memory. */
  lemma PopRegs(s: State)
    ensures PopW(s).1 == s.(r := s.r.(sp := Succ(Succ(s.r.sp))))
  {
  }

  /**
   * A pop after a push returns the word pushed and puts SP back: the registers are as before
   * the push, and memory holds the pushed bytes.
   */
  lemma PopAfterPush(s: State, w: bv16)
    ensures PopW(PushW(s, w)) == (w, PushW(s, w).(r := s.r))
  {
    NeighboursDistinct(s.r.sp);
    SuccPred(s.r.sp);
    SuccPred(Pred(s.r.sp));
    WordOfHalves(w);
  }

  /** z80_call leaves PC and WZ at the target, with the return address pushed below SP. */
  lemma CallPushes(s: State, adr: bv16)
    ensures var s' := CallTo(s, adr);
      s'.r == s.r.(pc := adr, wz := adr, sp := s.r.sp - 2) &&
      Peek(s'.mem, Pred(s.r.sp)) == Hi(s.r.pc) && Peek(s'.mem, Pred(Pred(s.r.sp))) == Lo(s.r.pc)
  {
    PushLayout(s.(r := s.r.(wz := adr)), s.r.pc);
    PushRegs(s.(r := s.r.(wz := adr)), s.r.pc);
    TwoSteps(s.r.sp);
  }

  /** The z80_ret after a z80_call gets the return address back into PC and WZ, and SP back. */
  lemma CallThenRet(s: State, adr: bv16)
    ensures RetFrom(CallTo(s, adr)).r == s.r.(wz := s.r.pc)
  {
    var s1 := s.(r := s.r.(wz := adr));
    PopAfterPush(s1, s.r.pc);
    assert CallTo(s, adr) == PushW(s1, s.r.pc).(r := PushW(s1, s.r.pc).r.(pc := adr));
    PopIgnoresPc(PushW(s1, s.r.pc), adr);
  }

  /** A pop does not look at PC. */
  lemma PopIgnoresPc(s: State, pc: bv16)
    ensures PopW(s.(r := s.r.(pc := pc))) == (PopW(s).0, PopW(s).1.(r := PopW(s).1.r.(pc := pc)))
  {
  }

  // ---------------------------------------------------------------------------
  // The accumulator rotates and the flag instructions

  /** A step that changes only A and the flags. */
  predicate OnlyAF(s: State, s': State)
  {
    s'.(r := s'.r.(a := s.r.a, f := s.r.f)) == s
  }

  /** S, Z and P/V kept, H and N cleared, F5 and F3 copied from the new A. */
  predicate RotateFlags(s: State, s': State)
  {
    var f, f' := s.r.f, s'.r.f;
    f'.s == f.s && f'.z == f.z && f'.pv == f.pv && !f'.h && !f'.n &&
    f'.f5 == HasAny(s'.r.a, 0x20) && f'.f3 == HasAny(s'.r.a, 0x08)
  }

  /** RLCA touches only A and F; C receives bit 7, which also enters bit 0. */
  lemma RlcaShape(s: State)
    ensures var s' := RlcaOp(s);
      OnlyAF(s, s') && RotateFlags(s, s') && s'.r.f.c == HasAny(s.r.a, 0x80) &&
      HasAny(s'.r.a, 0x01) == HasAny(s.r.a, 0x80)
  {
  }

  /** RRCA touches only A and F; C receives bit 0, which also enters bit 7. */
  lemma RrcaShape(s: State)
    ensures var s' := RrcaOp(s);
      OnlyAF(s, s') && RotateFlags(s, s') && s'.r.f.c == HasAny(s.r.a, 0x01) &&
      HasAny(s'.r.a, 0x80) == HasAny(s.r.a, 0x01)
  {
  }

  /** RLA touches only A and F; C receives bit 7 and the old C enters bit 0. */
  lemma RlaShape(s: State)
    ensures var s' := RlaOp(s);
      OnlyAF(s, s') && RotateFlags(s, s') && s'.r.f.c == HasAny(s.r.a, 0x80) &&
      HasAny(s'.r.a, 0x01) == s.r.f.c
  {
  }

  /** RRA touches only A and F; C receives bit 0 and the old C enters bit 7. */
  lemma RraShape(s: State)
    ensures var s' := RraOp(s);
      OnlyAF(s, s') && RotateFlags(s, s') && s'.r.f.c == HasAny(s.r.a, 0x01) &&
      HasAny(s'.r.a, 0x80) == s.r.f.c
  {
  }

  /** RRCA undoes RLCA. */
  lemma RrcaUndoesRlca(s: State)
    ensures RrcaOp(RlcaOp(s)).r.a == s.r.a
  {
  }

  /** RLCA undoes RRCA. */
  lemma RlcaUndoesRrca(s: State)
    ensures RlcaOp(RrcaOp(s)).r.a == s.r.a
  {
  }

  /** RRA undoes RLA, carry included. */
  lemma RraUndoesRla(s: State)
    ensures RraOp(RlaOp(s)).r.a == s.r.a && RraOp(RlaOp(s)).r.f.c == s.r.f.c
  {
  }

  /** RLA undoes RRA, carry included. */
  lemma RlaUndoesRra(s: State)
    ensures RlaOp(RraOp(s)).r.a == s.r.a && RlaOp(RraOp(s)).r.f.c == s.r.f.c
  {
  }

  /** CPL inverts every bit of A, sets H and N, keeps S, Z, P/V and C; twice it is A again. */
  lemma CplShape(s: State)
    ensures var s' := CplOp(s);
      OnlyAF(s, s') && s'.r.a == !s.r.a && s'.r.f.h && s'.r.f.n &&
      s'.r.f.s == s.r.f.s && s'.r.f.z == s.r.f.z && s'.r.f.pv == s.r.f.pv && s'.r.f.c == s.r.f.c
    ensures CplOp(CplOp(s)).r.a == s.r.a
  {
  }

  /** SCF sets C and clears H and N, keeping A, S, Z and P/V. */
  lemma ScfShape(s: State)
    ensures var s' := ScfOp(s);
      OnlyAF(s, s') && s'.r.a == s.r.a && s'.r.f.c && !s'.r.f.h && !s'.r.f.n &&
      s'.r.f.s == s.r.f.s && s'.r.f.z == s.r.f.z && s'.r.f.pv == s.r.f.pv
  {
  }

  /** CCF inverts C, moving the old C into H, and clears N, keeping A, S, Z and P/V. */
  lemma CcfShape(s: State)
    ensures var s' := CcfOp(s);
      OnlyAF(s, s') && s'.r.a == s.r.a && s'.r.f.c == !s.r.f.c && s'.r.f.h == s.r.f.c &&
      !s'.r.f.n && s'.r.f.s == s.r.f.s && s'.r.f.z == s.r.f.z && s'.r.f.pv == s.r.f.pv
  {
  }

  /** CCF after SCF leaves C clear and H set; two CCFs restore C. */
  lemma CarrySequences(s: State)
    ensures !CcfOp(ScfOp(s)).r.f.c && CcfOp(ScfOp(s)).r.f.h
    ensures CcfOp(CcfOp(s)).r.f.c == s.r.f.c
  {
  }

  // ---------------------------------------------------------------------------
  // DAA

  /** The daaTab lookup npr27 performs yields the flags and A of DaaOp. */
  lemma DaaReadsTable(s: State)
    ensures var i := Z80Tables.DaaIndex(s.r.a, s.r.f.c, s.r.f.n, s.r.f.h);
      Unpack(Z80Tables.DaaByte(i)) == DaaOp(s).r.f && Z80Tables.DaaByte(i + 1) == DaaOp(s).r.a
  {
    Z80Tables.DaaBytes(s.r.a, s.r.f.c, s.r.f.n, s.r.f.h);
  }

  /**
   * After DAA: S, F5 and F3 are bits of the new A, Z is set iff it is 0, N is kept, and C is
   * set iff it was set or A was above 0x99; nothing but A and F changes.
   */
  lemma DaaFlags(s: State)
    ensures var s' := DaaOp(s);
      OnlyAF(s, s') && s'.r.f.s == HasAny(s'.r.a, 0x80) && (s'.r.f.z <==> s'.r.a == 0) &&
      s'.r.f.f5 == HasAny(s'.r.a, 0x20) && s'.r.f.f3 == HasAny(s'.r.a, 0x08) &&
      s'.r.f.n == s.r.f.n && (s'.r.f.c <==> s.r.f.c || s.r.a > 0x99)
  {
    Z80Tables.DaaResultFlags(s.r.a, s.r.f.c, s.r.f.n, s.r.f.h);
    Z80Tables.DaaCarryFlags(s.r.a, s.r.f.c, s.r.f.n, s.r.f.h);
  }

  // ---------------------------------------------------------------------------
  // Relative jumps

  /** The displacement is sign-extended: its low byte is kept and the high byte is 00 or FF. */
  lemma SextBytes(d: bv8)
    ensures Lo(Sext(d)) == d && Hi(Sext(d)) == (if d < 0x80 then 0 else 0xff)
  {
  }

  /**
   * JR cc jumps by the displacement d from the byte after it exactly when its condition holds,
   * with WZ following and 5 more T-states; otherwise it only passes the operand.
   */
  lemma JrEffect(s: State, cc: Option<Cond>)
    ensures var s' := JumpRel(s, Taken(cc, s.r.f));
      if Taken(cc, s.r.f) then
        s'.r == s.r.(pc := Disp(Succ(s.r.pc), Imm8(s)), wz := Disp(Succ(s.r.pc), Imm8(s))) &&
        s'.t == s.t + 5
      else
        s'.r == s.r.(pc := Succ(s.r.pc)) && s'.t == s.t
    ensures JumpRel(s, Taken(cc, s.r.f)).mem == s.mem
  {
  }

  /** DJNZ lowers B and keeps C; nothing outside BC, PC, WZ and the T-states changes. */
  lemma DjnzCounter(s: State)
    ensures Hi(DjnzOp(s).r.bc) == Hi(s.r.bc) - 1 && Lo(DjnzOp(s).r.bc) == Lo(s.r.bc)
    ensures DjnzOp(s).mem == s.mem && DjnzOp(s).r.de == s.r.de && DjnzOp(s).r.a == s.r.a
  {
    LowerBHalves(s.r.bc);
  }

  lemma LowerBHalves(bc: bv16)
    ensures Hi(LowerB(bc)) == Hi(bc) - 1 && Lo(LowerB(bc)) == Lo(bc)
  {
    WordHalves(Hi(bc) - 1, Lo(bc));
  }

  /**
   * While B does not reach 0 DJNZ jumps by the displacement from the byte after it, with WZ
   * following and 5 more T-states; when B reaches 0 it only passes the operand.
   */
  lemma DjnzBranches(s: State)
    ensures var s' := DjnzOp(s);
      if Hi(s.r.bc) != 1 then
        s'.r.pc == Disp(Succ(s.r.pc), Imm8(s)) && s'.r.wz == s'.r.pc && s'.t == s.t + 5
      else
        s'.r.pc == Succ(s.r.pc) && s'.r.wz == s.r.wz && s'.t == s.t
  {
    LowerBHalves(s.r.bc);
  }

  // ---------------------------------------------------------------------------
  // Absolute jumps, calls and returns

  /** JP cc,nn: WZ gets nn; PC gets nn when the condition holds, else passes the operand. */
  lemma JpEffect(s: State, cc: Option<Cond>)
    ensures JpOp(s, cc).r == s.r.(wz := Imm16(s), pc := if Taken(cc, s.r.f) then Imm16(s) else s.r.pc + 2)
    ensures JpOp(s, cc).mem == s.mem && JpOp(s, cc).t == s.t
  {
    FetchWord(s);
  }

  /**
   * CALL cc,nn taken: PC and WZ at nn, the address after the operand pushed, one more
   * T-state; not taken: only WZ = nn and PC past the operand.
   */
  lemma CallEffect(s: State, cc: Option<Cond>)
    ensures var s' := CallOp(s, cc);
      if Taken(cc, s.r.f) then
        s' == CallTo(s.(r := s.r.(pc := s.r.pc + 2), t := s.t + 1), Imm16(s))
      else
        s' == s.(r := s.r.(wz := Imm16(s), pc := s.r.pc + 2))
  {
    FetchWord(s);
  }

  /** RET cc pops into PC and WZ exactly when the condition holds. */
  lemma RetEffect(s: State, cc: Option<Cond>)
    ensures var s' := RetOp(s, cc);
      if Taken(cc, s.r.f) then
        s'.r == s.r.(pc := PopW(s).0, wz := PopW(s).0, sp := s.r.sp + 2) && s'.mem == s.mem
      else s' == s
  {
    TwoSteps(s.r.sp);
  }

  // ---------------------------------------------------------------------------
  // Exchanges

  /** EX AF,AF' is its own inverse. */
  lemma ExAfInvolutive(s: State)
    ensures ExAfOp(ExAfOp(s)) == s
  {
    UnpackPack(s.r.f);
    PackUnpack(s.r.f');
  }

  /** EXX and EX DE,HL are their own inverses. */
  lemma ExchangesInvolutive(s: State)
    ensures ExxOp(ExxOp(s)) == s
    ensures ExDeHlOp(ExDeHlOp(s)) == s
  {
  }

  /**
   * EX (SP),HL: HL and WZ get the word at SP, SP is kept, the old HL is stored at SP with its
   * low byte first, and 3 T-states pass.
   */
  lemma ExSpHlEffect(s: State)
    ensures var s' := ExSpHlOp(s);
      s'.r == s.r.(hl := PopW(s).0, wz := PopW(s).0) && s'.t == s.t + 3 &&
      Peek(s'.mem, s.r.sp) == Lo(s.r.hl) && Peek(s'.mem, Succ(s.r.sp)) == Hi(s.r.hl)
  {
    var s1 := PopW(s).1.(t := s.t + 1);
    PopRegs(s);
    SuccPred(Succ(s.r.sp));
    SuccPred(s.r.sp);
    PushRegs(s1, s.r.hl);
    PushBytes(s1, s.r.hl);
  }

  // ---------------------------------------------------------------------------
  // HALT, EI, DI

  /** HALT sets the halt flag and moves PC back onto itself. */
  lemma HaltStays(s: State)
    ensures HaltOp(s).ctl.halt && Succ(HaltOp(s).r.pc) == s.r.pc
  {
    SuccPred(s.r.pc);
  }

  /** The halt signal is raised only by the first of a run of HALTs. */
  lemma HaltOnce(s: State)
    ensures HaltOp(s).haltIrqs == s.haltIrqs + (if s.ctl.halt then 0 else 1)
    ensures HaltOp(HaltOp(s)).haltIrqs == HaltOp(s).haltIrqs
  {
  }

  /** EI sets both flip-flops, NOINT and Z80_INT; DI clears them but not NOINT. */
  lemma InterruptEnables(s: State)
    ensures var e := EiOp(s).ctl;
      e.iff1 && e.iff2 && e.noint && e.intZ80 && EiOp(s).(ctl := s.ctl) == s
    ensures var d := DiOp(s).ctl;
      !d.iff1 && !d.iff2 && !d.intZ80 && d.noint == s.ctl.noint && DiOp(s).(ctl := s.ctl) == s
  {
  }

  // ---------------------------------------------------------------------------
  // Loads and stores

  /**
   * ADD HL,rr: HL and F are what the adder gives for HL and rr (HL itself for ADD HL,HL),
   * WZ ends one past the HL the instruction started from, and nothing else changes.
   */
  lemma AddHlEffect(s: State, p: RegPair, env: Env)
    ensures var s' := AddHlOp(s, p, env);
      (s'.r.hl, s'.r.f) == env.add16(s.r.f, s.r.hl, GetPair(s, p)) &&
      s'.r.wz == Succ(s.r.hl) &&
      (p == HL ==> s'.r.hl == env.add16(s.r.f, s.r.hl, s.r.hl).0) &&
      s'.(r := s'.r.(hl := s.r.hl, f := s.r.f, wz := s.r.wz)) == s
  {
  }

  /** LD A,(rr) after LD (rr),A reads back A; WZ then points one past rr. */
  lemma StoreThenLoadA(s: State, p: RegPair)
    requires p == BC || p == DE
    ensures var s' := LoadAOp(StoreAOp(s, p), p);
      s'.r.a == s.r.a && s'.r.wz == Succ(GetPair(s, p))
  {
  }

  /** A word stored from HL at nn reads back into HL. */
  lemma StoreThenLoadHl(s: State, nn: bv16)
    ensures LoadHlAt(StoreHlAt(s, nn), nn).r.hl == s.r.hl
  {
    NeighboursDistinct(nn);
    WordOfHalves(s.r.hl);
  }

  /** LD HL,(nn) reads L from nn and H from nn + 1, and the operand is passed. */
  lemma LoadHlEffect(s: State)
    ensures var s' := AbsOp(s, true, false);
      s'.r == s.r.(pc := s.r.pc + 2, hl := Word(Rd(s, Succ(Imm16(s))), Rd(s, Imm16(s))),
                   wz := Succ(Imm16(s))) && s'.mem == s.mem
  {
    FetchWord(s);
  }

  /** LD (nn),HL writes L at nn and H at nn + 1, leaving every other byte alone. */
  lemma StoreHlEffect(s: State, nn: bv16, k: bv16)
    ensures Peek(StoreHlAt(s, nn).mem, nn) == Lo(s.r.hl) && Peek(StoreHlAt(s, nn).mem, Succ(nn)) == Hi(s.r.hl)
    ensures k != nn && k != Succ(nn) ==> Peek(StoreHlAt(s, nn).mem, k) == Peek(s.mem, k)
  {
    NeighboursDistinct(nn);
  }

  /** POP rr after PUSH rr restores every register, AF included, and SP. */
  lemma PushThenPop(s: State, p: RegPair)
    requires p != SP
    ensures PopOp(PushOp(s, p), p).r == s.r
  {
    var w := GetPair(s, p);
    PopAfterPush(s, w);
    RestorePair(PushW(s, w).(r := s.r), p);
  }

  /** Setting a pair to the value it holds changes no register (AF through F's packing). */
  lemma RestorePair(c: State, p: RegPair)
    requires p != SP
    ensures SetPair(c, p, GetPair(c, p)).r == c.r
  {
    if p == AF {
      WordHalves(c.r.a, Pack(c.r.f));
      UnpackPack(c.r.f);
    }
  }

  // ---------------------------------------------------------------------------
  // npTab

  /** An entry carries OF_PREFIX, and a sub-table, exactly when its handler is a prefix. */
  lemma PrefixEntries(op: bv8)
    ensures PrefixOp in NpEntry(op).flags <==> Decode(op).Prefix?
    ensures NpEntry(op).sub == if Decode(op).Prefix? then Some(Decode(op).tab) else None
  {
  }

  /** A prefix does nothing but select its page for the next opcode. */
  lemma PrefixSelects(s: State, op: bv8, env: Env)
    requires PrefixOp in NpEntry(op).flags
    ensures Run(s, Decode(op), env) == s.(ctl := s.ctl.(tab := NpEntry(op).sub.value))
  {
    PrefixEntries(op);
  }

  /** OF_RELJUMP marks DJNZ and the JRs; OF_SKIPABLE marks DJNZ, HALT, the calls and RSTs. */
  lemma JumpEntries(op: bv8)
    ensures var ins := Decode(op);
      (RelJump in NpEntry(op).flags <==> ins.Djnz? || ins.Jr?) &&
      (Skipable in NpEntry(op).flags <==> ins.Djnz? || ins.Halt? || ins.Call? || ins.Rst?)
  {
  }

  /** OF_MEMADR marks the four (nn) loads and stores; OF_MWORD the two that move HL. */
  lemma AddressEntries(op: bv8)
    ensures var ins := Decode(op);
      (MemAdr in NpEntry(op).flags <==>
        ins.StoreHlAbs? || ins.LoadHlAbs? || ins.StoreAAbs? || ins.LoadAAbs?) &&
      (MWord in NpEntry(op).flags <==> ins.StoreHlAbs? || ins.LoadHlAbs?)
  {
  }

  /**
   * Base cycles: 11 for ADD HL,rr; 6 for INC/DEC rr and LD SP,HL; 5 for DJNZ, RET cc, PUSH
   * and RST; 4 for the rest.
   */
  lemma CycleEntries(op: bv8)
    ensures var ins, c := Decode(op), NpEntry(op).cycles;
      (c == 11 <==> ins.AddHl?) &&
      (c == 6 <==> ins.IncPair? || ins.DecPair? || ins.LdSpHl?) &&
      (c == 5 <==> ins.Djnz? || (ins.Ret? && ins.cc.Some?) || ins.Push? || ins.Rst?) &&
      (c == 4 || c == 5 || c == 6 || c == 11)
  {
  }
}
