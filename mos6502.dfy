// The control core of the MOS 6502: packing the status register, the page-1 stack,
// NMI/IRQ servicing, the step driver up to instruction dispatch, reset, the branch
// condition the disassembler reports, and loading registers from a debugger bunch.
//
// Memory is a byte map owned by the model in place of the mrd/mwr callbacks. The
// instruction table mosTab is not part of this model: a step that fetches an opcode
// ends at the fetch and reports the opcode.

module Mos6502 {
  import opened Common

  /** The eight status flags, each a field of the CPU. */
  datatype Flags = Flags(c: bool, z: bool, i: bool, d: bool, b: bool, f5: bool, v: bool, n: bool)

  /** The two interrupt request lines (the NMI and IRQ bits of `intrq` and `inten`). */
  datatype Lines = Lines(nmi: bool, irq: bool)

  /** The CPU fields the control core touches. */
  datatype Cpu = Cpu(
    a: bv8, x: bv8, y: bv8,
    s: bv8,        // regS, the low byte of regSP
    sph: bv8,      // the high byte of regSP: the stack page
    pc: bv16,
    f: Flags,
    lock: bool, noint: bool,
    intrq: Lines, inten: Lines,
    mem: map<Addr, bv8>)

  /** What one call of m6502_exec does. */
  datatype Step = Locked | Serviced | Fetched(op: bv8)

  /** mos_get_flag: bit 5 always reads as 1, whatever `f5` holds. */
  function GetFlag(f: Flags): bv8
  {
    Bit(f.c, 1) | Bit(f.z, 2) | Bit(f.i, 4) | Bit(f.d, 8) | Bit(f.b, 16) | 32 |
    Bit(f.v, 64) | Bit(f.n, 128)
  }

  /** mos_set_flag, on the low byte its callers pass. */
  function SetFlag(v: bv8): Flags
  {
    Flags(HasAny(v, 1), HasAny(v, 2), HasAny(v, 4), HasAny(v, 8), HasAny(v, 16), HasAny(v, 32),
          HasAny(v, 64), HasAny(v, 128))
  }

  /** regSP: the stack page and regS. */
  function SP(c: Cpu): bv16
  {
    Word(c.sph, c.s)
  }

  /** m6502_push: store at SP, then lower regS within the page. */
  function Push(c: Cpu, v: bv8): Cpu
  {
    c.(mem := c.mem[At(SP(c)) := v], s := c.s - 1)
  }

  /** m6502_pop: raise regS within the page, then read at SP. */
  function Pop(c: Cpu): (bv8, Cpu)
    requires Full(c.mem)
  {
    var c1 := c.(s := c.s + 1);
    (c1.mem[At(SP(c1))], c1)
  }

  /** m6502_push_int: PCh, PCl, then the packed flags. */
  function PushInt(c: Cpu): Cpu
  {
    Push(Push(Push(c, Hi(c.pc)), Lo(c.pc)), GetFlag(c.f))
  }

  /** The vector at `adr` (low byte) and `adr + 1` (high byte). */
  function Vector(m: map<Addr, bv8>, adr: bv16): bv16
    requires Full(m)
  {
    Word(m[At(adr + 1)], m[At(adr)])
  }

  /** m6502_int: NMI first, then IRQ if the I flag allows it; always 7 cycles. */
  function Interrupt(c: Cpu): (int, Cpu)
    requires Full(c.mem)
  {
    if c.intrq.nmi then
      var c1 := PushInt(c.(intrq := c.intrq.(nmi := false)));
      (7, c1.(pc := Vector(c1.mem, 0xfffa)))
    else if c.intrq.irq then
      var c1 := c.(intrq := c.intrq.(irq := false));
      if !c1.f.i then
        var c2 := PushInt(c1.(f := c1.f.(b := false)));
        var c3 := c2.(f := c2.f.(i := true));
        (7, c3.(pc := Vector(c3.mem, 0xfffe)))
      else (7, c1)
    else (7, c)
  }

  /** The requests left after m6502_exec masks them by `inten` and, for IRQ, by the I flag. */
  function Masked(c: Cpu): Lines
  {
    Lines(c.intrq.nmi && c.inten.nmi, c.intrq.irq && c.inten.irq && !c.f.i)
  }

  /** m6502_exec up to the dispatch of the fetched opcode. */
  function Exec(c: Cpu): (Step, Cpu)
    requires Full(c.mem)
  {
    if c.lock then (Locked, c)
    else
      var c1 := c.(intrq := Masked(c));
      if (c1.intrq.nmi || c1.intrq.irq) && !c1.noint then (Serviced, Interrupt(c1).1)
      else (Fetched(c1.mem[At(c1.pc)]), c1.(noint := false, pc := c1.pc + 1))
  }

  /** The cycles m6502_exec reports, where the model decides them. */
  function Cycles(st: Step): Option<int>
  {
    match st
    case Locked => Some(1)
    case Serviced => Some(7)
    case Fetched(_) => None   // the opcode's own count, from mosTab
  }

  /** m6502_reset */
  function Reset(c: Cpu): Cpu
    requires Full(c.mem)
  {
    c.(lock := false, intrq := Lines(false, false), inten := Lines(true, true),
       sph := 0x01, s := 0xfd, f := c.f.(f5 := true, i := true), a := 0, x := 0, y := 0,
       pc := Vector(c.mem, 0xfffc))
  }

  // ---------------------------------------------------------------------------
  // Disassembler branch condition

  /** The conditional branches are the opcodes with `op & 0x1f == 0x10`. */
  predicate IsBranch(op: bv8)
  {
    op & 0x1f == 0x10
  }

  /** m6502_mnem's "condition met": the flag chosen by bits 6-7 is clear, inverted by bit 5. */
  function BranchMet(op: bv8, f: Flags): bool
  {
    var sel := (op >> 6) & 3;
    var met := if sel == 0 then !f.n else if sel == 1 then !f.v else if sel == 2 then !f.c else !f.z;
    if op & 0x20 != 0 then !met else met
  }

  /** The eight branch instructions by name, as the processor defines them. */
  function TakenByName(op: bv8, f: Flags): bool
    requires IsBranch(op)
  {
    if op == 0x10 then !f.n       // BPL
    else if op == 0x30 then f.n   // BMI
    else if op == 0x50 then !f.v  // BVC
    else if op == 0x70 then f.v   // BVS
    else if op == 0x90 then !f.c  // BCC
    else if op == 0xb0 then f.c   // BCS
    else if op == 0xd0 then !f.z  // BNE
    else f.z                      // BEQ
  }

  // ---------------------------------------------------------------------------
  // Debugger register bunch

  datatype RegId = RegPC | RegA | RegX | RegY | RegS | RegF | RegNone | RegOther(code: int)

  datatype RegEntry = RegEntry(id: RegId, value: int)

  /** `v & 0xff` of a C int, as a byte; Dafny's `%` is Euclidean, like two's-complement masking. */
  function ByteOf(v: int): bv8
  {
    (v % 256) as bv8
  }

  function WordOf(v: int): bv16
  {
    (v % 0x10000) as bv16
  }

  /** One entry of m6502_set_regs. */
  function SetReg(c: Cpu, e: RegEntry): Cpu
  {
    match e.id
    case RegPC => c.(pc := WordOf(e.value))
    case RegS => c.(s := ByteOf(e.value))
    case RegA => c.(a := ByteOf(e.value))
    case RegF => c.(f := SetFlag(ByteOf(e.value)))
    case RegX => c.(x := ByteOf(e.value))
    case RegY => c.(y := ByteOf(e.value))
    case RegNone => c
    case RegOther(_) => c
  }

  /** m6502_set_regs from entry `i` on: at most 32 entries, stopping at REG_NONE. */
  function SetRegsFrom(c: Cpu, bunch: seq<RegEntry>, i: nat): Cpu
    requires |bunch| >= 32
    decreases 32 - i
  {
    if i >= 32 || bunch[i].id == RegNone then c
    else SetRegsFrom(SetReg(c, bunch[i]), bunch, i + 1)
  }

  /** The value of the last entry for `id` in positions i..31 before the first REG_NONE. */
  function LastValue(bunch: seq<RegEntry>, id: RegId, i: nat): Option<int>
    requires |bunch| >= 32
    decreases 32 - i
  {
    if i >= 32 || bunch[i].id == RegNone then None
    else
      var later := LastValue(bunch, id, i + 1);
      if later.Some? then later
      else if bunch[i].id == id then Some(bunch[i].value)
      else None
  }

  /** The byte of the last value written, or the register's old byte. */
  function ByteOr(last: Option<int>, old_: bv8): bv8
  {
    if last.Some? then ByteOf(last.value) else old_
  }

  function WordOr(last: Option<int>, old_: bv16): bv16
  {
    if last.Some? then WordOf(last.value) else old_
  }

  function FlagsOr(last: Option<int>, old_: Flags): Flags
  {
    if last.Some? then SetFlag(ByteOf(last.value)) else old_
  }

  // ---------------------------------------------------------------------------
  // Properties

  /** Unpacking then packing keeps the byte, except that bit 5 reads as 1. */
  lemma FlagRoundTrip(v: bv8)
    ensures GetFlag(SetFlag(v)) == v | 0x20
  {
  }

  /** Packing then unpacking keeps every flag except F5, which comes back set. */
  lemma FlagUnpackPack(f: Flags)
    ensures SetFlag(GetFlag(f)) == f.(f5 := true)
  {
  }

  lemma PushKeepsFull(c: Cpu, v: bv8)
    requires Full(c.mem)
    ensures Full(Push(c, v).mem)
  {
    forall adr: Addr ensures adr in Push(c, v).mem {
      assert adr in c.mem;
    }
  }

  /**
   * A pop after a push returns the byte pushed and puts regS back; the stack stays in its
   * page, and only the pushed byte of memory has changed.
   */
  lemma PopAfterPush(c: Cpu, v: bv8)
    requires Full(c.mem)
    ensures Full(Push(c, v).mem)
    ensures var (r, c') := Pop(Push(c, v));
      r == v && c'.s == c.s && c'.sph == c.sph && c' == c.(mem := c.mem[At(SP(c)) := v])
  {
    PushKeepsFull(c, v);
    var c1 := Push(c, v);
    assert c1.s + 1 == c.s;
  }

  /**
   * The interrupt frame: PCh, PCl and the packed flags go to the three bytes below SP in the
   * stack page, and regS is lowered by 3; nothing else changes.
   */
  lemma InterruptFrame(c: Cpu)
    requires Full(c.mem)
    ensures var c' := PushInt(c);
      c'.s == c.s - 3 && c'.sph == c.sph &&
      c'.mem == c.mem[At(Word(c.sph, c.s)) := Hi(c.pc)][At(Word(c.sph, c.s - 1)) := Lo(c.pc)]
                     [At(Word(c.sph, c.s - 2)) := GetFlag(c.f)] &&
      c' == c.(s := c.s - 3, mem := c'.mem)
  {
  }

  /**
   * NMI wins over IRQ: it is cleared alone, the frame is pushed with the flags as they
   * are, and PC comes from 0xFFFA/B. A pending IRQ is left for later.
   */
  lemma NmiWins(c: Cpu)
    requires Full(c.mem) && c.intrq.nmi
    ensures var (t, c') := Interrupt(c);
      var c1 := PushInt(c.(intrq := Lines(false, c.intrq.irq)));
      t == 7 && Full(c1.mem) && c' == c1.(pc := Vector(c1.mem, 0xfffa)) &&
      c'.intrq == Lines(false, c.intrq.irq) && c'.f == c.f && c'.s == c.s - 3
  {
    PushIntKeepsFull(c.(intrq := Lines(false, c.intrq.irq)));
    InterruptFrame(c.(intrq := Lines(false, c.intrq.irq)));
  }

  /**
   * An IRQ is taken only with I clear: B is cleared before the frame is pushed, then I is set
   * and PC comes from 0xFFFE/F. With I set the request is dropped and nothing else happens.
   */
  lemma IrqService(c: Cpu)
    requires Full(c.mem) && !c.intrq.nmi && c.intrq.irq
    ensures var (t, c') := Interrupt(c);
      t == 7 && !c'.intrq.irq && !c'.intrq.nmi &&
      (c.f.i ==> c' == c.(intrq := Lines(false, false))) &&
      (!c.f.i ==>
        c'.f == c.f.(b := false, i := true) &&
        c'.mem[At(Word(c.sph, c.s - 2))] == GetFlag(c.f.(b := false)) &&
        !HasAny(GetFlag(c.f.(b := false)), 0x10) &&
        c'.s == c.s - 3 &&
        c'.pc == Word(c'.mem[At(0xffff)], c'.mem[At(0xfffe)]))
  {
    var c1 := c.(intrq := c.intrq.(irq := false));
    if !c.f.i {
      var c2 := c1.(f := c1.f.(b := false));
      PushIntKeepsFull(c2);
      InterruptFrame(c2);
      FlagBits(c2.f);
    }
  }

  /** Each flag drives its own bit of the packed byte. */
  lemma FlagBits(f: Flags)
    ensures HasAny(GetFlag(f), 0x10) == f.b && HasAny(GetFlag(f), 0x04) == f.i
    ensures HasAny(GetFlag(f), 0x20)
  {
  }

  lemma PushIntKeepsFull(c: Cpu)
    requires Full(c.mem)
    ensures Full(PushInt(c).mem)
  {
    PushKeepsFull(c, Hi(c.pc));
    PushKeepsFull(Push(c, Hi(c.pc)), Lo(c.pc));
    PushKeepsFull(Push(Push(c, Hi(c.pc)), Lo(c.pc)), GetFlag(c.f));
  }

  /** A locked CPU reports one cycle and changes nothing. */
  lemma LockedStep(c: Cpu)
    requires Full(c.mem) && c.lock
    ensures Exec(c) == (Locked, c) && Cycles(Exec(c).0) == Some(1)
  {
  }

  /**
   * The step driver: requests are masked by `inten` (IRQ also by I); a surviving request is
   * serviced unless the NOINT latch is set, and otherwise the opcode at PC is fetched, PC
   * advances and the latch clears.
   */
  lemma StepDriver(c: Cpu)
    requires Full(c.mem) && !c.lock
    ensures var (st, c') := Exec(c);
      var m := Masked(c);
      (st == Serviced <==> (m.nmi || m.irq) && !c.noint) &&
      (st.Fetched? ==> st.op == c.mem[At(c.pc)] && c'.pc == c.pc + 1 && !c'.noint &&
                        c' == c.(intrq := m, noint := false, pc := c.pc + 1)) &&
      (st == Serviced ==> Cycles(st) == Some(7) && c' == Interrupt(c.(intrq := m)).1) &&
      (c.f.i ==> !c'.intrq.irq || st == Serviced)
  {
  }

  /** The NOINT latch holds off even an NMI for exactly one step. */
  lemma NoIntLatch(c: Cpu)
    requires Full(c.mem) && !c.lock && c.noint
    ensures Exec(c).0.Fetched? && !Exec(c).1.noint
    ensures var c1 := Exec(c).1;
      Full(c1.mem) && !c1.lock && (c1.intrq.nmi || c1.intrq.irq) ==> Exec(c1).0 == Serviced
  {
  }

  /** Reset: the stack at 0x01FD, I (and bit 5) set, A = X = Y = 0, PC from 0xFFFC/D. */
  lemma ResetState(c: Cpu)
    requires Full(c.mem)
    ensures var c' := Reset(c);
      SP(c') == 0x01fd && c'.f.i && c'.f.f5 && c'.a == 0 && c'.x == 0 && c'.y == 0 &&
      c'.pc == Word(c.mem[At(0xfffd)], c.mem[At(0xfffc)]) &&
      !c'.lock && c'.intrq == Lines(false, false) && c'.inten == Lines(true, true) &&
      c'.mem == c.mem && c'.f.(i := c.f.i, f5 := c.f.f5) == c.f
  {
  }

  /** The disassembler's condition agrees with the eight branches' definitions. */
  lemma BranchConditionByName(op: bv8, f: Flags)
    requires IsBranch(op)
    ensures BranchMet(op, f) == TakenByName(op, f)
  {
    assert op == 0x10 || op == 0x30 || op == 0x50 || op == 0x70 ||
           op == 0x90 || op == 0xb0 || op == 0xd0 || op == 0xf0;
  }

  /**
   * m6502_set_regs: each register ends up with the byte (PC: the word) of the last entry
   * naming it before REG_NONE, or keeps its value.
   */
  lemma {:induction false} SetRegsLast(c: Cpu, bunch: seq<RegEntry>, i: nat)
    requires |bunch| >= 32
    decreases 32 - i
    ensures var c' := SetRegsFrom(c, bunch, i);
      c'.a == ByteOr(LastValue(bunch, RegA, i), c.a) &&
      c'.x == ByteOr(LastValue(bunch, RegX, i), c.x) &&
      c'.y == ByteOr(LastValue(bunch, RegY, i), c.y) &&
      c'.s == ByteOr(LastValue(bunch, RegS, i), c.s) &&
      c'.pc == WordOr(LastValue(bunch, RegPC, i), c.pc) &&
      c'.f == FlagsOr(LastValue(bunch, RegF, i), c.f)
  {
    if i >= 32 || bunch[i].id == RegNone {
    } else {
      var e := bunch[i];
      var c1 := SetReg(c, e);
      SetRegsLast(c1, bunch, i + 1);
      LastValueStep(bunch, i);
      SetRegEffect(c, e);
    }
  }

  /** m6502_set_regs leaves memory, the stack page and the interrupt lines alone. */
  lemma {:induction false} SetRegsKeeps(c: Cpu, bunch: seq<RegEntry>, i: nat)
    requires |bunch| >= 32
    decreases 32 - i
    ensures var c' := SetRegsFrom(c, bunch, i);
      c'.mem == c.mem && c'.sph == c.sph && c'.lock == c.lock && c'.noint == c.noint &&
      c'.intrq == c.intrq && c'.inten == c.inten
  {
    if i < 32 && bunch[i].id != RegNone {
      SetRegsKeeps(SetReg(c, bunch[i]), bunch, i + 1);
      SetRegEffect(c, bunch[i]);
    }
  }

  /** One entry's contribution to the last value of each register. */
  lemma LastValueStep(bunch: seq<RegEntry>, i: nat)
    requires |bunch| >= 32 && i < 32 && bunch[i].id != RegNone
    ensures forall id :: (LastValue(bunch, id, i) ==
      (if LastValue(bunch, id, i + 1).Some? then LastValue(bunch, id, i + 1)
       else if bunch[i].id == id then Some(bunch[i].value) else None))
  {
  }

  /** One entry sets only the register it names. */
  lemma SetRegEffect(c: Cpu, e: RegEntry)
    ensures var c' := SetReg(c, e);
      c'.a == (if e.id == RegA then ByteOf(e.value) else c.a) &&
      c'.x == (if e.id == RegX then ByteOf(e.value) else c.x) &&
      c'.y == (if e.id == RegY then ByteOf(e.value) else c.y) &&
      c'.s == (if e.id == RegS then ByteOf(e.value) else c.s) &&
      c'.pc == (if e.id == RegPC then WordOf(e.value) else c.pc) &&
      c'.f == (if e.id == RegF then SetFlag(ByteOf(e.value)) else c.f) &&
      c'.mem == c.mem && c'.sph == c.sph && c'.lock == c.lock && c'.noint == c.noint &&
      c'.intrq == c.intrq && c'.inten == c.inten
  {
  }

  // ---------------------------------------------------------------------------
  // The CPU as the mutable struct the emulator keeps

  /** The register file: A, X, Y, regS, the stack page and PC. */
  datatype Regs = Regs(a: bv8, x: bv8, y: bv8, s: bv8, sph: bv8, pc: bv16)

  class M6502 {
    var regs: Regs
    var f: Flags
    var lock: bool
    var noint: bool
    var intrq: Lines
    var inten: Lines
    var mem: map<Addr, bv8>

    function State(): Cpu
      reads this
    {
      Cpu(regs.a, regs.x, regs.y, regs.s, regs.sph, regs.pc, f, lock, noint, intrq, inten, mem)
    }

    /** m6502_push */
    method PushByte(v: bv8)
      modifies this
      ensures State() == Push(old(State()), v)
    {
      mem := mem[At(Word(regs.sph, regs.s)) := v];
      regs := regs.(s := regs.s - 1);
    }

    /** m6502_pop */
    method PopByte() returns (v: bv8)
      requires Full(mem)
      modifies this
      ensures (v, State()) == Pop(old(State()))
    {
      regs := regs.(s := regs.s + 1);
      v := mem[At(Word(regs.sph, regs.s))];
    }

    /** m6502_push_int */
    method PushFrame()
      modifies this
      ensures State() == PushInt(old(State()))
    {
      PushByte(Hi(regs.pc));
      PushByte(Lo(regs.pc));
      PushByte(GetFlag(f));
    }

    /** m6502_int */
    method Int() returns (t: int)
      requires Full(mem)
      modifies this
      ensures (t, State()) == Interrupt(old(State()))
    {
      if intrq.nmi {
        intrq := intrq.(nmi := false);
        PushFrame();
        PushIntKeepsFull(old(State()).(intrq := intrq));
        regs := regs.(pc := Vector(mem, 0xfffa));
      } else if intrq.irq {
        intrq := intrq.(irq := false);
        if !f.i {
          f := f.(b := false);
          ghost var before := State();
          PushFrame();
          PushIntKeepsFull(before);
          f := f.(i := true);
          regs := regs.(pc := Vector(mem, 0xfffe));
        }
      }
      t := 7;
    }

    /** m6502_exec up to the dispatch through mosTab. */
    method Step() returns (st: Step)
      requires Full(mem)
      modifies this
      ensures (st, State()) == Exec(old(State()))
    {
      if lock {
        return Locked;
      }
      intrq := Masked(State());
      if (intrq.nmi || intrq.irq) && !noint {
        var _ := Int();
        st := Serviced;
      } else {
        noint := false;
        st := Fetched(mem[At(regs.pc)]);
        regs := regs.(pc := regs.pc + 1);
      }
    }

    /** m6502_reset */
    method ResetCpu()
      requires Full(mem)
      modifies this
      ensures State() == Reset(old(State()))
    {
      lock := false;
      intrq := Lines(false, false);
      inten := Lines(true, true);
      f := f.(f5 := true, i := true);
      regs := Regs(0, 0, 0, 0xfd, 0x01, Vector(mem, 0xfffc));
    }

    /** One entry of the m6502_set_regs switch. */
    method SetOne(e: RegEntry)
      modifies this
      ensures State() == SetReg(old(State()), e)
    {
      match e.id {
        case RegPC => regs := regs.(pc := WordOf(e.value));
        case RegS => regs := regs.(s := ByteOf(e.value));
        case RegA => regs := regs.(a := ByteOf(e.value));
        case RegF => f := SetFlag(ByteOf(e.value));
        case RegX => regs := regs.(x := ByteOf(e.value));
        case RegY => regs := regs.(y := ByteOf(e.value));
        case RegNone =>
        case RegOther(_) =>
      }
    }

    /** m6502_set_regs: up to 32 entries, stopping at REG_NONE. */
    method SetRegs(bunch: seq<RegEntry>)
      requires |bunch| >= 32
      modifies this
      ensures State() == SetRegsFrom(old(State()), bunch, 0)
    {
      var idx := 0;
      while idx < 32
        invariant 0 <= idx <= 32
        invariant SetRegsFrom(State(), bunch, idx) == SetRegsFrom(old(State()), bunch, 0)
        decreases 32 - idx
      {
        var e := bunch[idx];
        if e.id == RegNone {
          break;
        }
        SetOne(e);
        idx := idx + 1;
      }
    }
  }
}
