// The K1801VM1 processor (a PDP-11 family CPU): the register file, the
// processor status word, the 16-bit word bus with its byte lanes, the stack,
// the trap and interrupt protocol and the programmable timer.  Everything
// here is a value; `Pdp11Core.Cpu` is the object that steps through it.

module Pdp11 {
  import opened Common

  /** The eight general registers R0..R7; R6 is the stack pointer and R7 the program counter. */
  type Regs = rs: seq<bv16> | |rs| == 8 witness [0, 0, 0, 0, 0, 0, 0, 0]

  /** A register number, as held in the low three bits of an operand field. */
  type RegNo = n: int | 0 <= n < 8

  /** The register named by the low three bits of an operand field. */
  function RegOf(code: bv16): (n: RegNo)
  {
    var k := code & 7;
    if k == 0 then 0 else if k == 1 then 1 else if k == 2 then 2 else if k == 3 then 3
    else if k == 4 then 4 else if k == 5 then 5 else if k == 6 then 6 else 7
  }

  /** The odd register of the pair starting at `n` (`n | 1`). */
  function OddOf(n: RegNo): RegNo
  {
    if n % 2 == 0 then n + 1 else n
  }

  /** The addressing mode of an operand field, still in place (bits 3..5). */
  function Mode(code: bv16): bv16
  {
    code & 0x38
  }

  /** `x + 2`: the next word. */
  function Next(x: bv16): bv16
  {
    x + 2
  }

  /** `x - 2`: the previous word. */
  function Prev(x: bv16): bv16
  {
    x - 2
  }

  lemma NextPrev(x: bv16)
    ensures Next(Prev(x)) == x && Prev(Next(x)) == x
  {
  }

  // ---------------------------------------------------------------------
  // Processor status word

  /** The PSW bits the core keeps: C V Z N T, bit 7 (interrupt mask), bits 10 and 11. */
  datatype Psw = Psw(c: bool, v: bool, z: bool, n: bool, t: bool,
                     f7: bool, f10: bool, f11: bool)

  /** `v & k != 0` on a word. */
  predicate Has(v: bv16, k: bv16)
  {
    v & k != 0
  }

  /** `k` when `b` holds, else 0. */
  function Flag(b: bool, k: bv16): bv16
  {
    if b then k else 0
  }

  /** The PSW as a word (`pdp_get_flag`). */
  function Pack(p: Psw): bv16
  {
    Flag(p.c, 1) | Flag(p.v, 2) | Flag(p.z, 4) | Flag(p.n, 8) | Flag(p.t, 0x10)
    | Flag(p.f7, 0x80) | Flag(p.f10, 0x400) | Flag(p.f11, 0x800)
  }

  /** The PSW loaded from a word (`pdp_set_flag`): every other bit is dropped. */
  function Unpack(w: bv16): Psw
  {
    Psw(Has(w, 1), Has(w, 2), Has(w, 4), Has(w, 8), Has(w, 0x10),
        Has(w, 0x80), Has(w, 0x400), Has(w, 0x800))
  }

  /** The bits of a word that survive a load into the PSW. */
  const PswMask: bv16 := 0x0C9F

  /** Loading a packed PSW gives it back. */
  lemma UnpackPack(p: Psw)
    ensures Unpack(Pack(p)) == p
  {
  }

  /** Packing a loaded PSW keeps exactly the modelled bits. */
  lemma PackUnpack(w: bv16)
    ensures Pack(Unpack(w)) == w & PswMask
  {
  }

  // ---------------------------------------------------------------------
  // The word bus

  /** The word cell holding byte address `adr` (the bus ignores bit 0). */
  function WordAt(adr: bv16): Addr
  {
    At(adr & 0xfffe)
  }

  /** A word of memory as its two byte lanes. */
  datatype Cell = Cell(lo: bv8, hi: bv8)

  /** The cell at `adr`; a cell never written reads as all ones. */
  function CellAt(m: map<Addr, Cell>, adr: bv16): Cell
  {
    var k := WordAt(adr);
    if k in m then m[k] else Cell(0xff, 0xff)
  }

  /**
   * A bus write as memory takes it: lane code 1 writes the low byte,
   * 2 the high byte and 3 the whole word.
   */
  function Merge(cur: Cell, v: bv16, nod: bv8): Cell
  {
    if nod == 1 then cur.(lo := Lo(v))
    else if nod == 2 then cur.(hi := Hi(v))
    else Cell(Lo(v), Hi(v))
  }

  function Store(m: map<Addr, Cell>, adr: bv16, v: bv16, nod: bv8): map<Addr, Cell>
  {
    m[WordAt(adr) := Merge(CellAt(m, adr), v, nod)]
  }

  /** Bus latches: the lane code of the last write, the address latch WZ, the opcode and the PC it was fetched from. */
  datatype Latch = Latch(nod: bv8, wz: bv16, com: bv16, oldpc: bv16)

  /** Interrupt request lines, in decreasing priority. */
  datatype Irq = Irq1 | Irq2 | Irq3 | Virq | TimerIrq

  /**
   * Control state: the microcode state MCIR and vector select VCEL, the WAIT
   * and HALT flags, pending and enabled requests, the vector of the vectored
   * request, the PC/PSW save registers 177674/177676, the processor
   * generation (0 for VM1, 1 for VM2) and the number of bus INIT pulses sent.
   */
  datatype Ctl = Ctl(mcir: bv8, vcel: bv8, wait: bool, halt: bool,
                     intrq: set<Irq>, inten: set<Irq>, intvec: bv16,
                     savedPc: bv16, savedPsw: bv16, gen: int, inits: nat)

  /** The programmable timer: control flags, the cycle counter, the period per tick, the value and its reload. */
  datatype Timer = Timer(flag: bv8, cnt: int, per: int, val: bv16, ival: bv16)

  datatype State = State(r: Regs, f: Psw, mem: map<Addr, Cell>, lat: Latch,
                         ctl: Ctl, t: nat, timer: Timer)

  /** `pdp_rd`: the word at the even address. */
  function Rd(s: State, adr: bv16): bv16
  {
    var c := CellAt(s.mem, adr);
    Word(c.hi, c.lo)
  }

  /** `pdp_rdb`: the high byte of the word for an odd address, the low byte for an even one. */
  function Rdb(s: State, adr: bv16): bv16
  {
    var c := CellAt(s.mem, adr);
    if Has(adr, 1) then c.hi as bv16 else c.lo as bv16
  }

  /** `pdp_wr`: a whole-word write (lane code 3). */
  function Wr(s: State, adr: bv16, v: bv16): State
  {
    s.(lat := s.lat.(nod := 3), mem := Store(s.mem, adr, v, 3))
  }

  /** `pdp_wrb`: a byte write, moved into the high lane for an odd address. */
  function Wrb(s: State, adr: bv16, v: bv8): State
  {
    if Has(adr, 1) then s.(lat := s.lat.(nod := 2), mem := Store(s.mem, adr, Word(v, 0), 2))
    else s.(lat := s.lat.(nod := 1), mem := Store(s.mem, adr, Word(0, v), 1))
  }

  /** A word read returns the word last written to its cell, and other cells are untouched. */
  lemma WordRoundTrip(s: State, adr: bv16, v: bv16, b: bv16)
    ensures WordAt(b) == WordAt(adr) ==> Rd(Wr(s, adr, v), b) == v
    ensures WordAt(b) != WordAt(adr) ==> Rd(Wr(s, adr, v), b) == Rd(s, b)
  {
    WordOfHalves(v);
  }

  /** The two byte addresses of one word share its cell. */
  lemma SameCell(adr: bv16)
    ensures WordAt(Partner(adr)) == WordAt(adr) && (Has(Partner(adr), 1) <==> !Has(adr, 1))
  {
  }

  /** The other byte of the word holding `adr`. */
  function Partner(adr: bv16): bv16
  {
    adr ^ 1
  }

  /** A store changes the cell it addresses, by merging the lanes, and no other. */
  lemma StoreCell(m: map<Addr, Cell>, adr: bv16, v: bv16, nod: bv8, b: bv16)
    ensures CellAt(Store(m, adr, v, nod), b) ==
      if WordAt(b) == WordAt(adr) then Merge(CellAt(m, adr), v, nod) else CellAt(m, b)
  {
  }

  /** A byte write puts the byte into the lane its address selects. */
  lemma WrbLane(s: State, adr: bv16, v: bv8)
    ensures Has(adr, 1) ==> CellAt(Wrb(s, adr, v).mem, adr).hi == v
    ensures !Has(adr, 1) ==> CellAt(Wrb(s, adr, v).mem, adr).lo == v
  {
    if Has(adr, 1) {
      WordHalves(v, 0);
      StoreCell(s.mem, adr, Word(v, 0), 2, adr);
    } else {
      WordHalves(0, v);
      StoreCell(s.mem, adr, Word(0, v), 1, adr);
    }
  }

  /** A byte read returns the byte last written there. */
  lemma ByteRoundTrip(s: State, adr: bv16, v: bv8)
    ensures Rdb(Wrb(s, adr, v), adr) == v as bv16
    ensures Wrb(s, adr, v).lat.nod == if Has(adr, 1) then 2 else 1
  {
    WrbLane(s, adr, v);
  }

  /** A byte write leaves the other byte of the word alone. */
  lemma ByteKeepsPartner(s: State, adr: bv16, v: bv8)
    ensures Rdb(Wrb(s, adr, v), Partner(adr)) == Rdb(s, Partner(adr))
  {
    SameCell(adr);
  }

  // ---------------------------------------------------------------------
  // Stack, traps and interrupts

  /** `pdp_push`: R6 moves down a word, then the value is written there. */
  function Push(s: State, v: bv16): State
  {
    var sp := Prev(s.r[6]);
    Wr(s.(r := s.r[6 := sp]), sp, v)
  }

  /** `pdp_pop`: the word at R6, then R6 moves up a word. */
  function Pop(s: State): (bv16, State)
  {
    (Rd(s, s.r[6]), s.(r := s.r[6 := Next(s.r[6])]))
  }

  /** Popping right after a push gives the pushed word and the old registers. */
  lemma PopAfterPush(s: State, v: bv16)
    ensures Pop(Push(s, v)).0 == v
    ensures Pop(Push(s, v)).1.r == s.r
  {
    NextPrev(s.r[6]);
  }

  function SetMcir(s: State, m: bv8): State
  {
    s.(ctl := s.ctl.(mcir := m))
  }

  /** MCIR 2 or 4: the trap first rewinds PC by a word. */
  predicate Rewinds(mcir: bv8)
  {
    mcir == 2 || mcir == 4
  }

  /** MCIR 2 or 3 (halt, IRQ1): PSW and PC go to the save registers instead of the stack. */
  predicate SavesInside(mcir: bv8)
  {
    mcir & 6 == 2
  }

  /**
   * `pdp_trap`: MCIR 2 or 4 first rewinds PC by a word; MCIR 2 or 3 keeps
   * PSW and PC in the save registers, any other state pushes PSW then PC;
   * then PC is loaded from the vector and the PSW from the word after it,
   * and MCIR becomes 1.
   */
  function Trap(s: State, vec: bv16): State
  {
    Enter(Save(Rewind(s)), vec)
  }

  function Rewind(s: State): State
  {
    if Rewinds(s.ctl.mcir) then s.(r := s.r[7 := Prev(s.r[7])]) else s
  }

  function Save(s: State): State
  {
    if SavesInside(s.ctl.mcir) then s.(ctl := s.ctl.(savedPsw := Pack(s.f), savedPc := s.r[7]))
    else Push(Push(s, Pack(s.f)), s.r[7])
  }

  function Enter(s: State, vec: bv16): State
  {
    var s1 := s.(r := s.r[7 := Rd(s, vec)]);
    SetMcir(s1.(f := Unpack(Rd(s1, Next(vec)))), 1)
  }

  /**
   * A trap from MCIR 5 pushes the PSW and then the PC below the stack pointer
   * and enters the vector with the PSW stored after it.
   */
  lemma TrapPushes(s: State, vec: bv16)
    requires s.ctl.mcir == 5
    requires WordAt(vec) != WordAt(Prev(s.r[6])) && WordAt(vec) != WordAt(Prev(Prev(s.r[6])))
    requires WordAt(Next(vec)) != WordAt(Prev(s.r[6])) && WordAt(Next(vec)) != WordAt(Prev(Prev(s.r[6])))
    ensures Trap(s, vec).r == s.r[6 := Prev(Prev(s.r[6]))][7 := Rd(s, vec)]
    ensures Trap(s, vec).f == Unpack(Rd(s, Next(vec)))
    ensures Rd(Trap(s, vec), Prev(s.r[6])) == Pack(s.f)
    ensures Rd(Trap(s, vec), Prev(Prev(s.r[6]))) == s.r[7]
    ensures Trap(s, vec).ctl == s.ctl.(mcir := 1)
  {
    var sp := s.r[6];
    var s1 := Push(s, Pack(s.f));
    var s2 := Push(s1, s.r[7]);
    WordRoundTrip(s.(r := s.r[6 := Prev(sp)]), Prev(sp), Pack(s.f), Next(vec));
    WordRoundTrip(s.(r := s.r[6 := Prev(sp)]), Prev(sp), Pack(s.f), vec);
    WordRoundTrip(s.(r := s.r[6 := Prev(sp)]), Prev(sp), Pack(s.f), Prev(sp));
    WordsApart(sp);
    WordRoundTrip(s1.(r := s1.r[6 := Prev(Prev(sp))]), Prev(Prev(sp)), s.r[7], Next(vec));
    WordRoundTrip(s1.(r := s1.r[6 := Prev(Prev(sp))]), Prev(Prev(sp)), s.r[7], vec);
    WordRoundTrip(s1.(r := s1.r[6 := Prev(Prev(sp))]), Prev(Prev(sp)), s.r[7], Prev(sp));
    WordRoundTrip(s1.(r := s1.r[6 := Prev(Prev(sp))]), Prev(Prev(sp)), s.r[7], Prev(Prev(sp)));
  }

  /** The two words below the stack pointer are distinct cells. */
  lemma WordsApart(sp: bv16)
    ensures WordAt(Prev(sp)) != WordAt(Prev(Prev(sp)))
  {
  }

  /** A trap from MCIR 2 or 3 leaves the stack alone and keeps PSW and PC in the save registers. */
  lemma TrapSaves(s: State, vec: bv16)
    requires s.ctl.mcir == 3 || s.ctl.mcir == 2
    ensures Trap(s, vec).r[6] == s.r[6]
    ensures Trap(s, vec).mem == s.mem
    ensures Trap(s, vec).ctl.savedPsw == Pack(s.f)
    ensures Trap(s, vec).ctl.savedPc == if s.ctl.mcir == 2 then Prev(s.r[7]) else s.r[7]
    ensures Trap(s, vec).r[7] == Rd(s, vec) && Trap(s, vec).ctl.mcir == 1
  {
    TrapSavesForm(s, vec);
  }

  /** The whole state after a trap from MCIR 2 or 3. */
  lemma TrapSavesForm(s: State, vec: bv16)
    requires s.ctl.mcir == 3 || s.ctl.mcir == 2
    ensures var pc := if s.ctl.mcir == 2 then Prev(s.r[7]) else s.r[7];
      Trap(s, vec) == s.(r := s.r[7 := Rd(s, vec)], f := Unpack(Rd(s, Next(vec))),
                         ctl := s.ctl.(savedPsw := Pack(s.f), savedPc := pc, mcir := 1))
  {
    var pc := if s.ctl.mcir == 2 then Prev(s.r[7]) else s.r[7];
    var s0 := s.(r := s.r[7 := pc]);
    assert Rewind(s) == s0;
    SavesInsideLow(s.ctl.mcir);
    var s1 := s0.(ctl := s0.ctl.(savedPsw := Pack(s.f), savedPc := pc));
    assert Save(s0) == s1;
    assert Rd(s1, vec) == Rd(s, vec);
  }

  /** MCIR 2 and 3 keep the saved PSW and PC inside the processor. */
  lemma SavesInsideLow(m: bv8)
    requires m == 3 || m == 2
    ensures SavesInside(m)
  {
  }

  /** The request served first among those pending: IRQ1, IRQ2, IRQ3, the vectored request, then the timer. */
  function Highest(q: set<Irq>): Irq
    requires q != {}
  {
    if Irq1 in q then Irq1 else if Irq2 in q then Irq2 else if Irq3 in q then Irq3
    else if Virq in q then Virq else TimerIrq
  }

  /** Serving one request, whose pending bit has already been cleared. */
  function Serve(s: State, h: Irq): State
  {
    match h
    case Irq1 => if !s.f.f10 then SetMcir(s, 3) else s
    case Irq2 => if !s.f.f7 then Trap(SetMcir(s, 5), 0x40) else s      // vector 0100
    case Irq3 => if !s.f.f7 then Trap(SetMcir(s, 5), 0xb8) else s      // vector 0270
    case Virq => Trap(SetMcir(s, 5), s.ctl.intvec)
    case TimerIrq => if !s.f.f7 then SetMcir(s, 5) else s
  }

  /**
   * `pdp11_int`: masks the pending requests with the enabled ones, leaves
   * WAIT (skipping the WAIT instruction) if any remain, and serves the
   * highest one; reports 10 cycles, or 0 when nothing was pending.
   */
  function Interrupt(s: State): (nat, State)
  {
    var q := s.ctl.intrq * s.ctl.inten;
    var s0 := s.(ctl := s.ctl.(intrq := q));
    var s1 := if q != {} && s0.ctl.wait
              then s0.(ctl := s0.ctl.(wait := false), r := s0.r[7 := Next(s0.r[7])]) else s0;
    if q == {} then (0, s1)
    else
      var h := Highest(q);
      (10, Serve(s1.(ctl := s1.ctl.(intrq := q - {h})), h))
  }

  /** A trap leaves the pending and enabled requests and the WAIT flag alone. */
  lemma TrapKeepsRequests(s: State, vec: bv16)
    ensures Trap(s, vec).ctl.intrq == s.ctl.intrq && Trap(s, vec).ctl.inten == s.ctl.inten
    ensures Trap(s, vec).ctl.wait == s.ctl.wait
  {
    StagesKeepRequests(s, vec);
  }

  lemma StagesKeepRequests(s: State, vec: bv16)
    ensures Rewind(s).ctl == s.ctl
    ensures Save(s).ctl.intrq == s.ctl.intrq && Save(s).ctl.inten == s.ctl.inten && Save(s).ctl.wait == s.ctl.wait
    ensures Enter(s, vec).ctl == s.ctl.(mcir := 1)
  {
  }

  /** Serving a request leaves the request lines and the WAIT flag alone. */
  lemma ServeKeepsRequests(s: State, h: Irq)
    ensures Serve(s, h).ctl.intrq == s.ctl.intrq && Serve(s, h).ctl.wait == s.ctl.wait
  {
    match h
    case Irq1 =>
    case Irq2 => TrapKeepsRequests(SetMcir(s, 5), 0x40);
    case Irq3 => TrapKeepsRequests(SetMcir(s, 5), 0xb8);
    case Virq => TrapKeepsRequests(SetMcir(s, 5), s.ctl.intvec);
    case TimerIrq =>
  }

  /**
   * An interrupt cycle takes 10 cycles exactly when an enabled request is
   * pending, and then retires the highest of them and nothing else.
   */
  lemma InterruptServesHighest(s: State)
    ensures var q := s.ctl.intrq * s.ctl.inten;
      (Interrupt(s).0 == 10 <==> q != {}) && (Interrupt(s).0 == 0 <==> q == {}) &&
      (q != {} ==> Interrupt(s).1.ctl.intrq == q - {Highest(q)}) &&
      (q == {} ==> Interrupt(s).1 == s.(ctl := s.ctl.(intrq := q)))
  {
    var q := s.ctl.intrq * s.ctl.inten;
    if q != {} {
      var s1 := if s.ctl.wait then s.(ctl := s.ctl.(intrq := q, wait := false), r := s.r[7 := Next(s.r[7])])
                else s.(ctl := s.ctl.(intrq := q));
      var h := Highest(q);
      ServeKeepsRequests(s1.(ctl := s1.ctl.(intrq := q - {h})), h);
    }
  }

  /** The highest pending request is one of those pending, and no request ranks above it. */
  lemma HighestPending(q: set<Irq>)
    requires q != {}
    ensures Highest(q) in q
    ensures Highest(q) == Irq2 ==> Irq1 !in q
    ensures Highest(q) == Irq3 ==> Irq1 !in q && Irq2 !in q
    ensures Highest(q) == Virq ==> Irq1 !in q && Irq2 !in q && Irq3 !in q
    ensures Highest(q) == TimerIrq ==> q == {TimerIrq}
  {
    var p :| p in q;
    match p {
      case Irq1 =>
      case Irq2 =>
      case Irq3 =>
      case Virq =>
      case TimerIrq =>
    }
    if Highest(q) == TimerIrq {
      forall h | h in q ensures h == TimerIrq {
        match h
        case Irq1 =>
        case Irq2 =>
        case Irq3 =>
        case Virq =>
        case TimerIrq =>
      }
    }
  }

  /**
   * A pending request ends WAIT; when it traps nowhere (IRQ1, the timer) the
   * only register change is PC moving past the WAIT instruction.
   */
  lemma InterruptEndsWait(s: State)
    requires s.ctl.wait && s.ctl.intrq * s.ctl.inten != {}
    ensures !Interrupt(s).1.ctl.wait
    ensures Highest(s.ctl.intrq * s.ctl.inten) in {Irq1, TimerIrq} ==>
      Interrupt(s).1.r == s.r[7 := Next(s.r[7])]
  {
    var q := s.ctl.intrq * s.ctl.inten;
    var s1 := s.(ctl := s.ctl.(intrq := q, wait := false), r := s.r[7 := Next(s.r[7])]);
    ServeKeepsRequests(s1.(ctl := s1.ctl.(intrq := q - {Highest(q)})), Highest(q));
  }

  // ---------------------------------------------------------------------
  // The programmable timer

  /** The timer counts (flag bit 4). */
  predicate Counting(tm: Timer)
  {
    HasAny(tm.flag, 0x10)
  }

  /** This period takes the value through zero to FFFF. */
  predicate Wraps(tm: Timer)
  {
    Counting(tm) && Pred(tm.val) == 0xffff
  }

  /** On the wrap the timer raises its request (flag bit 2) and records it in flag bit 7. */
  predicate Raises(tm: Timer)
  {
    Wraps(tm) && HasAny(tm.flag, 0x04)
  }

  /** The value after one period: one less, and on the wrap FFFF (bit 1), kept (bit 3) or reloaded. */
  function TickValue(tm: Timer): bv16
  {
    if !Counting(tm) then tm.val
    else if !Wraps(tm) then Pred(tm.val)
    else if HasAny(tm.flag, 0x02) then 0xffff
    else if HasAny(tm.flag, 0x08) then Pred(tm.val)
    else tm.ival
  }

  /** The flags after one period: bit 7 set when the request is raised, bit 4 cleared when a one-shot (bit 3) wraps. */
  function TickFlag(tm: Timer): bv8
  {
    var fl := if Raises(tm) then tm.flag | 0x80 else tm.flag;
    if Wraps(tm) && !HasAny(fl, 0x02) && HasAny(fl, 0x08) then Clear(fl, 0x10) else fl
  }

  /**
   * One elapsed period: a counting timer decrements its value; on the wrap
   * to FFFF it raises its request if asked to, and reloads FFFF, stops
   * counting or reloads the initial value.
   */
  function TimerTick(tm: Timer, q: set<Irq>): (Timer, set<Irq>)
  {
    (tm.(flag := TickFlag(tm), val := TickValue(tm)), if Raises(tm) then q + {TimerIrq} else q)
  }

  /** The loop of `pdp_timer` terminates: the counter is not negative, or each period adds cycles. */
  predicate Settles(tm: Timer)
  {
    tm.cnt >= 0 || tm.per > 0
  }

  /** The loop of `pdp_timer`: while the counter is negative, a period elapses. */
  function TimerLoop(tm: Timer, q: set<Irq>): (Timer, set<Irq>)
    requires Settles(tm)
    decreases if tm.cnt < 0 then -tm.cnt else 0
  {
    if tm.cnt >= 0 then (tm, q)
    else
      var (tm1, q1) := TimerTick(tm.(cnt := tm.cnt + tm.per), q);
      TimerLoop(tm1, q1)
  }

  /** `pdp_timer`: a stopped timer (flag bit 0) is left alone; otherwise `t` cycles are charged and periods elapse. */
  function RunTimer(s: State, t: int): State
    requires HasAny(s.timer.flag, 1) || Settles(s.timer.(cnt := s.timer.cnt - t))
  {
    if HasAny(s.timer.flag, 1) then s
    else
      var (tm, q) := TimerLoop(s.timer.(cnt := s.timer.cnt - t), s.ctl.intrq);
      s.(timer := tm, ctl := s.ctl.(intrq := q))
  }

  /** The number of periods that bring counter `c` to zero or above. */
  function Periods(c: int, per: int): nat
    requires c >= 0 || per > 0
    decreases if c < 0 then -c else 0
  {
    if c >= 0 then 0 else 1 + Periods(c + per, per)
  }

  /**
   * The timer loop adds whole periods to the counter, as many as `Periods`
   * counts; one that started negative ends at or above zero and below one period.
   */
  lemma {:induction false} LoopSettles(tm: Timer, q: set<Irq>)
    requires Settles(tm)
    ensures TimerLoop(tm, q).0.cnt == tm.cnt + Periods(tm.cnt, tm.per) * tm.per
    ensures tm.cnt < 0 ==> 0 <= TimerLoop(tm, q).0.cnt < tm.per
    ensures tm.cnt >= 0 ==> TimerLoop(tm, q) == (tm, q)
    ensures TimerLoop(tm, q).0.per == tm.per
    decreases if tm.cnt < 0 then -tm.cnt else 0
  {
    if tm.cnt < 0 {
      var tm0 := tm.(cnt := tm.cnt + tm.per);
      var (tm1, q1) := TimerTick(tm0, q);
      LoopSettles(tm1, q1);
      var k := Periods(tm0.cnt, tm.per);
      assert (1 + k) * tm.per == tm.per + k * tm.per;
    }
  }

  /** A timer that does not count (flag bit 4 clear) never changes its value and never raises its request. */
  lemma {:induction false} IdleTimer(tm: Timer, q: set<Irq>)
    requires Settles(tm) && !HasAny(tm.flag, 0x10)
    ensures TimerLoop(tm, q).0.val == tm.val && TimerLoop(tm, q).0.flag == tm.flag
    ensures TimerLoop(tm, q).1 == q
    decreases if tm.cnt < 0 then -tm.cnt else 0
  {
    if tm.cnt < 0 {
      IdleTimer(tm.(cnt := tm.cnt + tm.per), q);
    }
  }

  /** A stopped timer is untouched. */
  lemma StoppedTimer(s: State, t: int)
    requires HasAny(s.timer.flag, 1)
    ensures RunTimer(s, t) == s
  {
  }
}
