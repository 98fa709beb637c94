// Machine-level bookkeeping of the emulated computer: the breakpoint-flag cells and
// the fetch-breakpoint prologue of one execution step, reset-mode decoding, the ULA
// palette conversion and the CMOS read/write mode.
//
// The memory module (mem_get_xadr), the CMOS chip (cmos_rd/cmos_wr) and the PC keyboard
// (xt_read) are not part of this model: what they answer is passed in as a parameter.

module Spectrum {
  import opened Common

  // ---------------------------------------------------------------------------
  // Breakpoint cells

  /** The kind of memory a bus address maps to, as the memory module reports it. */
  datatype MemKind = KindRam | KindRom | KindSlot | KindOther

  /** The translation of a bus address: its kind and absolute offset. */
  datatype XAdr = XAdr(kind: MemKind, abs: nat)

  /** A breakpoint-flag byte, named by the map that holds it; `Dummy` is the static spare byte. */
  datatype Cell = AdrCell(i: nat) | RamCell(i: nat) | RomCell(i: nat) | SlotCell(i: nat) | Dummy

  /** The breakpoint type kept in `brkt`; `BrkNone` is the C value -1. */
  datatype BrkType = BrkNone | BrkCpuAdr | BrkMemRam | BrkMemRom | BrkMemSlt | BrkIrq

  /**
   * The masks of the memory module. Each is 2^k - 1, so `x & mask` is `x % (mask + 1)`,
   * which is how the model applies them.
   */
  datatype MemConfig = MemConfig(busmask: nat, ramMask: nat, romMask: nat, slotMask: nat)

  /** The breakpoint maps of the computer and its `brk`/`brkt`/`brka` fields. */
  datatype BrkState = BrkState(
    adrMap: seq<bv8>,    // by CPU address, used when the bus is narrower than 64K
    ramMap: seq<bv8>,
    romMap: seq<bv8>,
    slotMap: seq<bv8>,
    slotPresent: bool,   // the cartridge slot has a breakpoint map
    dummy: bv8,          // the static spare byte behind unmapped addresses
    brk: bool,
    brkt: BrkType,
    brka: nat)

  /** A hit of comp_check_bp: the type, the flag byte that matched and the reported address. */
  datatype BpHit = BpHit(t: BrkType, cell: Cell, a: nat)

  function Masked(x: nat, mask: nat): nat
  {
    x % (mask + 1)
  }

  /** Every map is as large as its mask says; the CPU-address map spans 64K. */
  predicate Sized(s: BrkState, cfg: MemConfig)
  {
    |s.adrMap| == 0x10000 && |s.ramMap| == cfg.ramMask + 1 &&
    |s.romMap| == cfg.romMask + 1 && |s.slotMap| == cfg.slotMask + 1
  }

  predicate HasCell(s: BrkState, c: Cell)
  {
    match c
    case AdrCell(i) => i < |s.adrMap|
    case RamCell(i) => i < |s.ramMap|
    case RomCell(i) => i < |s.romMap|
    case SlotCell(i) => i < |s.slotMap|
    case Dummy => true
  }

  /** The byte a cell holds. */
  function Get(s: BrkState, c: Cell): bv8
    requires HasCell(s, c)
  {
    match c
    case AdrCell(i) => s.adrMap[i]
    case RamCell(i) => s.ramMap[i]
    case RomCell(i) => s.romMap[i]
    case SlotCell(i) => s.slotMap[i]
    case Dummy => s.dummy
  }

  /** Store a byte through a cell. */
  function Put(s: BrkState, c: Cell, v: bv8): (r: BrkState)
    requires HasCell(s, c)
    ensures HasCell(r, c) && Get(r, c) == v
    ensures r.brk == s.brk && r.brkt == s.brkt && r.brka == s.brka && r.slotPresent == s.slotPresent
  {
    match c
    case AdrCell(i) => s.(adrMap := s.adrMap[i := v])
    case RamCell(i) => s.(ramMap := s.ramMap[i := v])
    case RomCell(i) => s.(romMap := s.romMap[i := v])
    case SlotCell(i) => s.(slotMap := s.slotMap[i := v])
    case Dummy => s.(dummy := v)
  }

  /** The cell of the CPU-address map for `adr`. */
  function AdrCellOf(cfg: MemConfig, adr: nat): Cell
  {
    AdrCell(Masked(adr, cfg.busmask))
  }

  /** The cell of the RAM, ROM or slot map behind a translated address, if there is one. */
  function MemCell(s: BrkState, cfg: MemConfig, x: XAdr): Option<Cell>
  {
    match x.kind
    case KindRam => Some(RamCell(Masked(x.abs, cfg.ramMask)))
    case KindRom => Some(RomCell(Masked(x.abs, cfg.romMask)))
    case KindSlot => if s.slotPresent then Some(SlotCell(Masked(x.abs, cfg.slotMask))) else None
    case KindOther => None
  }

  /** The breakpoint type reported for a hit in the map of a memory kind. */
  function KindType(k: MemKind): BrkType
  {
    match k
    case KindRam => BrkMemRam
    case KindRom => BrkMemRom
    case KindSlot => BrkMemSlt
    case KindOther => BrkNone
  }

  /** The byte getBrkPtr points at. */
  function BrkPtr(s: BrkState, cfg: MemConfig, x: XAdr): Cell
  {
    match MemCell(s, cfg, x)
    case Some(c) => c
    case None => Dummy
  }

  /** The state getBrkPtr leaves: the spare byte is cleared whenever it is handed out. */
  function BrkPtrEffect(s: BrkState, cfg: MemConfig, x: XAdr): BrkState
  {
    if MemCell(s, cfg, x).None? then s.(dummy := 0) else s
  }

  /** comp_check_bp: the CPU-address map first, then the map behind the translated address. */
  function CheckBp(s: BrkState, cfg: MemConfig, adr: nat, x: XAdr, mask: bv8): (r: Option<BpHit>)
    requires Sized(s, cfg)
    ensures r.Some? ==> HasCell(s, r.value.cell) && HasAny(Get(s, r.value.cell), mask)
    ensures r.Some? ==> r.value.t != BrkNone && r.value.t != BrkIrq
  {
    if cfg.busmask < 0x10000 && HasAny(s.adrMap[Masked(adr, cfg.busmask)], mask) then
      Some(BpHit(BrkCpuAdr, AdrCellOf(cfg, adr), Masked(adr, cfg.busmask)))
    else
      match MemCell(s, cfg, x)
      case None => None
      case Some(c) => if HasAny(Get(s, c), mask) then Some(BpHit(KindType(x.kind), c, c.i)) else None
  }

  /** setBrk: the low nibble of the cell takes the flags, the high nibble is kept. */
  function WithBrk(s: BrkState, cfg: MemConfig, x: XAdr, val: bv8): BrkState
    requires Sized(s, cfg)
  {
    var s1 := BrkPtrEffect(s, cfg, x);
    var c := BrkPtr(s, cfg, x);
    Put(s1, c, (Get(s1, c) & 0xf0) | (val & 0x0f))
  }

  /** getBrk: the cell's byte, with the flags of the CPU-address map ORed in on a narrow bus. */
  function BrkValue(s: BrkState, cfg: MemConfig, adr: nat, x: XAdr): (bv8, BrkState)
    requires Sized(s, cfg)
  {
    var s1 := BrkPtrEffect(s, cfg, x);
    var res := Get(s1, BrkPtr(s, cfg, x));
    (if cfg.busmask < 0x10000 then res | (s.adrMap[Masked(adr, cfg.busmask)] & 0x0f) else res, s1)
  }

  /**
   * The breakpoint prologue of compExec, for the fetch at `fetchAdr` (PC plus the CS base)
   * whose translation is `x`. The boolean is true when compExec returns 0 at once.
   */
  function ExecPrologue(s: BrkState, cfg: MemConfig, debug: bool, fetchAdr: nat, x: XAdr,
                        intrq: bool, brkirq: bool, fetch: bv8, tfetch: bv8): (bool, BrkState)
    requires Sized(s, cfg)
  {
    if debug then (false, s)
    else
      match CheckBp(s, cfg, fetchAdr, x, fetch | tfetch)
      case Some(h) => (true, Hit(s, h, tfetch))
      case None =>
        if intrq && brkirq then (true, s.(brk := true, brkt := BrkIrq)) else (false, s)
  }

  /** Recording a fetch-breakpoint hit; a one-shot (TFETCH) byte loses that bit and reports -1. */
  function Hit(s: BrkState, h: BpHit, tfetch: bv8): BrkState
    requires HasCell(s, h.cell)
  {
    if HasAny(Get(s, h.cell), tfetch) then
      Put(s, h.cell, Clear(Get(s, h.cell), tfetch)).(brk := true, brkt := BrkNone, brka := h.a)
    else s.(brk := true, brkt := h.t, brka := h.a)
  }

  // Properties of the breakpoint cells

  /** A store through one cell leaves every other cell as it was. */
  lemma PutFrame(s: BrkState, c: Cell, v: bv8, d: Cell)
    requires HasCell(s, c) && HasCell(s, d) && d != c
    ensures HasCell(Put(s, c, v), d) && Get(Put(s, c, v), d) == Get(s, d)
  {
  }

  /** Every function above keeps the maps' sizes. */
  lemma PutKeepsSized(s: BrkState, cfg: MemConfig, c: Cell, v: bv8)
    requires Sized(s, cfg) && HasCell(s, c)
    ensures Sized(Put(s, c, v), cfg)
  {
  }

  /** comp_check_bp misses exactly when neither consulted byte has a bit of `mask`. */
  lemma CheckBpMissIff(s: BrkState, cfg: MemConfig, adr: nat, x: XAdr, mask: bv8)
    requires Sized(s, cfg)
    ensures CheckBp(s, cfg, adr, x, mask).None? <==>
      (cfg.busmask < 0x10000 ==> s.adrMap[Masked(adr, cfg.busmask)] & mask == 0) &&
      (MemCell(s, cfg, x).Some? ==> Get(s, MemCell(s, cfg, x).value) & mask == 0)
  {
  }

  /**
   * The CPU-address map takes precedence on a narrow bus; otherwise a hit names the RAM,
   * ROM or slot byte and reports the masked absolute address.
   */
  lemma CheckBpPrecedence(s: BrkState, cfg: MemConfig, adr: nat, x: XAdr, mask: bv8)
    requires Sized(s, cfg)
    ensures cfg.busmask < 0x10000 && s.adrMap[Masked(adr, cfg.busmask)] & mask != 0 ==>
      CheckBp(s, cfg, adr, x, mask) ==
        Some(BpHit(BrkCpuAdr, AdrCell(adr % (cfg.busmask + 1)), adr % (cfg.busmask + 1)))
    ensures (!(cfg.busmask < 0x10000 && s.adrMap[Masked(adr, cfg.busmask)] & mask != 0) &&
             CheckBp(s, cfg, adr, x, mask).Some?) ==>
        var h := CheckBp(s, cfg, adr, x, mask).value;
        h.t == KindType(x.kind) && x.kind != KindOther && !h.cell.AdrCell? &&
        (x.kind == KindSlot ==> s.slotPresent) &&
        h.a == h.cell.i
  {
  }

  /** A wide bus never consults the CPU-address map. */
  lemma WideBusIgnoresAdrMap(s: BrkState, cfg: MemConfig, adr: nat, x: XAdr, mask: bv8, m: seq<bv8>)
    requires Sized(s, cfg) && cfg.busmask >= 0x10000 && |m| == 0x10000
    ensures CheckBp(s.(adrMap := m), cfg, adr, x, mask) == CheckBp(s, cfg, adr, x, mask)
  {
  }

  /**
   * getBrkPtr never yields a null pointer: an unmapped address gets the spare byte, which
   * reads as 0 and is the only thing the call changes.
   */
  lemma BrkPtrNeverNull(s: BrkState, cfg: MemConfig, x: XAdr)
    requires Sized(s, cfg)
    ensures var c := BrkPtr(s, cfg, x);
      var s1 := BrkPtrEffect(s, cfg, x);
      HasCell(s, c) && Sized(s1, cfg) &&
      (c == Dummy <==> x.kind == KindOther || (x.kind == KindSlot && !s.slotPresent)) &&
      (c == Dummy ==> Get(s1, c) == 0 && s1 == s.(dummy := 0)) &&
      (c != Dummy ==> s1 == s)
  {
  }

  /**
   * setBrk on a mapped address replaces only the low nibble of its byte and leaves every
   * other byte of every map, and the break fields, as they were.
   */
  lemma SetBrkNibble(s: BrkState, cfg: MemConfig, x: XAdr, val: bv8)
    requires Sized(s, cfg) && MemCell(s, cfg, x).Some?
    ensures var c := BrkPtr(s, cfg, x);
      var s' := WithBrk(s, cfg, x, val);
      Sized(s', cfg) &&
      Get(s', c) & 0xf0 == Get(s, c) & 0xf0 &&
      Get(s', c) & 0x0f == val & 0x0f &&
      (forall d :: HasCell(s, d) && d != c ==> Get(s', d) == Get(s, d)) &&
      s'.brk == s.brk && s'.brkt == s.brkt && s'.brka == s.brka
  {
    var c := BrkPtr(s, cfg, x);
    var v := (Get(s, c) & 0xf0) | (val & 0x0f);
    assert BrkPtrEffect(s, cfg, x) == s;
    assert WithBrk(s, cfg, x, val) == Put(s, c, v);
    PutNibble(s, cfg, c, v, val);
    PutOthers(s, c, v);
  }

  /** The cell after the merged byte is stored: high nibble kept, low nibble from `val`. */
  lemma PutNibble(s: BrkState, cfg: MemConfig, c: Cell, v: bv8, val: bv8)
    requires Sized(s, cfg) && HasCell(s, c) && v == (Get(s, c) & 0xf0) | (val & 0x0f)
    ensures Sized(Put(s, c, v), cfg)
    ensures Get(Put(s, c, v), c) & 0xf0 == Get(s, c) & 0xf0 && Get(Put(s, c, v), c) & 0x0f == val & 0x0f
  {
    PutKeepsSized(s, cfg, c, v);
    MergeKeepsHigh(Get(s, c), val);
    MergeTakesLow(Get(s, c), val);
  }

  /** Storing one cell leaves every other cell as it was. */
  lemma PutOthers(s: BrkState, c: Cell, v: bv8)
    requires HasCell(s, c)
    ensures forall d :: HasCell(s, d) && d != c ==> Get(Put(s, c, v), d) == Get(s, d)
  {
    forall d | HasCell(s, d) && d != c
      ensures Get(Put(s, c, v), d) == Get(s, d)
    {
      PutFrame(s, c, v, d);
    }
  }

  lemma MergeKeepsHigh(b: bv8, val: bv8)
    ensures ((b & 0xf0) | (val & 0x0f)) & 0xf0 == b & 0xf0
  {}

  lemma MergeTakesLow(b: bv8, val: bv8)
    ensures ((b & 0xf0) | (val & 0x0f)) & 0x0f == val & 0x0f
  {}

  /**
   * Reading back a breakpoint just set: the low nibble is the one written (ORed with the
   * CPU-address map's on a narrow bus) and the high nibble is the byte's own.
   */
  lemma GetAfterSet(s: BrkState, cfg: MemConfig, adr: nat, x: XAdr, val: bv8)
    requires Sized(s, cfg) && MemCell(s, cfg, x).Some?
    ensures var s' := WithBrk(s, cfg, x, val);
      var c := BrkPtr(s, cfg, x);
      var r := BrkValue(s', cfg, adr, x).0;
      r & 0xf0 == Get(s, c) & 0xf0 &&
      (cfg.busmask >= 0x10000 ==> r & 0x0f == val & 0x0f) &&
      (cfg.busmask < 0x10000 ==>
        r & 0x0f == (val & 0x0f) | (s.adrMap[Masked(adr, cfg.busmask)] & 0x0f))
  {
    SetBrkNibble(s, cfg, x, val);
  }

  /** A breakpoint set on an unmapped address is lost: the spare byte is cleared on every call. */
  lemma UnmappedBreakpointIsLost(s: BrkState, cfg: MemConfig, adr: nat, x: XAdr, val: bv8)
    requires Sized(s, cfg) && MemCell(s, cfg, x).None?
    ensures var r := BrkValue(WithBrk(s, cfg, x, val), cfg, adr, x).0;
      r == if cfg.busmask < 0x10000 then s.adrMap[Masked(adr, cfg.busmask)] & 0x0f else 0
  {
  }

  /** A debugging session skips the prologue entirely. */
  lemma PrologueSkippedWhileDebugging(s: BrkState, cfg: MemConfig, fetchAdr: nat, x: XAdr,
                                      intrq: bool, brkirq: bool, fetch: bv8, tfetch: bv8)
    requires Sized(s, cfg)
    ensures ExecPrologue(s, cfg, true, fetchAdr, x, intrq, brkirq, fetch, tfetch) == (false, s)
  {
  }

  /** A fetch breakpoint stops the step at once, with the hit recorded. */
  lemma FetchBreakpointStops(s: BrkState, cfg: MemConfig, fetchAdr: nat, x: XAdr,
                             intrq: bool, brkirq: bool, fetch: bv8, tfetch: bv8)
    requires Sized(s, cfg)
    requires CheckBp(s, cfg, fetchAdr, x, fetch | tfetch).Some?
    ensures var h := CheckBp(s, cfg, fetchAdr, x, fetch | tfetch).value;
      ExecPrologue(s, cfg, false, fetchAdr, x, intrq, brkirq, fetch, tfetch) == (true, Hit(s, h, tfetch))
  {
  }

  /**
   * A hit on a one-shot (TFETCH) byte clears that bit, keeps the byte's other bits and every
   * other byte, and reports type -1; an ordinary hit reports its type and changes no byte.
   */
  lemma OneShotBreakpoint(s: BrkState, cfg: MemConfig, h: BpHit, tfetch: bv8)
    requires Sized(s, cfg) && HasCell(s, h.cell)
    ensures var s' := Hit(s, h, tfetch);
      s'.brk && s'.brka == h.a && HasCell(s', h.cell) && Sized(s', cfg) &&
      (forall d :: HasCell(s, d) && d != h.cell ==> Get(s', d) == Get(s, d)) &&
      (Get(s, h.cell) & tfetch != 0 ==>
        s'.brkt == BrkNone && Get(s', h.cell) & tfetch == 0 &&
        Get(s', h.cell) & !tfetch == Get(s, h.cell) & !tfetch) &&
      (Get(s, h.cell) & tfetch == 0 ==> s' == s.(brk := true, brkt := h.t, brka := h.a))
  {
    var v := Get(s, h.cell);
    if HasAny(v, tfetch) {
      var w := Clear(v, tfetch);
      PutKeepsSized(s, cfg, h.cell, w);
      forall d | HasCell(s, d) && d != h.cell
        ensures Get(Put(s, h.cell, w), d) == Get(s, d)
      {
        PutFrame(s, h.cell, w, d);
      }
    }
  }

  /** With no fetch breakpoint, the step stops only for a pending interrupt the user asked to break on. */
  lemma InterruptBreak(s: BrkState, cfg: MemConfig, fetchAdr: nat, x: XAdr,
                       intrq: bool, brkirq: bool, fetch: bv8, tfetch: bv8)
    requires Sized(s, cfg)
    requires CheckBp(s, cfg, fetchAdr, x, fetch | tfetch).None?
    ensures var (stop, s') := ExecPrologue(s, cfg, false, fetchAdr, x, intrq, brkirq, fetch, tfetch);
      (stop <==> intrq && brkirq) &&
      (stop ==> s' == s.(brk := true, brkt := BrkIrq)) &&
      (!stop ==> s' == s)
  {
  }

  /** The breakpoint maps and break fields of the computer, updated in place. */
  class Breakpoints {
    var adrMap: seq<bv8>
    var ramMap: seq<bv8>
    var romMap: seq<bv8>
    var slotMap: seq<bv8>
    var slotPresent: bool
    var dummy: bv8
    var brk: bool
    var brkt: BrkType
    var brka: nat

    function State(): BrkState
      reads this
    {
      BrkState(adrMap, ramMap, romMap, slotMap, slotPresent, dummy, brk, brkt, brka)
    }

    /** Store through a cell, as `*ptr = v` does. */
    method Poke(c: Cell, v: bv8)
      requires HasCell(State(), c)
      modifies this
      ensures State() == Put(old(State()), c, v)
    {
      match c
      case AdrCell(i) => adrMap := adrMap[i := v];
      case RamCell(i) => ramMap := ramMap[i := v];
      case RomCell(i) => romMap := romMap[i := v];
      case SlotCell(i) => slotMap := slotMap[i := v];
      case Dummy => dummy := v;
    }

    /** getBrkPtr; `x` is the memory module's translation of the address. */
    method GetBrkPtr(cfg: MemConfig, x: XAdr) returns (c: Cell)
      modifies this
      ensures c == BrkPtr(old(State()), cfg, x)
      ensures State() == BrkPtrEffect(old(State()), cfg, x)
    {
      c := Dummy;
      match x.kind {
        case KindRam => c := RamCell(Masked(x.abs, cfg.ramMask));
        case KindRom => c := RomCell(Masked(x.abs, cfg.romMask));
        case KindSlot =>
          if slotPresent {
            c := SlotCell(Masked(x.abs, cfg.slotMask));
          }
        case KindOther =>
      }
      if c == Dummy {
        dummy := 0;
      }
    }

    /** setBrk */
    method SetBrk(cfg: MemConfig, x: XAdr, val: bv8)
      requires Sized(State(), cfg)
      modifies this
      ensures State() == WithBrk(old(State()), cfg, x, val)
    {
      var c := GetBrkPtr(cfg, x);
      var cur := Get(State(), c);
      Poke(c, (cur & 0xf0) | (val & 0x0f));
    }

    /** getBrk */
    method GetBrk(cfg: MemConfig, adr: nat, x: XAdr) returns (res: bv8)
      requires Sized(State(), cfg)
      modifies this
      ensures (res, State()) == BrkValue(old(State()), cfg, adr, x)
    {
      var c := GetBrkPtr(cfg, x);
      res := Get(State(), c);
      if cfg.busmask < 0x10000 {
        res := res | (adrMap[Masked(adr, cfg.busmask)] & 0x0f);
      }
    }

    /** The hit branch of the compExec prologue. */
    method RecordHit(h: BpHit, tfetch: bv8)
      requires HasCell(State(), h.cell)
      modifies this
      ensures State() == Hit(old(State()), h, tfetch)
    {
      var cur := Get(State(), h.cell);
      if HasAny(cur, tfetch) {
        ClearOneShot(h, Clear(cur, tfetch));
      } else {
        brk, brkt, brka := true, h.t, h.a;
      }
    }

    /** The one-shot case: the byte takes `v` and the type reads -1. */
    method ClearOneShot(h: BpHit, v: bv8)
      requires HasCell(State(), h.cell)
      modifies this
      ensures State() == Put(old(State()), h.cell, v).(brk := true, brkt := BrkNone, brka := h.a)
    {
      Poke(h.cell, v);
      brk, brkt, brka := true, BrkNone, h.a;
    }

    /** The breakpoint prologue of compExec; `stop` means compExec returns 0 at once. */
    method CheckFetch(cfg: MemConfig, debug: bool, fetchAdr: nat, x: XAdr,
                      intrq: bool, brkirq: bool, fetch: bv8, tfetch: bv8) returns (stop: bool)
      requires Sized(State(), cfg)
      modifies this
      ensures (stop, State()) ==
        ExecPrologue(old(State()), cfg, debug, fetchAdr, x, intrq, brkirq, fetch, tfetch)
    {
      stop := false;
      if debug { return; }
      var ch := CheckBp(State(), cfg, fetchAdr, x, fetch | tfetch);
      if ch.Some? {
        RecordHit(ch.value, tfetch);
        return true;
      }
      if intrq && brkirq {
        brk, brkt := true, BrkIrq;
        return true;
      }
    }
  }

  // ---------------------------------------------------------------------------
  // Reset

  /** The reset modes compReset distinguishes; every other mode is `ResOther`. */
  datatype ResMode = ResDefault | ResDos | Res48 | ResShadow | ResOther(code: int)

  /** The fields compReset derives from the reset mode. */
  datatype Latches = Latches(
    resbank: ResMode,
    p7FFD: bv8, dos: bool, rom: bool, cpm: bool, ext: bool,
    prt2: bv8, p1FFD: bv8, pEFF7: bv8,
    csBase: int, ssBase: int, csLimit: int)

  /** compReset, on the fields it sets itself. */
  function Reset(l: Latches, res: ResMode): Latches
  {
    var r := if res.ResDefault? then l.resbank else res;
    var p := if r.ResDos? || r.Res48? then 0x10 else 0x00;
    l.(p7FFD := p, dos := r.ResDos? || r.ResShadow?, rom := HasAny(p, 0x10),
       cpm := false, ext := false, prt2 := 0, p1FFD := 0, pEFF7 := 0,
       csBase := 0, ssBase := 0, csLimit := 0xffff)
  }

  /**
   * Reset decoding: the default mode stands for `resbank`; DOS and 48 lock the 128K
   * paging with ROM 1, DOS and SHADOW enable the DOS ROM, and the other latches clear.
   */
  lemma ResetDecode(l: Latches, res: ResMode)
    ensures var r := if res == ResDefault then l.resbank else res;
      var l' := Reset(l, res);
      (l'.p7FFD == 0x10 <==> r == ResDos || r == Res48) &&
      (l'.p7FFD == 0x00 <==> !(r == ResDos || r == Res48)) &&
      (l'.dos <==> r == ResDos || r == ResShadow) &&
      (l'.rom <==> l'.p7FFD & 0x10 != 0) &&
      (l'.rom && !l'.dos <==> r == Res48) &&
      !l'.cpm && !l'.ext && l'.prt2 == 0 && l'.p1FFD == 0 && l'.pEFF7 == 0 &&
      l'.csBase == 0 && l'.ssBase == 0 && l'.csLimit == 0xffff &&
      l'.resbank == l.resbank
  {
  }

  /** A reset depends only on the mode: resetting twice is resetting once. */
  lemma ResetIdempotent(l: Latches, res: ResMode)
    ensures Reset(Reset(l, res), res) == Reset(l, res)
    ensures l.resbank != ResDefault ==> Reset(l, ResDefault) == Reset(l, l.resbank)
  {
  }

  /** Reset as the fields the mode decodes to. */
  lemma ResetFields(l: Latches, res: ResMode, r: ResMode, p: bv8)
    requires r == (if res.ResDefault? then l.resbank else res)
    requires p == if r.ResDos? || r.Res48? then 0x10 else 0x00
    ensures Reset(l, res) == l.(p7FFD := p, dos := r.ResDos? || r.ResShadow?, rom := HasAny(p, 0x10),
      cpm := false, ext := false, prt2 := 0, p1FFD := 0, pEFF7 := 0,
      csBase := 0, ssBase := 0, csLimit := 0xffff)
  {}

  /** The computer's paging latches and the CPU segment fields compReset touches. */
  class Machine {
    var resbank: ResMode
    var p7FFD: bv8
    var dos: bool
    var rom: bool
    var cpm: bool
    var ext: bool
    var prt2: bv8
    var p1FFD: bv8
    var pEFF7: bv8
    var csBase: int
    var ssBase: int
    var csLimit: int

    function State(): Latches
      reads this
    {
      Latches(resbank, p7FFD, dos, rom, cpm, ext, prt2, p1FFD, pEFF7, csBase, ssBase, csLimit)
    }

    /** compReset, without the device resets it calls. */
    method CompReset(res: ResMode)
      modifies this
      ensures State() == Reset(old(State()), res)
    {
      var r := if res.ResDefault? then resbank else res;
      var p: bv8 := if r.ResDos? || r.Res48? then 0x10 else 0x00;
      ResetFields(State(), res, r, p);
      p7FFD, dos, rom, cpm, ext, prt2, p1FFD, pEFF7, csBase, ssBase, csLimit :=
        p, r.ResDos? || r.ResShadow?, HasAny(p, 0x10), false, false, 0, 0, 0, 0, 0, 0xffff;
      assert State() == Latches(old(resbank), p, r.ResDos? || r.ResShadow?, HasAny(p, 0x10),
        false, false, 0, 0, 0, 0, 0, 0xffff);
    }
  }

  // ---------------------------------------------------------------------------
  // ULA palette

  datatype Color = Color(r: bv8, g: bv8, b: bv8)

  /** ula_levs: the eight intensity levels of a 3-bit colour component. */
  function Level(k: bv8): bv8
  {
    var i := k & 7;
    if i == 0 then 0x00 else if i == 1 then 0x24 else if i == 2 then 0x49
    else if i == 3 then 0x6d else if i == 4 then 0x92 else if i == 5 then 0xb6
    else if i == 6 then 0xdb else 0xff
  }

  /** The level index of blue: the two low bits shifted up, bit 0 copied from bit 1. */
  function BlueIndex(p: bv8): bv8
  {
    var col := (p << 1) & 7;
    if col & 2 != 0 then col | 1 else col
  }

  /** The colour of one palette byte: green from bits 5-7, red from bits 2-4, blue from bits 0-1. */
  function UlaColor(p: bv8): Color
  {
    Color(Level((p >> 2) & 7), Level((p >> 5) & 7), Level(BlueIndex(p)))
  }

  /** The levels rise strictly from black to full intensity. */
  lemma LevelsIncrease(i: bv8, j: bv8)
    requires i < j < 8
    ensures Level(i) < Level(j)
    ensures Level(0) == 0x00 && Level(7) == 0xff
  {
  }

  /** Blue takes level 0, 3, 4 or 7: twice the two low bits, plus bit 0 again. */
  lemma BlueIndexValues(p: bv8)
    ensures BlueIndex(p) == ((p & 3) << 1) | (p & 1)
    ensures BlueIndex(p) == 0 || BlueIndex(p) == 3 || BlueIndex(p) == 4 || BlueIndex(p) == 7
  {
  }

  lemma LevelInjective(i: bv8, j: bv8)
    requires i < 8 && j < 8 && Level(i) == Level(j)
    ensures i == j
  {
    if i < j {
      LevelsIncrease(i, j);
    } else if j < i {
      LevelsIncrease(j, i);
    }
  }

  /** No two palette bytes give the same colour. */
  lemma UlaColorInjective(p: bv8, q: bv8)
    requires UlaColor(p) == UlaColor(q)
    ensures p == q
  {
    LevelInjective((p >> 2) & 7, (q >> 2) & 7);
    LevelInjective((p >> 5) & 7, (q >> 5) & 7);
    BlueIndexValues(p);
    BlueIndexValues(q);
    LevelInjective(BlueIndex(p), BlueIndex(q));
    assert p & 3 == q & 3;
  }

  /** zxSetUlaPalete: convert the 64 palette bytes; `cols[i]` is what vid_set_col receives for entry i. */
  method SetUlaPalette(pal: seq<bv8>) returns (cols: seq<Color>)
    requires |pal| >= 64
    ensures |cols| == 64
    ensures forall i :: 0 <= i < 64 ==> cols[i] == UlaColor(pal[i])
  {
    cols := [];
    var i := 0;
    while i < 64
      invariant 0 <= i <= 64
      invariant |cols| == i
      invariant forall k :: 0 <= k < i ==> cols[k] == UlaColor(pal[k])
    {
      var col := (pal[i] << 1) & 7;
      if col & 2 != 0 {
        col := col | 1;
      }
      var b := Level(col);
      col := (pal[i] >> 2) & 7;
      var r := Level(col);
      col := (pal[i] >> 5) & 7;
      var g := Level(col);
      cols := cols + [Color(r, g, b)];
      i := i + 1;
    }
  }

  // ---------------------------------------------------------------------------
  // CMOS

  /** The CMOS registers the computer handles itself, the keyboard output buffer and the version strings. */
  datatype CmosState = CmosState(adr: bv8, mode: int, outbuf: int, bcVer: seq<bv8>, blVer: seq<bv8>)

  predicate HasVersions(c: CmosState)
  {
    |c.bcVer| >= 16 && |c.blVer| >= 16
  }

  /**
   * cmsRd: at addresses 0x70 and up, the byte `adr & 15` of a version string or the keyboard
   * code, by mode; below, what the CMOS chip answers (`chip`). `xtCode` is what xt_read returns.
   */
  function CmsRead(c: CmosState, chip: bv8, xtCode: bv8): bv8
    requires HasVersions(c)
  {
    if c.adr >= 0x70 then
      if c.mode == 0 then c.bcVer[(c.adr & 0x0f) as int]
      else if c.mode == 1 then c.blVer[(c.adr & 0x0f) as int]
      else if c.mode == 2 then xtCode
      else 0xff
    else chip
  }

  /** cmsWr: the new state, and whether `val` is passed on to the CMOS chip. */
  function CmsWrite(c: CmosState, val: int): (CmosState, bool)
  {
    if c.adr == 0x0c then
      (if val % 2 == 1 then c.(outbuf := 0) else c, false)
    else if c.adr > 0x6f then (c.(mode := val), false)
    else (c, true)
  }

  /** A write above 0x6F only selects the read mode; it never reaches the chip. */
  lemma HighWriteSetsMode(c: CmosState, val: int)
    requires c.adr > 0x6f
    ensures CmsWrite(c, val) == (c.(mode := val), false)
  {
  }

  /** Selecting mode 0 or 1 makes reads at 0x70 and above return the matching version string. */
  lemma ModeThenRead(c: CmosState, val: int, chip: bv8, xtCode: bv8)
    requires HasVersions(c) && c.adr >= 0x70 && (val == 0 || val == 1)
    ensures var c' := CmsWrite(c, val).0;
      HasVersions(c') &&
      CmsRead(c', chip, xtCode) == (if val == 0 then c.bcVer else c.blVer)[(c.adr & 0x0f) as int]
  {
  }

  /** Register 0x0C is the keyboard's: bit 0 clears its output buffer, and nothing reaches the chip. */
  lemma KeyboardRegister(c: CmosState, val: int)
    requires c.adr == 0x0c
    ensures var (c', fwd) := CmsWrite(c, val);
      !fwd && c'.adr == c.adr && c'.mode == c.mode &&
      (val % 2 == 1 ==> c'.outbuf == 0) && (val % 2 == 0 ==> c' == c)
  {
  }

  /** Below 0x70 (except 0x0C) the chip handles both directions and nothing here changes. */
  lemma LowAddressesGoToChip(c: CmosState, val: int, chip: bv8, xtCode: bv8)
    requires HasVersions(c) && c.adr < 0x70 && c.adr != 0x0c
    ensures CmsWrite(c, val) == (c, true)
    ensures CmsRead(c, chip, xtCode) == chip
  {
  }

  /** The CMOS side of the computer, updated in place by cmsWr. */
  class Cmos {
    var adr: bv8
    var mode: int
    var outbuf: int
    var bcVer: seq<bv8>
    var blVer: seq<bv8>

    function State(): CmosState
      reads this
    {
      CmosState(adr, mode, outbuf, bcVer, blVer)
    }

    /** cmsWr; `forwarded` says that cmos_wr receives `val`. */
    method Write(val: int) returns (forwarded: bool)
      modifies this
      ensures (State(), forwarded) == CmsWrite(old(State()), val)
    {
      forwarded := false;
      if adr == 0x0c {
        if val % 2 == 1 {
          outbuf := 0;
        }
      } else if adr > 0x6f {
        mode := val;
      } else {
        forwarded := true;
      }
    }
  }
}
