// The K1801VM1 operand addressing: the eight octal addressing modes of an
// operand field (`pdp_adr`), fetching an operand (`pdp_src`) and writing a
// result back through the address latch WZ (`pdp_wres`, `pdp_wresb`,
// `pdp_dst`).  An operand field is six bits: the mode in bits 3..5 and the
// register in bits 0..2.

module Pdp11Addr {
  import opened Common
  import opened Pdp11

  /** The addressing mode of an operand field, 0..7. */
  function ModeOf(code: bv16): (m: nat)
    ensures m < 8
  {
    var k := Mode(code);
    if k == 0x00 then 0 else if k == 0x08 then 1 else if k == 0x10 then 2 else if k == 0x18 then 3
    else if k == 0x20 then 4 else if k == 0x28 then 5 else if k == 0x30 then 6 else 7
  }

  /** The autoincrement / autodecrement step: 1 for a byte operand, except that SP and PC always step by a word. */
  function StepOf(code: bv16, byte: bool): (d: bv16)
    ensures d == 1 || d == 2
  {
    if byte && RegOf(code) < 6 then 1 else 2
  }

  /** `x` moved up by the step of the field (autoincrement). */
  function StepUp(x: bv16, code: bv16, byte: bool): bv16
  {
    x + StepOf(code, byte)
  }

  /** `x` moved down by the step of the field (autodecrement). */
  function StepDown(x: bv16, code: bv16, byte: bool): bv16
  {
    x - StepOf(code, byte)
  }

  /** An index-mode address: the offset word plus the register, wrapping at 16 bits. */
  function Indexed(off: bv16, x: bv16): bv16
  {
    off + x
  }

  /** `s` with register `n` set to `v`. */
  function SetReg(s: State, n: RegNo, v: bv16): State
  {
    s.(r := s.r[n := v])
  }

  /** `s` with `k` cycles more on the clock. */
  function Tick(s: State, k: nat): State
  {
    s.(t := s.t + k)
  }

  /** The address latch WZ loaded with `v`. */
  function SetWz(s: State, v: bv16): State
  {
    s.(lat := s.lat.(wz := v))
  }

  /** What resolving an operand field yields: the address (None in register mode), the registers after it and the cycles it took. */
  datatype Resolved = Resolved(adr: Option<bv16>, r: Regs, cycles: nat)

  /**
   * `pdp_adr`, the mode table: the address an operand field names, the
   * registers the mode steps and the cycles it takes.  The index modes read
   * their offset from the word at PC and step PC past it before adding the
   * register, so `E(PC)` is relative to the next word.
   */
  function Resolve(s: State, code: bv16, byte: bool): Resolved
  {
    var n := RegOf(code);
    var m := ModeOf(code);
    var rs := s.r;
    if m == 0 then
      Resolved(None, rs, 0)
    else if m == 1 then
      Resolved(Some(rs[n]), rs, 13)
    else if m == 2 then
      Resolved(Some(rs[n]), rs[n := StepUp(rs[n], code, byte)], 12)
    else if m == 3 then
      Resolved(Some(Rd(s, rs[n])), rs[n := Next(rs[n])], 19)
    else if m == 4 then
      var a := StepDown(rs[n], code, byte);
      Resolved(Some(a), rs[n := a], 13)
    else if m == 5 then
      var a := Prev(rs[n]);
      Resolved(Some(Rd(s, a)), rs[n := a], 20)
    else
      var off := Rd(s, rs[7]);
      var rs1 := rs[7 := Next(rs[7])];
      var a := Indexed(off, rs1[n]);
      if m == 6 then Resolved(Some(a), rs1, 19) else Resolved(Some(Rd(s, a)), rs1, 26)
  }

  /** `pdp_adr` on the whole state: only the registers and the clock change. */
  function Adr(s: State, code: bv16, byte: bool): (Option<bv16>, State)
  {
    var x := Resolve(s, code, byte);
    (x.adr, s.(r := x.r, t := s.t + x.cycles))
  }

  /**
   * `pdp_src`: the operand a field names.  In register mode it is the
   * register (its low byte for a byte operand); otherwise the address goes
   * to WZ and the word, or the addressed byte, is read.
   */
  function Src(s: State, code: bv16, byte: bool): (bv16, State)
  {
    var (a, s1) := Adr(s, code, byte);
    match a
    case None =>
      var v := s1.r[RegOf(code)];
      (if byte then v & 0xff else v, s1)
    case Some(adr) =>
      var s2 := SetWz(s1, adr);
      (if byte then Rdb(s2, adr) else Rd(s2, adr), s2)
  }

  /** `pdp_wres`: a word result goes to the address in WZ, or in register mode to the register. */
  function Wres(s: State, code: bv16, v: bv16): State
  {
    if ModeOf(code) != 0 then Wr(s, s.lat.wz, v) else SetReg(s, RegOf(code), v)
  }

  /** `pdp_wresb`: a byte result goes to the byte at WZ, or in register mode to the low byte of the register. */
  function Wresb(s: State, code: bv16, v: bv8): State
  {
    if ModeOf(code) != 0 then Wrb(s, s.lat.wz, v)
    else SetReg(s, RegOf(code), Word(Hi(s.r[RegOf(code)]), v))
  }

  /** `pdp_dst`: resolves the field once, latches the address (FFFF in register mode) and writes the result. */
  function Dst(s: State, v: bv16, code: bv16, byte: bool): State
  {
    var (a, s1) := Adr(s, code, byte);
    var s2 := SetWz(s1, match a case None => 0xffff case Some(adr) => adr);
    if byte then Wresb(s2, code, Lo(v)) else Wres(s2, code, v)
  }

  // ---------------------------------------------------------------------
  // Properties of the addressing modes

  /** Register mode names no address and changes no register, no memory and no cycle count. */
  lemma RegisterMode(s: State, code: bv16, byte: bool)
    requires ModeOf(code) == 0
    ensures Adr(s, code, byte) == (None, s)
  {
  }

  /** Every other mode names an address. */
  lemma MemoryModes(s: State, code: bv16, byte: bool)
    requires ModeOf(code) != 0
    ensures Adr(s, code, byte).0.Some?
  {
  }

  /** `(Rn)+` uses Rn and then adds 1 for a byte operand in R0..R5 and 2 otherwise; no other register changes. */
  lemma Autoincrement(s: State, code: bv16, byte: bool)
    requires ModeOf(code) == 2
    ensures var (a, s1) := Adr(s, code, byte); var n := RegOf(code);
      a == Some(s.r[n]) && s1.r == s.r[n := s.r[n] + (if byte && n < 6 then 1 else 2)]
  {
  }

  /** `-(Rn)` first subtracts the step from Rn and then uses it. */
  lemma Autodecrement(s: State, code: bv16, byte: bool)
    requires ModeOf(code) == 4
    ensures var (a, s1) := Adr(s, code, byte); var n := RegOf(code);
      a == Some(s1.r[n]) && s1.r == s.r[n := s.r[n] - (if byte && n < 6 then 1 else 2)]
  {
  }

  /** SP and PC step by a whole word even for a byte operand. */
  lemma StackAndPcStepWords(code: bv16)
    requires RegOf(code) >= 6
    ensures StepOf(code, true) == 2
  {
  }

  /** The deferred autoincrement `@(Rn)+` reads the address from the word Rn points at, and always steps Rn by 2. */
  lemma DeferredAutoincrement(s: State, code: bv16, byte: bool)
    requires ModeOf(code) == 3
    ensures var (a, s1) := Adr(s, code, byte); var n := RegOf(code);
      a == Some(Rd(s, s.r[n])) && s1.r == s.r[n := Next(s.r[n])]
  {
  }

  /** The index mode `E(Rn)` adds the word at PC to Rn, and moves PC past that word. */
  lemma IndexMode(s: State, code: bv16, byte: bool)
    requires ModeOf(code) == 6
    ensures var (a, s1) := Adr(s, code, byte); var n := RegOf(code);
      s1.r == s.r[7 := Next(s.r[7])] && a == Some(Rd(s, s.r[7]) + s1.r[n])
  {
  }

  /** Resolving an address touches only the registers and the clock: memory, PSW, latches, control and timer stay. */
  lemma AdrFrame(s: State, code: bv16, byte: bool)
    ensures var s1 := Adr(s, code, byte).1;
      s1.mem == s.mem && s1.f == s.f && s1.lat == s.lat && s1.ctl == s.ctl && s1.timer == s.timer && s1.t >= s.t
  {
  }

  /** A spare register of the step, other than the one the mode names and PC, keeps its value. */
  lemma AdrKeepsOthers(s: State, code: bv16, byte: bool, k: RegNo)
    requires k != RegOf(code) && k != 7
    ensures Adr(s, code, byte).1.r[k] == s.r[k]
  {
  }

  /** Fetching an operand changes neither memory nor the PSW. */
  lemma SrcFrame(s: State, code: bv16, byte: bool)
    ensures Src(s, code, byte).1.mem == s.mem && Src(s, code, byte).1.f == s.f
  {
  }

  /** Fetching a memory operand latches its address in WZ. */
  lemma SrcLatches(s: State, code: bv16, byte: bool, x: bv16)
    requires Adr(s, code, byte).0 == Some(x)
    ensures Src(s, code, byte).1.lat.wz == x
  {
  }

  /** Storing a result leaves the PSW alone. */
  lemma DstKeepsPsw(s: State, v: bv16, code: bv16, byte: bool)
    ensures Dst(s, v, code, byte).f == s.f
  {
  }

  // ---------------------------------------------------------------------
  // Write-back through WZ

  /**
   * Fetching an operand and writing a result back resolves the field once:
   * the result lands at the address the fetch used, and the registers are
   * those after the fetch, so an autoincrement happens once.
   */
  lemma WriteBackOnce(s: State, code: bv16, v: bv16)
    requires ModeOf(code) != 0
    ensures var (x, s1) := Src(s, code, false); var s2 := Wres(s1, code, v);
      s2.r == Adr(s, code, false).1.r && Rd(s2, Adr(s, code, false).0.value) == v
  {
    var (a, s1) := Adr(s, code, false);
    WordRoundTrip(Src(s, code, false).1, a.value, v, a.value);
  }

  /** The same for a byte result: the byte lands at the address the fetch used. */
  lemma ByteWriteBackOnce(s: State, code: bv16, v: bv8)
    requires ModeOf(code) != 0
    ensures var (x, s1) := Src(s, code, true); var s2 := Wresb(s1, code, v);
      s2.r == Adr(s, code, true).1.r && Rdb(s2, Adr(s, code, true).0.value) == v as bv16
  {
    var (a, s1) := Adr(s, code, true);
    ByteRoundTrip(Src(s, code, true).1, a.value, v);
  }

  /** A byte result written to a register replaces its low byte and keeps its high byte. */
  lemma ByteToRegister(s: State, code: bv16, v: bv8)
    requires ModeOf(code) == 0
    ensures var n := RegOf(code);
      Hi(Wresb(s, code, v).r[n]) == Hi(s.r[n]) && Lo(Wresb(s, code, v).r[n]) == v
  {
    WordHalves(Hi(s.r[RegOf(code)]), v);
  }

  /** In register mode a word operand is the register and its write-back replaces it. */
  lemma RegisterOperand(s: State, code: bv16, v: bv16)
    requires ModeOf(code) == 0
    ensures Src(s, code, false) == (s.r[RegOf(code)], s)
    ensures Wres(s, code, v) == s.(r := s.r[RegOf(code) := v])
  {
  }
}
