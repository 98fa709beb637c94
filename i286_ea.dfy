// The ModRM operand of the 80286 engine (i286_get_ea, i286_rd_ea, i286_wr_ea, i286_get_reg,
// i286_set_reg). A ModRM byte holds mod in bits 6..7, the reg field in bits 3..5 and r/m in
// bits 0..2. mod 11 names the register r/m; the other mods name a memory operand whose offset
// is a register sum of r/m plus a displacement (none for mod 00, a sign-extended byte for
// mod 01, a word for mod 10), except that mod 00 with r/m 6 is a direct word address.
//
// The scratch fields the handlers pass between these helpers (regMOD, ea, tmpw, twrd) are
// collected in `Ea`: the ModRM byte, where the operand is, the operand word `tmpw` (after
// i286_get_ea the displacement, after i286_rd_ea the operand) and the reg-field operand
// `twrd`. A byte operand sits in the low half of tmpw and twrd with a zero high half, as
// the byte pairs htw:ltw and hwr:lwr do.

module I286Ea {
  import opened Common
  import opened I286

  /** Where the ModRM operand is: the register r/m (ea.reg set), or an offset in a segment. */
  datatype Loc = InReg | InMem(seg: Seg, adr: bv16)

  /** What i286_get_ea / i286_rd_ea leave for the handler: regMOD, ea, tmpw and twrd. */
  datatype Ea = Ea(modrm: bv8, loc: Loc, tmpw: bv16, twrd: bv16)

  // ---------------------------------------------------------------------------
  // Fields of the ModRM byte

  /** The mod field, kept in place (00, 40, 80 or C0). */
  function ModOf(m: bv8): bv8
  {
    m & 0xc0
  }

  /** mod 11: the operand is a register. */
  predicate IsRegMode(m: bv8)
  {
    ModOf(m) == 0xc0
  }

  /** mod 00 with r/m 6: a direct word address follows. */
  predicate Direct(m: bv8)
  {
    ModOf(m) == 0 && RmField(m) == 6
  }

  /** The r/m forms based on BP (BP+SI, BP+DI and BP itself), which address the stack segment. */
  predicate StackBased(m: bv8)
  {
    RmField(m) == 2 || RmField(m) == 3 || RmField(m) == 6
  }

  // ---------------------------------------------------------------------------
  // Registers named by the ModRM byte

  /** i286_get_reg: the register of the reg field, a byte register zero-extended. */
  function GetReg(r: Regs, m: bv8, wide: bool): bv16
  {
    if wide then Reg16(r, RegField(m)) else Widen(Reg8(r, RegField(m)))
  }

  /** i286_set_reg: the register of the reg field set to `v`, or to its low byte. */
  function SetReg(r: Regs, m: bv8, v: bv16, wide: bool): Regs
  {
    if wide then SetReg16(r, RegField(m), v) else SetReg8(r, RegField(m), Lo(v))
  }

  /** The register r/m names as an operand, a byte register zero-extended. */
  function RmOperand(r: Regs, m: bv8, wide: bool): bv16
  {
    if wide then Reg16(r, RmField(m)) else Widen(Reg8(r, RmField(m)))
  }

  /** The register r/m names set to `v`, or to its low byte (the register half of i286_wr_ea). */
  function SetRm(r: Regs, m: bv8, v: bv16, wide: bool): Regs
  {
    if wide then SetReg16(r, RmField(m), v) else SetReg8(r, RmField(m), Lo(v))
  }

  // ---------------------------------------------------------------------------
  // i286_get_ea

  /** The register sum of r/m: BX+SI, BX+DI, BP+SI, BP+DI, SI, DI, BP, BX. */
  function EaBase(r: Regs, m: bv8): bv16
  {
    var k := RmField(m);
    if k == 0 then Add16(r.bx, r.si) else if k == 1 then Add16(r.bx, r.di)
    else if k == 2 then Add16(r.bp, r.si) else if k == 3 then Add16(r.bp, r.di)
    else if k == 4 then r.si else if k == 5 then r.di else if k == 6 then r.bp else r.bx
  }

  /** The segment a register-sum form addresses: SS for the BP forms, DS for the others. */
  function SegOf(sg: Segs, m: bv8): Seg
  {
    if StackBased(m) then sg.ss else sg.ds
  }

  /** The displacement the mod field calls for: none, a sign-extended byte, or a word. */
  function Disp(s: State, m: bv8): Out<bv16>
  {
    if ModOf(m) == 0x40 then
      var (b, s1) :- Fetch(s);
      Ok(SignExtend(b), s1)
    else if ModOf(m) == 0x80 then FetchWord(s)
    else Ok(0, s)
  }

  /**
   * The operand a ModRM byte `m` names, read in state `s` just after the ModRM byte was
   * fetched: the register form, a direct address, or a register sum plus displacement.
   */
  function EaOf(s: State, m: bv8, wide: bool): Out<Ea>
  {
    var twrd := GetReg(s.r, m, wide);
    if IsRegMode(m) then Ok(Ea(m, InReg, RmOperand(s.r, m, wide), twrd), s)
    else
      var (d, s1) :- Disp(s, m);
      if Direct(m) then
        var (a, s2) :- FetchWord(s1);
        Ok(Ea(m, InMem(s.sg.ds, a), d, twrd), s2)
      else Ok(Ea(m, InMem(SegOf(s.sg, m), Add16(EaBase(s.r, m), d)), d, twrd), s1)
  }

  /** i286_get_ea: fetches the ModRM byte and resolves the operand it names. */
  function GetEa(s: State, wide: bool): Out<Ea>
  {
    var (m, s1) :- Fetch(s);
    EaOf(s1, m, wide)
  }

  // ---------------------------------------------------------------------------
  // i286_rd_ea, i286_wr_ea

  /** A memory operand: its byte, or its two bytes low first, through the data segment (override applies). */
  function ReadMem(s: State, seg: Seg, adr: bv16, wide: bool): Out<bv16>
  {
    var (lo, s1) :- Mrd(s, seg, true, adr);
    if wide then
      var (hi, s2) :- Mrd(s1, seg, true, Succ(adr));
      Ok(Word(hi, lo), s2)
    else Ok(Widen(lo), s1)
  }

  /** i286_rd_ea: i286_get_ea, then a memory operand is read into tmpw. */
  function RdEa(s: State, wide: bool): Out<Ea>
  {
    var (e, s1) :- GetEa(s, wide);
    match e.loc
    case InReg => Ok(e, s1)
    case InMem(seg, adr) =>
      var (v, s2) :- ReadMem(s1, seg, adr, wide);
      Ok(e.(tmpw := v), s2)
  }

  /** A memory operand written: the low byte at the offset, and for a word the high byte after it. */
  function WriteMem(s: State, seg: Seg, adr: bv16, v: bv16, wide: bool): Out<()>
  {
    var (_, s1) :- Mwr(s, seg, true, adr, Lo(v));
    if wide then Mwr(s1, seg, true, Succ(adr), Hi(v)) else Done(s1)
  }

  /** i286_wr_ea: the result goes to the register r/m or to the memory operand. */
  function WrEa(s: State, e: Ea, v: bv16, wide: bool): Out<()>
  {
    match e.loc
    case InReg => Done(s.(r := SetRm(s.r, e.modrm, v, wide)))
    case InMem(seg, adr) => WriteMem(s, seg, adr, v, wide)
  }

  /** The value at an operand location in a state, without any check: the reference for RdEa and WrEa. */
  function ReadLoc(s: State, e: Ea, wide: bool): bv16
  {
    match e.loc
    case InReg => RmOperand(s.r, e.modrm, wide)
    case InMem(seg, adr) =>
      var g := Eff(s, seg, true);
      var lo := Peek(s.mem, I286.At(g, adr));
      if wide then Word(Peek(s.mem, I286.At(g, Succ(adr))), lo) else Widen(lo)
  }

  /** `v` as an operand of the width: a byte result keeps only its low byte. */
  function Sized(v: bv16, wide: bool): bv16
  {
    if wide then v else Widen(Lo(v))
  }
}

// Properties of the ModRM operand.
module I286EaFacts {
  import opened Common
  import opened I286
  import opened I286Ea
  import I286Facts

  // ---------------------------------------------------------------------------
  // The four shapes of an operand

  /** mod 11 names the register r/m: no memory access, no byte fetched after the ModRM byte, nothing changed. */
  lemma RegisterForm(s: State, m: bv8, wide: bool)
    requires IsRegMode(m)
    ensures EaOf(s, m, wide) == Ok(Ea(m, InReg, RmOperand(s.r, m, wide), GetReg(s.r, m, wide)), s)
  {
  }

  /** mod 01: the byte after the ModRM byte, sign-extended, is added to the register sum of r/m. */
  lemma ByteDisplacement(s: State, m: bv8, wide: bool)
    requires ModOf(m) == 0x40 && Fetch(s).Ok?
    ensures var (b, s1) := Fetch(s).Extract();
      EaOf(s, m, wide) == Ok(Ea(m, InMem(SegOf(s.sg, m), Add16(EaBase(s.r, m), SignExtend(b))), SignExtend(b), GetReg(s.r, m, wide)), s1)
  {
  }

  /** mod 10: the word after the ModRM byte is added to the register sum of r/m. */
  lemma WordDisplacement(s: State, m: bv8, wide: bool)
    requires ModOf(m) == 0x80 && FetchWord(s).Ok?
    ensures var (d, s1) := FetchWord(s).Extract();
      EaOf(s, m, wide) == Ok(Ea(m, InMem(SegOf(s.sg, m), Add16(EaBase(s.r, m), d)), d, GetReg(s.r, m, wide)), s1)
  {
  }

  /** mod 00 with r/m 6: the word after the ModRM byte is the offset itself, in DS. */
  lemma DirectAddress(s: State, m: bv8, wide: bool)
    requires Direct(m) && FetchWord(s).Ok?
    ensures var (a, s1) := FetchWord(s).Extract();
      EaOf(s, m, wide) == Ok(Ea(m, InMem(s.sg.ds, a), 0, GetReg(s.r, m, wide)), s1)
  {
  }

  /** mod 00 otherwise: the register sum alone, with nothing fetched. */
  lemma NoDisplacement(s: State, m: bv8, wide: bool)
    requires ModOf(m) == 0 && !Direct(m)
    ensures EaOf(s, m, wide) == Ok(Ea(m, InMem(SegOf(s.sg, m), EaBase(s.r, m)), 0, GetReg(s.r, m, wide)), s)
  {
  }

  /** The default segment: SS for r/m 2 and 3, and for r/m 6 when mod is not 00; DS for every other memory form. */
  lemma DefaultSegment(s: State, m: bv8, wide: bool)
    requires !IsRegMode(m) && EaOf(s, m, wide).Ok?
    ensures EaOf(s, m, wide).val.loc.InMem?
    ensures var k := RmField(m);
      EaOf(s, m, wide).val.loc.seg == if k == 2 || k == 3 || (k == 6 && ModOf(m) != 0) then s.sg.ss else s.sg.ds
  {
  }

  /** The operand resolved by i286_get_ea is that of the ModRM byte at CS:IP, read after it. */
  lemma GetEaFetchesModRm(s: State, wide: bool)
    requires GetEa(s, wide).Ok?
    ensures Fetch(s).Ok?
    ensures GetEa(s, wide) == EaOf(Fetch(s).st, Fetch(s).val, wide)
    ensures GetEa(s, wide).val.modrm == Fetch(s).val
  {
  }

  // ---------------------------------------------------------------------------
  // Registers: the reg field and the byte halves

  /** Setting the register of the reg field and reading it back gives the value, cut to a byte for a byte register. */
  lemma RegRoundTrip(r: Regs, m: bv8, v: bv16, wide: bool)
    ensures GetReg(SetReg(r, m, v, wide), m, wide) == Sized(v, wide)
  {
    WordHalves(Hi(r.ax), Lo(v));
    WordHalves(Lo(r.ax), Lo(v));
    WordHalves(Hi(r.cx), Lo(v));
    WordHalves(Hi(r.dx), Lo(v));
    WordHalves(Hi(r.bx), Lo(v));
    ByteRegReads(r, RegField(m), Lo(v));
  }

  /** Writing a byte register reads back as the byte. */
  lemma ByteRegReads(r: Regs, n: bv8, v: bv8)
    ensures Reg8(SetReg8(r, n, v), n) == v
  {
    var k := n & 7;
    if k < 4 {
      var w := Reg16(r, k);
      WordHalves(Hi(w), v);
    } else {
      var w := Reg16(r, k - 4);
      WordHalves(v, Lo(w));
    }
  }

  /** A byte register's write leaves every other byte register alone, the other half of the same word included. */
  lemma ByteRegOthers(r: Regs, n: bv8, v: bv8, k: bv8)
    requires k & 7 != n & 7
    ensures Reg8(SetReg8(r, n, v), k) == Reg8(r, k)
  {
    if n & 7 < 4 {
      LowByteRegOthers(r, n, v, k);
    } else {
      HighByteRegOthers(r, n, v, k);
    }
  }

  lemma LowByteRegOthers(r: Regs, n: bv8, v: bv8, k: bv8)
    requires k & 7 != n & 7 && n & 7 < 4
    ensures Reg8(SetReg8(r, n, v), k) == Reg8(r, k)
  {
    var w := Reg16(r, n & 7);
    assert SetReg8(r, n, v) == SetReg16(r, n, Word(Hi(w), v));
    WordHalves(Hi(w), v);
  }

  lemma HighByteRegOthers(r: Regs, n: bv8, v: bv8, k: bv8)
    requires k & 7 != n & 7 && n & 7 >= 4
    ensures Reg8(SetReg8(r, n, v), k) == Reg8(r, k)
  {
    var w := Reg16(r, n & 3);
    assert SetReg8(r, n, v) == SetReg16(r, n & 3, Word(v, Lo(w)));
    WordHalves(v, Lo(w));
  }

  /** A word register's write leaves the other word registers alone. */
  lemma WordRegOthers(r: Regs, n: bv8, v: bv16, k: bv8)
    requires k & 7 != n & 7
    ensures Reg16(SetReg16(r, n, v), k) == Reg16(r, k)
  {
  }

  /** AH..BH are the high halves of AX..BX: writing AL..BL keeps the high byte of the word, AH..BH its low byte. */
  lemma ByteHalves(r: Regs, n: bv8, v: bv8)
    ensures var k := n & 7; var w := Reg16(SetReg8(r, n, v), k & 3);
      if k < 4 then w == Word(Hi(Reg16(r, k)), v) else w == Word(v, Lo(Reg16(r, k & 3)))
  {
  }

  // ---------------------------------------------------------------------------
  // Reading and writing the operand

  /** Reading an operand yields ReadLoc of the location i286_get_ea resolved, and changes nothing but the clock. */
  lemma RdEaReads(s: State, wide: bool)
    requires RdEa(s, wide).Ok?
    ensures GetEa(s, wide).Ok?
    ensures var (e, s1) := GetEa(s, wide).Extract(); var (e2, s2) := RdEa(s, wide).Extract();
      e2 == e.(tmpw := ReadLoc(s1, e, wide)) && s2 == s1.(t := s2.t)
  {
    var (e, s1) := GetEa(s, wide).Extract();
    match e.loc
    case InReg =>
    case InMem(seg, adr) => ReadMemReads(s1, seg, adr, wide);
  }

  /** A memory read that completes yields the bytes at the offset (override applied) and changes only the clock. */
  lemma ReadMemReads(s: State, seg: Seg, adr: bv16, wide: bool)
    requires ReadMem(s, seg, adr, wide).Ok?
    ensures ReadMem(s, seg, adr, wide).val == ReadLoc(s, Ea(0, InMem(seg, adr), 0, 0), wide)
    ensures ReadMem(s, seg, adr, wide).st == s.(t := ReadMem(s, seg, adr, wide).st.t)
  {
    I286Facts.MrdDone(s, seg, true, adr);
    if wide {
      var s1 := Mrd(s, seg, true, adr).st;
      I286Facts.MrdDone(s1, seg, true, Succ(adr));
    }
  }

  /** What WrEa stores is what is then found at the location: the round trip of WrEa and ReadLoc. */
  lemma WriteThenRead(s: State, e: Ea, v: bv16, wide: bool)
    requires WrEa(s, e, v, wide).Ok?
    ensures ReadLoc(WrEa(s, e, v, wide).st, e, wide) == Sized(v, wide)
  {
    match e.loc
    case InReg =>
      var r := s.r;
      if wide {
      } else {
        ByteRegReads(r, RmField(e.modrm), Lo(v));
      }
    case InMem(seg, adr) => WriteMemReads(s, seg, adr, v, wide);
  }

  /** A memory write that completes leaves the value's bytes at the offset and its successor. */
  lemma WriteMemReads(s: State, seg: Seg, adr: bv16, v: bv16, wide: bool)
    requires WriteMem(s, seg, adr, v, wide).Ok?
    ensures ReadLoc(WriteMem(s, seg, adr, v, wide).st, Ea(0, InMem(seg, adr), 0, 0), wide) == Sized(v, wide)
    ensures WriteMem(s, seg, adr, v, wide).st.ovr == s.ovr
  {
    I286Facts.MwrDone(s, seg, true, adr, Lo(v));
    var s1 := Mwr(s, seg, true, adr, Lo(v)).st;
    if wide {
      I286Facts.MwrDone(s1, seg, true, Succ(adr), Hi(v));
      I286Facts.NeighbourBytes(Eff(s, seg, true), adr);
      WordOfHalves(v);
    }
  }

  /** Writing a register operand changes the registers only, and no register but r/m. */
  lemma WrEaRegister(s: State, e: Ea, v: bv16, wide: bool)
    requires e.loc.InReg?
    ensures WrEa(s, e, v, wide) == Done(s.(r := SetRm(s.r, e.modrm, v, wide)))
  {
  }
}
