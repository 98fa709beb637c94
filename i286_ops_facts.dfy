// What the opcode handlers of the 80286 engine do, stated about the handler functions of
// I286Ops: the REP templates, the stack round trips, the privileged flags of POPF, CLI and
// STI, HLT, the operand forms that are undefined, and the two handlers whose code differs
// from what they evidently mean (8F with a register operand, the cycles of i286_rotsh16).

module I286OpsFacts {
  import opened Common
  import opened I286
  import opened I286Facts
  import opened I286Ea
  import opened I286EaFacts
  import opened I286Alu
  import opened I286AluFacts
  import opened I286Ops

  // ---------------------------------------------------------------------------
  // Bus accesses keep the registers

  lemma MrdKeeps(s: State, seg: Seg, rpl: bool, adr: bv16)
    requires Mrd(s, seg, rpl, adr).Ok?
    ensures var t := Mrd(s, seg, rpl, adr).st; t.r == s.r && t.f == s.f && t.sg == s.sg && t.ctl == s.ctl && t.mem == s.mem
  {
  }

  lemma MwrKeeps(s: State, seg: Seg, rpl: bool, adr: bv16, v: bv8)
    requires Mwr(s, seg, rpl, adr, v).Ok?
    ensures var t := Mwr(s, seg, rpl, adr, v).st; t.r == s.r && t.f == s.f && t.sg == s.sg && t.ctl == s.ctl
  {
    var a := I286.At(Eff(s, seg, rpl), adr);
    if !s.sys.prot {
      assert Mwr(s, seg, rpl, adr, v).st == s.(mem := s.mem[a := v], t := s.t + 1);
    } else {
      assert Mwr(s, seg, rpl, adr, v).st == s.(mem := s.mem[a := v]);
    }
  }

  lemma ReadSourceKeeps(s: State, wide: bool)
    requires ReadSource(s, wide).Ok?
    ensures var t := ReadSource(s, wide).st; t.r == s.r && t.f == s.f && t.sg == s.sg && t.ctl == s.ctl
  {
    MrdKeeps(s, s.sg.ds, true, s.r.si);
    if wide {
      MrdKeeps(Mrd(s, s.sg.ds, true, s.r.si).st, s.sg.ds, true, Succ(s.r.si));
    }
  }

  lemma ReadDestKeeps(s: State, wide: bool)
    requires ReadDest(s, wide).Ok?
    ensures var t := ReadDest(s, wide).st; t.r == s.r && t.f == s.f && t.sg == s.sg && t.ctl == s.ctl
  {
    MrdKeeps(s, s.sg.es, false, s.r.di);
    if wide {
      MrdKeeps(Mrd(s, s.sg.es, false, s.r.di).st, s.sg.es, false, Succ(s.r.di));
    }
  }

  lemma WriteDestKeeps(s: State, v: bv16, wide: bool)
    requires WriteDest(s, v, wide).Ok?
    ensures var t := WriteDest(s, v, wide).st; t.r == s.r && t.f == s.f && t.sg == s.sg && t.ctl == s.ctl
  {
    MwrKeeps(s, s.sg.es, false, s.r.di, Lo(v));
    if wide {
      MwrKeeps(Mwr(s, s.sg.es, false, s.r.di, Lo(v)).st, s.sg.es, false, Succ(s.r.di), Hi(v));
    }
  }

  // ---------------------------------------------------------------------------
  // String operations and the REP templates

  /**
   * One iteration of a string operation changes no register but SI and DI, and no control
   * state: in particular CX and IP are left to the REP template.
   */
  lemma StringStepKeeps(env: Env, s: State, op: StrOp)
    requires StringStep(env, s, op).Ok?
    ensures var t := StringStep(env, s, op).st;
      t.r.(si := s.r.si, di := s.r.di) == s.r && t.ctl == s.ctl && t.sg == s.sg
  {
    var wide := WordOp(op);
    match op
    case Insb | Insw => WriteDestKeeps(s, env.ird(s.r.dx), wide);
    case Outsb | Outsw => ReadSourceKeeps(s, wide);
    case Movsb | Movsw =>
      ReadSourceKeeps(s, wide);
      var o := ReadSource(s, wide);
      WriteDestKeeps(o.st, o.val, wide);
    case Cmpsb | Cmpsw =>
      ReadSourceKeeps(s, wide);
      ReadDestKeeps(ReadSource(s, wide).st, wide);
    case Stosb | Stosw => WriteDestKeeps(s, s.r.ax, wide);
    case Scasb | Scasw => ReadDestKeeps(s, wide);
  }

  /** Without a REP prefix both templates run the operation once. */
  lemma UnprefixedRunsOnce(env: Env, s: State, op: StrOp)
    requires s.ctl.rep == RepNone
    ensures Repeat(env, s, op) == StringStep(env, s, op) && RepeatFz(env, s, op) == StringStep(env, s, op)
  {
  }

  /** With a REP prefix and CX = 0 nothing at all happens. */
  lemma PrefixedIdleOnZeroCount(env: Env, s: State, op: StrOp)
    requires s.ctl.rep != RepNone && s.r.cx == 0
    ensures Repeat(env, s, op) == Done(s) && RepeatFz(env, s, op) == Done(s)
  {
  }

  /**
   * i286_rep with a prefix and a count: the iteration's result with CX one less than before,
   * and IP back at the start of the instruction exactly when that count is not zero.
   */
  lemma RepeatIteration(env: Env, s: State, op: StrOp, s1: State)
    requires s.ctl.rep != RepNone && s.r.cx != 0
    requires StringStep(env, s, op) == Ok((), s1)
    ensures Repeat(env, s, op) ==
      Done(s1.(r := s1.r.(cx := Pred(s.r.cx), ip := if Pred(s.r.cx) != 0 then s.ctl.oldpc else s.r.ip)))
  {
    StringStepKeeps(env, s, op);
  }

  /**
   * i286_rep_fz with a prefix and a count: the iteration runs with CX already one less, and
   * the instruction is repeated exactly when that count is not zero and Z is set under REPZ,
   * clear under REPNZ.
   */
  lemma RepeatFzIteration(env: Env, s: State, op: StrOp, s1: State)
    requires s.ctl.rep != RepNone && s.r.cx != 0
    requires StringStep(env, s.(r := s.r.(cx := Pred(s.r.cx))), op) == Ok((), s1)
    ensures s1.r.cx == Pred(s.r.cx)
    ensures var again := Pred(s.r.cx) != 0 && (if s.ctl.rep == RepZ then s1.f.z else !s1.f.z);
      RepeatFz(env, s, op) == Done(if again then s1.(r := s1.r.(ip := s.ctl.oldpc)) else s1)
  {
    StringStepKeeps(env, s.(r := s.r.(cx := Pred(s.r.cx))), op);
  }

  /** The word forms refuse an index of FFFF before any iteration: a zero is pushed and #GP raised. */
  lemma StringIndexAtTop(env: Env, s: State, op: StrOp, s1: State)
    requires IndexAtTop(s, op) && Push(s, 0) == Ok((), s1)
    ensures StringOp(env, s, op) == Stop(Throw(IntGP, None), s1)
  {
  }

  /** Moving an index register one element and then one element back returns it. */
  lemma AdvanceBack(x: bv16, down: bool, wide: bool)
    ensures Advance(Advance(x, down, wide), !down, wide) == x
  {
    if wide {
      assert Add16(Sub16(x, 2), 2) == x && Sub16(Add16(x, 2), 2) == x;
    } else {
      SuccPred(x);
    }
  }

  // ---------------------------------------------------------------------------
  // Jumps

  /** i286_jr: a taken jump adds the sign-extended displacement to IP and 4 cycles; an untaken one only skips it. */
  lemma JumpTaken(s: State, b: bv8, s1: State, cnd: bool)
    requires Fetch(s) == Ok(b, s1)
    ensures Jr(s, cnd) == if cnd then Done(s1.(r := s1.r.(ip := Add16(s1.r.ip, SignExtend(b))), t := s1.t + 4))
                          else Done(s1)
  {
  }

  /** LOOP falls through, with CX = 0, exactly when CX was 1; JCXZ keeps CX. */
  lemma LoopCount(s: State, b: bv8, s1: State)
    requires Fetch(s.(r := s.r.(cx := Pred(s.r.cx)))) == Ok(b, s1)
    ensures LoopOp(s, LoopCx) == Jr(s.(r := s.r.(cx := Pred(s.r.cx))), s.r.cx != 1)
    ensures s1.r.cx == Pred(s.r.cx)
  {
    SuccPred(s.r.cx);
  }

  // ---------------------------------------------------------------------------
  // The comparing forms store nothing

  /** CMP ea, reg (38, 39) changes only the flags of the operand read. */
  lemma CmpToEaStoresNothing(env: Env, s: State, wide: bool, e: Ea, s1: State)
    requires RdEa(s, wide) == Ok(e, s1)
    ensures AluToEa(env, s, CmpOp, wide) == Done(s1.(f := Alu(env, SubOp, s1.f, e.tmpw, e.twrd, wide).1))
  {
    CmpIsSub(env, s1.f, e.tmpw, e.twrd, wide);
  }

  /** Group 80..83 with reg field 7 compares: only the flags change, as SUB would set them. */
  lemma Group1CmpStoresNothing(env: Env, s: State, k: ImmKind, e: Ea, s1: State, b: bv16, s2: State)
    requires RdEa(s, k != ImmByte) == Ok(e, s1) && Immediate(s1, k) == Ok(b, s2)
    requires RegField(e.modrm) == 7
    ensures Group1(env, s, k) == Done(s2.(f := Alu(env, SubOp, s2.f, e.tmpw, b, k != ImmByte).1))
  {
    CmpIsSub(env, s2.f, e.tmpw, b, k != ImmByte);
  }

  // ---------------------------------------------------------------------------
  // Stack round trips

  lemma SetReg16Same(r: Regs, n: bv8)
    ensures SetReg16(r, n, Reg16(r, n)) == r
  {
  }

  /**
   * POP reg after PUSH reg restores every register, SP included (PUSH SP pushes the SP it
   * started with, so POP SP lands on that value).
   */
  lemma PushPopReg(s: State, n: bv8, s1: State)
    requires s.sys.prot || !PE(s)
    requires PushReg(s, n) == Ok((), s1)
    ensures PopReg(s1, n).Ok? && PopReg(s1, n).st.r == s.r
  {
    PopAfterPush(s, Reg16(s.r, n));
    SetReg16Same(s.r, n);
  }

  /**
   * In real mode a segment register holds the paragraph its selector names; popping what
   * PUSH sreg pushed gives back the same segment register and every general register.
   */
  lemma PushPopSeg(s: State, n: SegName, s1: State)
    requires !PE(s) && n != CS && SegReg(s.sg, n) == RealSeg(SegReg(s.sg, n).idx)
    requires PushSeg(s, n) == Ok((), s1)
    ensures PopSeg(s1, n).Ok? && PopSeg(s1, n).st.r == s.r && PopSeg(s1, n).st.sg == s.sg
  {
    var w := SegReg(s.sg, n).idx;
    PopAfterPush(s, w);
    PushLayout(s, w);
    var p := Pop(s1);
    PopKeepsSegs(s1);
    RealModeCashSeg(p.st, w);
    assert CashSeg(p.st, w) == Ok(RealSeg(w), p.st);
    SetSegRegSame(s.sg, n);
    assert PopSeg(s1, n) == Done(p.st.(sg := SetSegReg(s.sg, n, RealSeg(w))));
  }

  /** A completed pop changes neither the segment registers nor the system registers. */
  lemma PopKeepsSegs(t: State)
    requires Pop(t).Ok?
    ensures Pop(t).st.sg == t.sg && Pop(t).st.sys == t.sys
  {
    var sp := t.r.sp;
    var t1 := Mrd(t, t.sg.ss, false, sp).st;
    MrdKeeps(t, t.sg.ss, false, sp);
    MrdKeeps(t1, t1.sg.ss, false, Succ(sp));
  }

  /** Storing a segment register's own value back changes nothing. */
  lemma SetSegRegSame(sg: Segs, n: SegName)
    ensures SetSegReg(sg, n, SegReg(sg, n)) == sg
  {}

  // ---------------------------------------------------------------------------
  // 8F POP ea

  /** The 8F store writes the popped word where the operand names, the r/m register included. */
  lemma PopStoreWrites(s: State, e: Ea, w: bv16)
    requires PopStore(s, e, w).Ok?
    ensures ReadLoc(PopStore(s, e, w).st, e, true) == w
  {
    WriteThenRead(s, e, w, true);
  }

  /**
   * As written, 8F with a register operand sets the reg-field register: POP CX (8F C1)
   * leaves CX untouched and overwrites AX instead.
   */
  lemma PopRegisterFormAsWritten(s: State, e: Ea, w: bv16)
    requires e.loc == InReg && e.modrm == 0xc1 && s.r.cx != w
    ensures PopStoreAsWritten(s, e, w) == Done(s.(r := s.r.(ax := w)))
    ensures ReadLoc(PopStoreAsWritten(s, e, w).st, e, true) != w
    ensures ReadLoc(PopStore(s, e, w).st, e, true) == w
  {
  }

  // ---------------------------------------------------------------------------
  // The shift group

  /** A count whose low five bits are zero leaves the operand, the flags and the cycle count as they are. */
  lemma ShiftByZero(env: Env, s: State, e: Ea, cnt: bv8)
    requires cnt & 0x1f == 0
    ensures RotSh8(env, s, e, cnt) == (Lo(e.tmpw), s) && RotSh16(env, s, e, cnt) == (e.tmpw, s)
  {
  }

  /**
   * Two shifts of one kind, the second applied to what the first produced, are one shift by
   * the sum of their counts, cycles included, as long as the repeats stay below 32.
   */
  lemma ShiftsCompose(env: Env, s: State, e: Ea, c1: bv8, c2: bv8)
    requires ShiftCount(c1) + ShiftCount(c2) < 32
    ensures var (v1, s1) := RotSh8(env, s, e, c1);
      RotSh8(env, s1, e.(tmpw := v1 as bv16), c2) == RotSh8(env, s, e, c1 + c2)
    ensures var (w1, s1) := RotSh16(env, s, e, c1);
      RotSh16(env, s1, e.(tmpw := w1), c2) == RotSh16(env, s, e, c1 + c2)
  {
    CountsAdd(c1, c2);
    ByteShiftsCompose(env, s, e, c1, c2);
    WordShiftsCompose(env, s, e, c1, c2);
  }

  lemma ByteShiftsCompose(env: Env, s: State, e: Ea, c1: bv8, c2: bv8)
    requires ShiftCount(c1 + c2) == ShiftCount(c1) + ShiftCount(c2)
    ensures var (v1, s1) := RotSh8(env, s, e, c1);
      RotSh8(env, s1, e.(tmpw := v1 as bv16), c2) == RotSh8(env, s, e, c1 + c2)
  {
    var op := RotOf(RegField(e.modrm));
    RotTimes8Split(env, op, s.f, Lo(e.tmpw), ShiftCount(c1), ShiftCount(c2));
    var (v1, f1) := RotTimes8(env, op, s.f, Lo(e.tmpw), ShiftCount(c1));
    assert Lo(v1 as bv16) == v1;
  }

  lemma WordShiftsCompose(env: Env, s: State, e: Ea, c1: bv8, c2: bv8)
    requires ShiftCount(c1 + c2) == ShiftCount(c1) + ShiftCount(c2)
    ensures var (w1, s1) := RotSh16(env, s, e, c1);
      RotSh16(env, s1, e.(tmpw := w1), c2) == RotSh16(env, s, e, c1 + c2)
  {
    RotTimes16Split(env, RotOf(RegField(e.modrm)), s.f, e.tmpw, ShiftCount(c1), ShiftCount(c2));
  }

  /** Counts whose low five bits add up to less than 32 add without a carry out of bit 4. */
  lemma CountsAdd(c1: bv8, c2: bv8)
    requires ShiftCount(c1) + ShiftCount(c2) < 32
    ensures ShiftCount(c1 + c2) == ShiftCount(c1) + ShiftCount(c2)
  {
    assert (c1 + c2) & 0x1f == (c1 & 0x1f) + (c2 & 0x1f);
  }

  /** Both widths charge one cycle per repeat. */
  lemma ShiftCyclesAgree(env: Env, s: State, e: Ea, cnt: bv8)
    ensures RotSh8(env, s, e, cnt).1.t == RotSh16(env, s, e, cnt).1.t == s.t + ShiftCount(cnt)
  {
  }

  /**
   * As written, i286_rotsh16 charges the scratch byte: C1 with count 21 rotates once but is
   * charged 33 cycles; D1 (count 1) is charged whatever an earlier instruction left, 5 here.
   */
  lemma WordShiftCyclesAsWritten(env: Env, s: State, e: Ea)
    ensures RotSh16AsWritten(env, s, e, 0x21, 0x21).1.t == s.t + 33
    ensures RotSh16(env, s, e, 0x21).1.t == s.t + 1
    ensures RotSh16AsWritten(env, s, e, 1, 5).1.t == s.t + 5
    ensures RotSh16(env, s, e, 1).1.t == s.t + 1
    ensures RotSh16AsWritten(env, s, e, 0x21, 0x21).0 == RotSh16(env, s, e, 0x21).0
  {
    assert ShiftCount(0x21) == 1;
    assert ShiftCount(1) == 1;
  }

  /** A completed word shift leaves the rotated operand where the ModRM byte points. */
  lemma ShiftStoresResult(env: Env, s: State, c: CountFrom, e: Ea, s1: State, cnt: bv8, s2: State)
    requires RdEa(s, true) == Ok(e, s1) && ShiftCountOf(s1, c) == Ok(cnt, s2)
    requires Shift(env, s, true, c).Ok?
    ensures ReadLoc(Shift(env, s, true, c).st, e, true) == RotSh16(env, s2, e, cnt).0
  {
    var (v, s3) := RotSh16(env, s2, e, cnt);
    WriteThenRead(s3, e, v, true);
  }

  // ---------------------------------------------------------------------------
  // Privileged flags, HLT, WAIT

  /** POPF in protected mode never changes N; IOPL only at CPL 0; I only when CPL <= the resulting IOPL. */
  lemma PopfPrivilege(env: Env, f: Flags, w: bv16, cpl: bv8)
    ensures var g := PopfFlags(env, f, w, cpl); var h := env.setFlag(f, w);
      g.n == f.n &&
      (cpl == 0 ==> g.iopl == h.iopl) && (cpl != 0 ==> g.iopl == f.iopl) &&
      (g.i == if cpl <= g.iopl then h.i else f.i) &&
      g.(n := h.n, iopl := h.iopl, i := h.i) == h
  {
  }

  /** CLI and STI change only I when CPL <= IOPL; otherwise a zero is pushed and #GP raised. */
  lemma InterruptFlagPrivilege(s: State, on: bool)
    ensures SetIf(s, on) == if CheckIopl(s) then Done(s.(f := s.f.(i := on))) else PushZeroGP(s)
    ensures !PE(s) ==> SetIf(s, on) == Done(s.(f := s.f.(i := on)))
  {
  }

  /** HLT halts, staying on the instruction, exactly when no enabled request can be taken. */
  lemma HaltCondition(s: State)
    ensures Hlt(s).Ok?
    ensures Hlt(s).st.ctl.halt <==> (s.ctl.intrq * s.ctl.inten == {} || !s.f.i)
    ensures Hlt(s).st.ctl.halt ==> Hlt(s).st.r.ip == s.ctl.oldpc
    ensures !Hlt(s).st.ctl.halt ==> Hlt(s).st.r == s.r
  {
  }

  /** The second test of WAIT (TS and MP) can never be reached: MP alone decides #NM. */
  lemma WaitFaults(s: State)
    ensures Wait(s) == if s.sys.msw.mp then Fault(s, IntNM)
                       else if Has16(s.sys.x87sr, 0x80) then Fault(s, IntMF)
                       else Done(s)
  {
  }

  // ---------------------------------------------------------------------------
  // Operand forms with no meaning

  /** LEA of a memory operand loads its offset and reads no memory; of a register operand it is #UD. */
  lemma LeaForms(s: State, e: Ea, s1: State)
    requires GetEa(s, false) == Ok(e, s1)
    ensures e.loc.InReg? ==> Lea(s) == Fault(s1, IntUD)
    ensures e.loc.InMem? ==> Lea(s) == Done(s1.(r := SetReg(s1.r, e.modrm, e.loc.adr, true))) && s1.mem == s.mem
  {
    GetEaKeepsMemory(s, false);
  }

  lemma GetEaKeepsMemory(s: State, wide: bool)
    requires GetEa(s, wide).Ok?
    ensures GetEa(s, wide).st.mem == s.mem
  {
    var o := Fetch(s);
    var m := o.val;
    var s1 := o.st;
    if !IsRegMode(m) {
      var d := Disp(s1, m);
      if Direct(m) {
        assert FetchWord(d.st).st.mem == s.mem;
      }
    }
  }

  /** BOUND, LES and LDS of a register operand: #UD, and a stale address for the other two. */
  lemma RegisterOperandForms(s: State, e: Ea, s1: State)
    requires RdEa(s, true) == Ok(e, s1) && e.loc.InReg?
    ensures Bound(s) == Fault(s1, IntUD)
    ensures LoadFar(s, ES) == Stop(StaleScratch, s1) && LoadFar(s, DS) == Stop(StaleScratch, s1)
  {
  }

  /** BOUND of a memory operand completes exactly when the register lies within both bounds; otherwise #BR. */
  lemma BoundInRange(s: State, e: Ea, s1: State, hi: bv16, s2: State)
    requires RdEa(s, true) == Ok(e, s1) && e.loc.InMem?
    requires ReadMem(s1, e.loc.seg, Add16(e.loc.adr, 2), true) == Ok(hi, s2)
    ensures Bound(s) == if SWord(e.twrd) < SWord(e.tmpw) then Fault(s1, IntBR)
                        else if SWord(hi) < SWord(e.twrd) then Fault(s2, IntBR)
                        else Done(s2)
  {
  }

  /** AAM with a zero base is a divide error and changes nothing after the immediate. */
  lemma AamByZero(env: Env, s: State, s1: State)
    requires Fetch(s) == Ok(0, s1)
    ensures AamOp(env, s) == Stop(Throw(IntNum(-1), None), s1)
  {
  }

  /**
   * IDIV ew as written: its range test divides -1 or 0 by the operand and so never fires;
   * only a zero divisor is a divide error.
   */
  lemma WordIdivRangeTestInert(r: Regs, w: bv16, e: Ea)
    ensures IdivWord(r, w, EaTmpi(e)).None? <==> w == 0
  {
    if w != 0 {
      SmallQuotient(EaTmpi(e), SWord(w));
    }
  }

  lemma SmallQuotient(a: int, d: int)
    requires d != 0 && (a == 0 || a == -1)
    ensures TruncDiv(a, d) <= 1
  {
    if d > 0 {
      UnitQuotient(d);
    } else {
      UnitQuotient(-d);
    }
  }

  lemma UnitQuotient(d: int)
    requires d >= 1
    ensures 0 / d == 0 && 1 / d <= 1
  {
    if d > 1 {
      assert 1 / d == 0;
    }
  }

  // ---------------------------------------------------------------------------
  // Exchanges

  /** XCHG AX, reg twice gives back every register. */
  lemma XchgAxTwice(s: State, n: bv8, s1: State)
    requires XchgAx(s, n) == Ok((), s1)
    ensures XchgAx(s1, n) == Done(s)
  {
  }

  // ---------------------------------------------------------------------------
  // ENTER and LEAVE

  /**
   * One nesting copy of ENTER lowers BP and SP by two each, changes no other register,
   * and leaves at SS:SP the word found at DS:BP (override applied) after BP was lowered.
   */
  lemma EnterCopyMoves(s: State, t: State)
    requires EnterCopy(s) == Ok((), t)
    ensures var s1 := s.(r := s.r.(bp := Sub16(s.r.bp, 2)));
      var w := ReadLoc(s1, Ea(0, InMem(s.sg.ds, s1.r.bp), 0, 0), true);
      t.r == s.r.(bp := Sub16(s.r.bp, 2), sp := Sub16(s.r.sp, 2)) && t.sg == s.sg && t.sys == s.sys &&
      Peek(t.mem, I286.At(s.sg.ss, t.r.sp)) == Lo(w) && Peek(t.mem, I286.At(s.sg.ss, Succ(t.r.sp))) == Hi(w)
  {
    var s1 := s.(r := s.r.(bp := Sub16(s.r.bp, 2)));
    var o := ReadMem(s1, s1.sg.ds, s1.r.bp, true);
    ReadMemReads(s1, s1.sg.ds, s1.r.bp, true);
    PushLayout(o.st, o.val);
  }

  /** The nesting copies of ENTER move BP and SP down together, by two for each copy. */
  lemma {:induction false} EnterCopiesMove(s: State, k: nat, t: State)
    requires EnterCopies(s, k) == Ok((), t)
    ensures t.r.bp == Lower(s.r.bp, k) && t.r.sp == Lower(s.r.sp, k)
    decreases k
  {
    if k > 0 {
      var s1 := EnterCopiesHead(s, k, t);
      EnterCopyRegs(s, s1);
      EnterCopiesMove(s1, k - 1, t);
    }
  }

  /** `x` lowered by two, `k` times, wrapping at 0. */
  function Lower(x: bv16, k: nat): bv16
    decreases k
  {
    if k == 0 then x else Lower(Sub16(x, 2), k - 1)
  }

  /** The nesting copies of ENTER change no register but BP and SP, and no segment. */
  lemma {:induction false} EnterCopiesKeep(s: State, k: nat, t: State)
    requires EnterCopies(s, k) == Ok((), t)
    ensures t.r.(bp := s.r.bp, sp := s.r.sp) == s.r && t.sg == s.sg && t.sys == s.sys
    decreases k
  {
    if k > 0 {
      var s1 := EnterCopiesHead(s, k, t);
      EnterCopyRegs(s, s1);
      EnterCopiesKeep(s1, k - 1, t);
    }
  }

  /** The register part of EnterCopyMoves. */
  lemma EnterCopyRegs(s: State, t: State)
    requires EnterCopy(s) == Ok((), t)
    ensures t.r == s.r.(bp := Sub16(s.r.bp, 2), sp := Sub16(s.r.sp, 2)) && t.sg == s.sg && t.sys == s.sys
  {
    EnterCopyMoves(s, t);
  }

  /** The state after the first of `k` nesting copies that complete. */
  lemma EnterCopiesHead(s: State, k: nat, t: State) returns (s1: State)
    requires k > 0 && EnterCopies(s, k) == Ok((), t)
    ensures EnterCopy(s) == Ok((), s1) && EnterCopies(s1, k - 1) == Ok((), t)
  {
    var o := EnterCopy(s);
    EnterCopiesUnfold(s, k, o);
    s1 := o.st;
  }

  /** One turn of the nesting copies, as the recursion takes it. */
  lemma EnterCopiesUnfold(s: State, n: nat, step: Out<()>)
    requires n > 0 && step == EnterCopy(s)
    ensures EnterCopies(s, n) == if step.Ok? then EnterCopies(step.st, n - 1) else step
  {
  }

  /**
   * LEAVE undoes an ENTER of level 0: when the pop and the push check the stack by the same
   * rules, LEAVE completes and gives back every register of the state before ENTER.
   */
  lemma LeaveAfterFlatEnter(s: State, size: bv16, s3: State)
    requires s.sys.prot || !PE(s)
    requires EnterFrame(s, size, 0) == Ok((), s3)
    ensures Leave(s3).Ok? && Leave(s3).st.r == s.r
  {
    var o1 := Push(s, s.r.bp);
    FlatFrame(s, size, s3, o1);
    LeaveAfterPush(s, o1.st, size);
  }

  lemma LeaveAfterPush(s: State, s1: State, size: bv16)
    requires s.sys.prot || !PE(s)
    requires Push(s, s.r.bp) == Ok((), s1)
    ensures var s3 := s1.(r := s1.r.(bp := s1.r.sp, sp := Sub16(s1.r.sp, size)));
      Leave(s3).Ok? && Leave(s3).st.r == s.r
  {
    var s3 := s1.(r := s1.r.(bp := s1.r.sp, sp := Sub16(s1.r.sp, size)));
    var x := s3.(r := s3.r.(sp := s3.r.bp));
    PushLayout(s, s.r.bp);
    PushedChecks(s, s.r.bp);
    LeaveFrameChecks(s, x, Pred(Pred(s.r.sp)));
    PopReads(x);
    WordOfHalves(s.r.bp);
    SpUpDown(s.r.sp);
    LeavePops(s3, Pop(x));
  }

  /** The stack checks the pop of LEAVE makes hold where the push of ENTER passed them. */
  lemma LeaveFrameChecks(s: State, x: State, sp: bv16)
    requires s.sys.prot || !PE(s)
    requires x.sys == s.sys && x.sg == s.sg && x.r.sp == sp
    requires PE(s) ==>
      (!PopPastLimit(sp, s.sg.ss.limit) && CheckLimit(s, s.sg.ss, sp) && CheckLimit(s, s.sg.ss, Succ(sp)) &&
       CheckRd(s, s.sg.ss))
    ensures x.sys.prot || !PE(x)
    ensures PE(x) ==>
      (!PopPastLimit(x.r.sp, x.sg.ss.limit) && CheckRd(x, x.sg.ss) &&
       CheckLimit(x, x.sg.ss, x.r.sp) && CheckLimit(x, x.sg.ss, Succ(x.r.sp)))
  {
    assert PE(x) == PE(s) && x.sg.ss == s.sg.ss;
    assert CheckRd(x, x.sg.ss) == CheckRd(s, s.sg.ss);
    assert CheckLimit(x, x.sg.ss, x.r.sp) == CheckLimit(s, s.sg.ss, sp);
    assert CheckLimit(x, x.sg.ss, Succ(x.r.sp)) == CheckLimit(s, s.sg.ss, Succ(sp));
  }

  lemma FlatFrame(s: State, size: bv16, s3: State, o1: Out<()>)
    requires EnterFrame(s, size, 0) == Ok((), s3) && o1 == Push(s, s.r.bp)
    ensures o1.Ok? && s3 == o1.st.(r := o1.st.r.(bp := o1.st.r.sp, sp := Sub16(o1.st.r.sp, size)))
  {
  }

  lemma LeavePops(s: State, p: Out<bv16>)
    requires p == Pop(s.(r := s.r.(sp := s.r.bp))) && p.Ok?
    ensures Leave(s) == Done(p.st.(r := p.st.r.(bp := p.val)))
  {
  }
}
