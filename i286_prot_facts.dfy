// Properties of the protected-mode transfers of I286Prot: when a task switch is entered,
// what check_gate lets through, the gate layout, the far-call return address and the IRET
// frame, each with the readings of the source that differ from them.

module I286ProtFacts {
  import opened Common
  import opened I286
  import opened I286Prot
  import I286Facts

  // ---------------------------------------------------------------------------
  // Task switch entry

  /** The checks of i286_switch_task that a loaded TSS descriptor passes. */
  predicate TaskSegOk(s: State, seg: Seg, sel: bv16, iret: bool)
  {
    seg.pr && (iret || (s.sg.cs.pl <= seg.pl && s.sg.cs.pl <= Rpl(sel) && seg.ar == 1))
  }

  /** The entry checks of i286_switch_task that a selector passes. */
  predicate TaskEntryOk(s: State, sel: bv16, iret: bool)
  {
    !NullSel(sel) && !Has16(sel, 4) && CashSeg(s, sel).Ok? && TaskSegOk(s, CashSeg(s, sel).val, sel, iret)
  }

  /**
   * The entry of a task switch always ends the step, with the state unchanged; it ends in
   * the switch exactly when the entry checks pass.
   */
  lemma SwitchTaskEnds(s: State, sel: bv16, nest: bool, iret: bool)
    ensures SwitchTask<()>(s, sel, nest, iret).Stop? && SwitchTask<()>(s, sel, nest, iret).st == s
    ensures SwitchTask<()>(s, sel, nest, iret).why == TaskSwitch(sel, nest, iret) <==> TaskEntryOk(s, sel, iret)
  {
    if PE(s) { I286Facts.ProtectedCashSegFault(s, sel); } else { I286Facts.RealModeCashSeg(s, sel); }
    if !NullSel(sel) && !Has16(sel, 4) && CashSeg(s, sel).Ok? {
      TaskChecksEnd<()>(s, CashSeg(s, sel).val, sel, nest, iret);
    }
  }

  lemma TaskChecksEnd<T>(s: State, seg: Seg, sel: bv16, nest: bool, iret: bool)
    ensures TaskChecks<T>(s, seg, sel, nest, iret).Stop? && TaskChecks<T>(s, seg, sel, nest, iret).st == s
    ensures TaskChecks<T>(s, seg, sel, nest, iret).why == TaskSwitch(sel, nest, iret) <==> TaskSegOk(s, seg, sel, iret)
  {
  }

  /** IRET's switch back skips the privilege and busy tests: a present TSS in the GDT is enough. */
  lemma SwitchFromIret(s: State, sel: bv16)
    requires PE(s) && !NullSel(sel) && !Has16(sel, 4) && !OutsideTable(s, sel)
    requires CashSeg(s, sel).val.pr
    ensures SwitchTask<()>(s, sel, false, true) == Stop(TaskSwitch(sel, false, true), s)
  {
    I286Facts.ProtectedCashSegFault(s, sel);
  }

  // ---------------------------------------------------------------------------
  // check_gate

  /** In real mode check_gate only loads the real-mode segment: every offset is within its limit. */
  lemma RealModeGate(s: State, ip: bv16, sn: bv16)
    requires !PE(s)
    ensures CheckGate(s, ip, sn) == Ok(Target(RealSeg(sn), ip, false, 0), s)
  {
    I286Facts.RealModeCashSeg(s, sn);
  }

  /** The state after check_gate is the state before it, but for the override prefix. */
  predicate OnlyOverride(s: State, t: State)
  {
    t == s.(ovr := t.ovr)
  }

  /**
   * check_gate changes nothing but the override prefix, which only a call gate sets (to
   * its target code segment).
   */
  lemma CheckGateKeeps(s: State, ip: bv16, sn: bv16)
    ensures OnlyOverride(s, CheckGate(s, ip, sn).st)
  {
    if PE(s) { I286Facts.ProtectedCashSegFault(s, sn); } else { I286Facts.RealModeCashSeg(s, sn); }
    if CashSeg(s, sn).Ok? {
      GateChecksKeep(s, CashSeg(s, sn).val, ip, sn);
    }
  }

  lemma GateChecksKeep(s: State, seg: Seg, ip: bv16, sn: bv16)
    ensures OnlyOverride(s, GateChecks(s, seg, ip, sn).st)
  {
    if PE(s) && !NullSel(sn) && !HasAny(seg.ar, 0x10) {
      SystemTargetKeeps(s, seg, sn);
    } else if PE(s) && !NullSel(sn) && HasAny(seg.ar, 0x08) {
      DirectKeeps(s, seg, ip, sn);
    }
  }

  lemma DirectKeeps(s: State, seg: Seg, ip: bv16, sn: bv16)
    ensures DirectTarget(s, seg, ip, sn).st == s
  {
  }

  lemma SystemTargetKeeps(s: State, g: Seg, sn: bv16)
    requires PE(s)
    ensures OnlyOverride(s, SystemTarget(s, g, sn).st)
  {
    if g.ar == 1 {
      SwitchTaskKeeps(s, sn, true);
    } else if g.ar == 5 {
      SwitchTaskKeeps(s, BaseLow(g), false);
    } else if g.ar == 4 {
      CallGateKeeps(s, g, sn);
    } else if g.ar == 6 || g.ar == 7 {
      TrapGateKeeps(s, g, sn);
    }
  }

  lemma SwitchTaskKeeps(s: State, sel: bv16, nest: bool)
    ensures SwitchTask<Target>(s, sel, nest, false).st == s
  {
    if PE(s) { I286Facts.ProtectedCashSegFault(s, sel); } else { I286Facts.RealModeCashSeg(s, sel); }
    if !NullSel(sel) && !Has16(sel, 4) && CashSeg(s, sel).Ok? {
      TaskChecksEnd<Target>(s, CashSeg(s, sel).val, sel, nest, false);
    }
  }

  lemma CallGateKeeps(s: State, g: Seg, sn: bv16)
    requires PE(s)
    ensures OnlyOverride(s, CallGate(s, g, sn).st)
  {
    var sel := GateEntry(g).1;
    I286Facts.ProtectedCashSegFault(s, sel);
    if CashSeg(s, sel).Ok? {
      CallTargetKeeps(s.(ovr := Some(CashSeg(s, sel).val)), CashSeg(s, sel).val, GateEntry(g).0, GateCount(g));
    }
  }

  lemma CallTargetKeeps(s: State, cseg: Seg, adr: bv16, cnt: bv8)
    ensures CallTarget(s, cseg, adr, cnt).st == s
  {
  }

  lemma TrapGateKeeps(s: State, g: Seg, sn: bv16)
    requires PE(s)
    ensures TrapGate(s, g, sn).st == s
  {
    I286Facts.ProtectedCashSegFault(s, GateEntry(g).1);
  }

  /**
   * A direct transfer to a conforming code segment is let through exactly when its DPL is
   * at most CPL, it is present and the offset is within its limit.
   */
  lemma DirectConforming(s: State, seg: Seg, ip: bv16, sn: bv16)
    requires Conforming(seg)
    ensures DirectTarget(s, seg, ip, sn).Ok? <==> seg.pl <= s.sg.cs.pl && seg.pr && !PastLimit(seg, ip)
    ensures DirectTarget(s, seg, ip, sn).Ok? ==> DirectTarget(s, seg, ip, sn).val == Target(seg, ip, false, 0)
  {
  }

  /**
   * A direct transfer to a non-conforming code segment is let through exactly when RPL is
   * at most CPL, its DPL is CPL, it is present and the offset is within its limit.
   */
  lemma DirectNonConforming(s: State, seg: Seg, ip: bv16, sn: bv16)
    requires !Conforming(seg)
    ensures DirectTarget(s, seg, ip, sn).Ok? <==>
      Rpl(sn) <= s.sg.cs.pl && seg.pl == s.sg.cs.pl && seg.pr && !PastLimit(seg, ip)
    ensures DirectTarget(s, seg, ip, sn).Ok? ==> DirectTarget(s, seg, ip, sn).val == Target(seg, ip, false, 0)
  {
  }

  /**
   * A call gate that is let through passed the privilege test and was present; it leads to
   * a present code segment, at the gate's entry offset within the segment's limit, with at
   * most 31 parameter words, and the target becomes the override prefix.
   */
  lemma CallGateTarget(s: State, g: Seg, sn: bv16)
    requires PE(s) && CallGate(s, g, sn).Ok?
    ensures !CallGateDenied(g.pl, s.sg.cs.pl, Rpl(sn)) && g.pr
    ensures var tg := CallGate(s, g, sn).val;
      tg.gate && CodeAr(tg.seg) && tg.seg.pr && !PastLimit(tg.seg, tg.adr) && tg.adr == GateEntry(g).0 && tg.cnt <= 0x1f
    ensures CallGate(s, g, sn).st == s.(ovr := Some(CallGate(s, g, sn).val.seg))
  {
    var sel := GateEntry(g).1;
    I286Facts.ProtectedCashSegFault(s, sel);
    CallTargetOk(s.(ovr := Some(CashSeg(s, sel).val)), CashSeg(s, sel).val, GateEntry(g).0, GateCount(g));
    GateCountBound(g);
  }

  lemma CallTargetOk(s: State, cseg: Seg, adr: bv16, cnt: bv8)
    requires CallTarget(s, cseg, adr, cnt).Ok?
    ensures CallTarget(s, cseg, adr, cnt) == Ok(Target(cseg, adr, true, cnt), s)
    ensures CodeAr(cseg) && cseg.pr && !PastLimit(cseg, adr)
    ensures if Conforming(cseg) then cseg.pl <= s.sg.cs.pl else cseg.pl == s.sg.cs.pl
  {
  }

  lemma GateCountBound(g: Seg)
    ensures GateCount(g) <= 0x1f
  {
  }

  // ---------------------------------------------------------------------------
  // The call-gate privilege test (finding)

  /** The test as written never looks at RPL; the intended one adds exactly the RPL condition. */
  lemma CallGateDeniedParts(dpl: bv8, cpl: bv8, rpl: bv8)
    ensures CallGateDeniedAsWritten(dpl, cpl, rpl) <==> dpl < cpl
    ensures CallGateDenied(dpl, cpl, rpl) <==> CallGateDeniedAsWritten(dpl, cpl, rpl) || dpl < rpl
  {
  }

  /**
   * CPL 0 calling through a gate of DPL 1 with a selector of RPL 2: the test as written
   * lets the call through, the intended one refuses it (#GP(sel)).
   */
  lemma CallGatePrivilegeAsWrittenMisses()
    ensures !CallGateDeniedAsWritten(1, 0, 2)
    ensures CallGateDenied(1, 0, 2)
  {
  }

  /** With the intended test a call gate below the selector's RPL raises #GP(sel) before anything else. */
  lemma CallGateRefusesRpl(s: State, g: Seg, sn: bv16)
    requires g.pl < Rpl(sn)
    ensures CallGate(s, g, sn) == Raise(s, IntGP, sn)
  {
  }

  // ---------------------------------------------------------------------------
  // The gate layout (finding)

  /**
   * Read from a gate's six descriptor bytes, the entry point is the offset in bytes 0-1
   * and the selector in bytes 2-3, and the count of parameter words is the low five bits
   * of byte 4.
   */
  lemma GateEntryBytes(b0: bv8, b1: bv8, b2: bv8, b3: bv8, b4: bv8, acc: bv8)
    ensures GateEntry(DecodeDescriptor(b0, b1, b2, b3, b4, acc)) == (Word(b1, b0), Word(b3, b2))
    ensures GateCount(DecodeDescriptor(b0, b1, b2, b3, b4, acc)) == b4 & 0x1f
  {
    LowWordOfBase(b2, b3, b4);
    HighByteOfBase(b2, b3, b4);
  }

  lemma LowWordOfBase(b2: bv8, b3: bv8, b4: bv8)
    ensures (((b4 as bv32 << 16) | Word(b3, b2) as bv32) & 0xffff) as bv16 == Word(b3, b2)
  {
  }

  lemma HighByteOfBase(b2: bv8, b3: bv8, b4: bv8)
    ensures ((((b4 as bv32 << 16) | Word(b3, b2) as bv32) >> 16) & 0x1f) as bv8 == b4 & 0x1f
  {
  }

  /** As written the two words trade places: the selector bytes become the offset. */
  lemma GateEntryAsWrittenSwaps(g: Seg)
    ensures GateEntryAsWritten(g) == (GateEntry(g).1, GateEntry(g).0)
  {
  }

  /**
   * A call gate to offset 1234 in the segment of selector 0008 (bytes 34 12 08 00 00 84):
   * as written the call goes to offset 0008 of selector 1234.
   */
  lemma GateEntryAsWrittenMisreads()
    ensures GateEntry(DecodeDescriptor(0x34, 0x12, 0x08, 0x00, 0x00, 0x84)) == (0x1234, 0x0008)
    ensures GateEntryAsWritten(DecodeDescriptor(0x34, 0x12, 0x08, 0x00, 0x00, 0x84)) == (0x0008, 0x1234)
  {
    GateEntryBytes(0x34, 0x12, 0x08, 0x00, 0x00, 0x84);
  }

  /**
   * A trap or interrupt gate that is let through passed its privilege test and was present;
   * it leads to the code segment its selector loads, at its entry offset, and changes no
   * state.
   */
  lemma TrapGateTarget(s: State, g: Seg, sn: bv16)
    requires TrapGate(s, g, sn).Ok?
    ensures s.sg.cs.pl <= g.pl && Rpl(sn) <= s.sg.cs.pl && g.pr
    ensures CashSeg(s, GateEntry(g).1).Ok?
    ensures var tg := TrapGate(s, g, sn).val;
      tg == Target(CashSeg(s, GateEntry(g).1).val, GateEntry(g).0, false, 0) && tg.seg.code
    ensures TrapGate(s, g, sn).st == s
  {
    CashSegSame(s, s, GateEntry(g).1);
  }

  /**
   * An interrupt gate to offset 1234 in the segment of selector 0008 (bytes 34 12 08 00 00
   * 86): as written the trap path takes offset 0008 and loads selector 1234 instead.
   */
  lemma TrapGateAsWrittenMisreads()
    ensures GateEntry(DecodeDescriptor(0x34, 0x12, 0x08, 0x00, 0x00, 0x86)) == (0x1234, 0x0008)
    ensures GateEntryAsWritten(DecodeDescriptor(0x34, 0x12, 0x08, 0x00, 0x00, 0x86)) == (0x0008, 0x1234)
  {
    GateEntryBytes(0x34, 0x12, 0x08, 0x00, 0x00, 0x86);
  }

  // ---------------------------------------------------------------------------
  // Far jumps and calls

  /** A real-mode far jump sets IP and loads CS as a real-mode segment; nothing else changes. */
  lemma RealModeJmpf(s: State, nip: bv16, ncs: bv16)
    requires !PE(s)
    ensures Jmpf(s, nip, ncs) == Done(s.(r := s.r.(ip := nip), sg := s.sg.(cs := RealSeg(ncs))))
  {
    I286Facts.RealModeCashSeg(s.(r := s.r.(ip := nip)), ncs);
  }

  /**
   * A protected-mode far jump that completes lands at check_gate's target: CS:IP is the
   * target and the rest of the state is kept, but for the override prefix.
   */
  lemma ProtectedJmpf(s: State, nip: bv16, ncs: bv16)
    requires PE(s) && Jmpf(s, nip, ncs).Ok?
    ensures CheckGate(s, nip, ncs).Ok?
    ensures var tg := CheckGate(s, nip, ncs).val;
      Jmpf(s, nip, ncs).st == s.(r := s.r.(ip := tg.adr), sg := s.sg.(cs := tg.seg), ovr := Jmpf(s, nip, ncs).st.ovr)
  {
    CheckGateKeeps(s, nip, ncs);
  }

  /** The inter-level part of a gate call leaves CS:IP at the target. */
  lemma InnerCallLoads(s: State, tg: Target)
    requires InnerCall(s, tg).Ok?
    ensures InnerCall(s, tg).st.sg.cs == tg.seg && InnerCall(s, tg).st.r.ip == tg.adr
  {
  }

  /**
   * A call through a call gate to a more privileged level: the intended return address is
   * the caller's CS:IP, while as written it is the target's own CS:IP, so a far return
   * from the called procedure would re-enter it instead of going back.
   */
  lemma CallfReturnAddress(s: State, nip: bv16, ncs: bv16)
    requires PE(s) && CheckGate(s, nip, ncs).Ok?
    requires var (tg, s1) := CheckGate(s, nip, ncs).Extract();
      tg.gate && tg.seg.pl < s1.sg.cs.pl && InnerCall(s1, tg).Ok?
    ensures var (tg, s1) := CheckGate(s, nip, ncs).Extract();
      Callf(s, nip, ncs) == PushReturn(InnerCall(s1, tg).st, s.sg.cs.idx, s.r.ip, tg) &&
      CallfAsWritten(s, nip, ncs) == PushReturn(InnerCall(s1, tg).st, tg.seg.idx, tg.adr, tg)
  {
    CheckGateKeeps(s, nip, ncs);
    var (tg, s1) := CheckGate(s, nip, ncs).Extract();
    GateCallReturn(s1, tg);
  }

  lemma GateCallReturn(s: State, tg: Target)
    requires tg.gate && tg.seg.pl < s.sg.cs.pl && InnerCall(s, tg).Ok?
    ensures GateCall(s, tg) == PushReturn(InnerCall(s, tg).st, s.sg.cs.idx, s.r.ip, tg)
    ensures GateCallAsWritten(s, tg) == PushReturn(InnerCall(s, tg).st, tg.seg.idx, tg.adr, tg)
  {
    InnerCallLoads(s, tg);
  }

  /** On every other path the two readings of i286_callf agree. */
  lemma CallfOtherPaths(s: State, nip: bv16, ncs: bv16)
    requires PE(s) ==> CheckGate(s, nip, ncs).Ok? ==>
      var (tg, s1) := CheckGate(s, nip, ncs).Extract(); !(tg.gate && tg.seg.pl < s1.sg.cs.pl)
    ensures Callf(s, nip, ncs) == CallfAsWritten(s, nip, ncs)
  {
  }

  /** A real-mode far call pushes CS, then IP, loads CS as a real-mode segment, jumps to nip and sets t to 41. */
  lemma RealModeCallf(s: State, s1: State, s2: State, nip: bv16, ncs: bv16)
    requires !PE(s) && Push(s, s.sg.cs.idx) == Ok((), s1) && Push(s1, s.r.ip) == Ok((), s2)
    ensures RealCall(s, nip, ncs) == Done(s2.(sg := s2.sg.(cs := RealSeg(ncs)), r := s2.r.(ip := nip), t := 41))
  {
    PushKeepsIp(s, s.sg.cs.idx);
    PushKeepsIp(s1, s.r.ip);
    RealCallLoads(s, s1, s2, nip, ncs);
  }

  lemma RealModeCallfIsRealCall(s: State, nip: bv16, ncs: bv16)
    requires !PE(s)
    ensures Callf(s, nip, ncs) == RealCall(s, nip, ncs)
  {
  }

  lemma PushKeepsIp(s: State, w: bv16)
    requires Push(s, w).Ok?
    ensures Push(s, w).st.r.ip == s.r.ip && Push(s, w).st.sys == s.sys
  {
    I286Facts.PushLayout(s, w);
  }

  lemma RealCallLoads(s: State, s1: State, s2: State, nip: bv16, ncs: bv16)
    requires !PE(s) && Push(s, s.sg.cs.idx) == Ok((), s1) && Push(s1, s1.r.ip) == Ok((), s2) && s2.sys == s.sys
    ensures RealCall(s, nip, ncs) == Done(s2.(sg := s2.sg.(cs := RealSeg(ncs)), r := s2.r.(ip := nip), t := 41))
  {
    I286Facts.RealModeCashSeg(s2, ncs);
  }

  // ---------------------------------------------------------------------------
  // IRET: the level test (finding)

  /**
   * As written, IRET takes the same-level path only at CPL 0: `(ncs >> 3) & 0x60` is 0, 20,
   * 40 or 60, and a level is at most 3.
   */
  lemma SameLevelAsWrittenOnlyAtZero(ncs: bv16, cpl: bv8)
    requires cpl <= 3 && SameLevelAsWritten(ncs, cpl)
    ensures cpl == 0
  {
    MaskedLevel(ncs);
  }

  lemma MaskedLevel(ncs: bv16)
    ensures Lo((ncs >> 3) & 0x60) & 0x9f == 0
  {
  }

  /**
   * An IRET at CPL 3 to a selector of RPL 3 (001B) returns to the same level, but as
   * written it is sent down the outer-level path, which then pops SS:SP as well.
   */
  lemma SameLevelAsWrittenMisses()
    ensures SameLevel(0x001b, 3)
    ensures !SameLevelAsWritten(0x001b, 3)
  {
  }

  // ---------------------------------------------------------------------------
  // IRET: the frame it checks (finding)

  /**
   * As written, a protected-mode IRET without NT raises #GP(0) whenever the word at SS:2
   * is 0, whatever return frame lies on top of the stack.
   */
  lemma IretAsWrittenNullFrame(env: Env, s: State)
    requires PE(s) && !s.f.n && SysWord(s, s.sg.ss, 2) == 0
    ensures IretAsWritten(env, s) == Raise(s, IntGP, 0)
  {
    I286Facts.ProtectedCashSegFault(s, 0);
  }

  /** A completed pop returns the word on top of the stack and changes SP and the cycle counter only. */
  lemma PopIsStackWord(s: State)
    requires Pop(s).Ok?
    ensures Pop(s).val == StackWord(s, s.r.sp)
    ensures Pop(s).st == s.(r := s.r.(sp := Succ(Succ(s.r.sp))), t := Pop(s).st.t)
  {
    var sp := s.r.sp;
    var o1 := Mrd(s, s.sg.ss, false, sp);
    I286Facts.MrdDone(s, s.sg.ss, false, sp);
    I286Facts.MrdDone(o1.st, s.sg.ss, false, Succ(sp));
  }

  /** The descriptor cache depends on the system part and memory only. */
  lemma CashSegSame(s: State, t: State, sel: bv16)
    requires t.sys == s.sys && t.mem == s.mem
    ensures CashSeg(t, sel).Ok? == CashSeg(s, sel).Ok? && CashSeg(t, sel).st == t
    ensures CashSeg(t, sel).Ok? ==> CashSeg(t, sel).val == CashSeg(s, sel).val
  {
    if PE(s) {
      CashSegSameProtected(s, t, sel);
    } else {
      I286Facts.RealModeCashSeg(s, sel);
      I286Facts.RealModeCashSeg(t, sel);
    }
  }

  lemma CashSegSameProtected(s: State, t: State, sel: bv16)
    requires t.sys == s.sys && t.mem == s.mem && PE(s)
    ensures CashSeg(t, sel).Ok? == CashSeg(s, sel).Ok? && CashSeg(t, sel).st == t
    ensures CashSeg(t, sel).Ok? ==> CashSeg(t, sel).val == CashSeg(s, sel).val
  {

  }

  /**
   * The pops of a protected-mode IRET that complete take IP and CS from the frame on top of
   * the stack, the frame the corrected IRET checks.
   */
  lemma PopFrameTakesFrame(env: Env, s: State)
    requires PopFrame(env, s).Ok?
    ensures PopFrame(env, s).st.r.ip == Frame(s).0
    ensures CashSeg(s, Frame(s).1).Ok? && PopFrame(env, s).st.sg.cs == CashSeg(s, Frame(s).1).val
  {
    var (ip, s1) := Pop(s).Extract();
    PopIsStackWord(s);
    var s1' := s1.(r := s1.r.(ip := ip));
    PopIsStackWord(s1');
    TwoSteps(s.r.sp);
    var (cs, s2) := Pop(s1').Extract();
    CashSegSame(s, s2, cs);
    var s3 := s2.(sg := s2.sg.(cs := CashSeg(s, cs).val));
    PopIsStackWord(s3);
  }
}
