// Protected-mode control transfers of src/libxpeccy/cpu/i80286/i80286_nop.c: the entry
// checks of i286_switch_task, the gate and privilege checks of i286_check_gate, far calls
// and jumps (i286_callf, i286_jmpf) and IRET (i286_opCF).
//
// The task switch proper (saving the registers to the old TSS, loading the new one) is not
// part of this model: a transfer that reaches it ends the step with `TaskSwitch`.

module I286Prot {
  import opened Common
  import opened I286

  /** THROW_EC for a step of any result type: the vector and its error code. */
  function Raise<T>(s: State, v: Vec, code: bv16): Out<T>
  {
    Stop(Throw(v, Some(code)), s)
  }

  /** The requested privilege level: the low two bits of a selector. */
  function Rpl(sel: bv16): bv8
  {
    Lo(sel) & 3
  }

  /** A selector whose table offset is 0, the null selector. */
  predicate NullSel(sel: bv16)
  {
    TableOffset(sel) == 0
  }

  /** A conforming code segment: bit 2 of AR. */
  predicate Conforming(seg: Seg)
  {
    HasAny(seg.ar, 0x04)
  }

  /** A code descriptor: the S bit and the executable bit of AR both set. */
  predicate CodeAr(seg: Seg)
  {
    seg.ar & 0x18 == 0x18
  }

  /** An offset past a segment's limit. */
  predicate PastLimit(seg: Seg, adr: bv16)
  {
    seg.limit < adr
  }

  /** The low word of a descriptor's base field: descriptor bytes 2-3. */
  function BaseLow(g: Seg): bv16
  {
    (g.base & 0xffff) as bv16
  }

  // ---------------------------------------------------------------------------
  // i286_switch_task: the entry checks

  /**
   * The entry checks of i286_switch_task: a null selector raises #GP(0), an LDT selector
   * #GP(sel), an absent TSS #NP(sel); unless the switch comes from IRET, a TSS with DPL or
   * RPL below CPL, or one that is not an available TSS (AR 1), raises #GP(sel). A selector
   * that passes hands the step over to the switch itself, so the step always ends here.
   */
  function SwitchTask<T>(s: State, sel: bv16, nest: bool, iret: bool): Out<T>
  {
    if NullSel(sel) then Raise(s, IntGP, 0)
    else if Has16(sel, 4) then Raise(s, IntGP, sel)
    else
      var (seg, s1) :- CashSeg(s, sel);
      TaskChecks(s1, seg, sel, nest, iret)
  }

  /** The checks of i286_switch_task on the loaded TSS descriptor `seg`. */
  function TaskChecks<T>(s: State, seg: Seg, sel: bv16, nest: bool, iret: bool): Out<T>
  {
    var cpl := s.sg.cs.pl;
    if !seg.pr then Raise(s, IntNP, sel)
    else if !iret && (seg.pl < cpl || Rpl(sel) < cpl) then Raise(s, IntGP, sel)
    else if !iret && seg.ar != 1 then Raise(s, IntGP, sel)
    else Stop(TaskSwitch(sel, nest, iret), s)
  }

  // ---------------------------------------------------------------------------
  // i286_check_gate

  /**
   * The destination of a far transfer, ea.seg:ea.adr after i286_check_gate: the code
   * segment, the offset, whether the transfer went through a call gate (ea.reg) and the
   * gate's count of parameter words (ea.cnt).
   */
  datatype Target = Target(seg: Seg, adr: bv16, gate: bool, cnt: bv8)

  /**
   * A transfer straight to a code segment. Conforming: DPL above CPL raises #GP(sel).
   * Non-conforming: RPL above CPL or DPL other than CPL raises #GP(sel), and the segment
   * takes CPL as its level. Then an absent segment raises #NP(sel), and an offset past the
   * limit #GP(0).
   */
  function DirectTarget(s: State, seg: Seg, ip: bv16, sn: bv16): Out<Target>
  {
    var cpl := s.sg.cs.pl;
    if Conforming(seg) && seg.pl > cpl then Raise(s, IntGP, sn)
    else if !Conforming(seg) && Rpl(sn) > cpl then Raise(s, IntGP, sn)
    else if !Conforming(seg) && seg.pl != cpl then Raise(s, IntGP, sn)
    else
      var dst := if Conforming(seg) then seg else seg.(pl := cpl);
      if !dst.pr then Raise(s, IntNP, sn)
      else if PastLimit(dst, ip) then Raise(s, IntGP, 0)
      else Ok(Target(dst, ip, false, 0), s)
  }

  /** The privilege test of the call-gate case as written, `dpl < cpl || dpl < cpl`: RPL plays no part. */
  predicate CallGateDeniedAsWritten(dpl: bv8, cpl: bv8, rpl: bv8)
  {
    dpl < cpl || dpl < cpl
  }

  /**
   * The privilege test of a call gate: the gate's DPL may be below neither CPL nor the
   * selector's RPL, as in the TSS and task-gate cases beside it.
   */
  predicate CallGateDenied(dpl: bv8, cpl: bv8, rpl: bv8)
  {
    dpl < cpl || dpl < rpl
  }

  /**
   * The entry point of a call or trap gate as written: the offset from the base field
   * (descriptor bytes 2-3) and the selector from the limit field (bytes 0-1).
   */
  function GateEntryAsWritten(g: Seg): (bv16, bv16)
  {
    (BaseLow(g), g.limit)
  }

  /**
   * The entry point of a call or trap gate, (offset, selector): the offset is descriptor
   * bytes 0-1, which the descriptor cache holds as the limit, and the selector bytes 2-3,
   * the low word of the base.
   */
  function GateEntry(g: Seg): (bv16, bv16)
  {
    (g.limit, BaseLow(g))
  }

  /** The count of parameter words of a call gate: bits 0..4 of descriptor byte 4. */
  function GateCount(g: Seg): bv8
  {
    ((g.base >> 16) & 0x1f) as bv8
  }

  /**
   * A call gate (AR 4): the privilege test, presence, then the entry point. A null target
   * selector raises #GP(0); the target descriptor becomes the override segment; a target
   * that is not code, a conforming one above CPL or a non-conforming one at another level
   * raises #GP(CS), an absent one #NP(CS), and an entry offset past its limit #GP(0).
   */
  function CallGate(s: State, g: Seg, sn: bv16): Out<Target>
  {
    var cpl := s.sg.cs.pl;
    if CallGateDenied(g.pl, cpl, Rpl(sn)) then Raise(s, IntGP, sn)
    else if !g.pr then Raise(s, IntNP, sn)
    else
      var (adr, sel) := GateEntry(g);
      if sel == 0 then Raise(s, IntGP, 0)
      else
        var (cseg, s1) :- CashSeg(s, sel);
        CallTarget(s1.(ovr := Some(cseg)), cseg, adr, GateCount(g))
  }

  /**
   * The checks of a call gate's target code segment `cseg`, already the override prefix:
   * not code, conforming above CPL or non-conforming at another level raises #GP(CS),
   * absent #NP(CS), an entry offset past the limit #GP(0).
   */
  function CallTarget(s: State, cseg: Seg, adr: bv16, cnt: bv8): Out<Target>
  {
    var cpl := s.sg.cs.pl;
    var back := s.sg.cs.idx;
    if !CodeAr(cseg) then Raise(s, IntGP, back)
    else if Conforming(cseg) && cseg.pl > cpl then Raise(s, IntGP, back)
    else if !Conforming(cseg) && cseg.pl != cpl then Raise(s, IntGP, back)
    else if !cseg.pr then Raise(s, IntNP, back)
    else if PastLimit(cseg, adr) then Raise(s, IntGP, 0)
    else Ok(Target(cseg, adr, true, cnt), s)
  }

  /** A trap or interrupt gate (AR 6, 7): privilege, presence, then a code segment from the entry point. */
  function TrapGate(s: State, g: Seg, sn: bv16): Out<Target>
  {
    var cpl := s.sg.cs.pl;
    if g.pl < cpl || cpl < Rpl(sn) then Raise(s, IntGP, sn)
    else if !g.pr then Raise(s, IntNP, sn)
    else
      var (adr, sel) := GateEntry(g);
      var (cseg, s1) :- CashSeg(s, sel);
      if !cseg.code then Raise(s1, IntGP, cseg.idx)
      else Ok(Target(cseg, adr, false, 0), s1)
  }

  /**
   * A system descriptor, by its type: an available TSS (1) and a task gate (5) switch task
   * after the privilege and presence tests, a busy TSS (3) raises #GP(0), call gates (4)
   * and trap gates (6, 7) lead to a code segment, any other type raises #GP(sel).
   */
  function SystemTarget(s: State, g: Seg, sn: bv16): Out<Target>
  {
    var cpl := s.sg.cs.pl;
    if g.ar == 1 || g.ar == 5 then
      if g.pl < cpl || g.pl < Rpl(sn) then Raise(s, IntGP, sn)
      else if !g.pr then Raise(s, IntNP, sn)
      else if g.ar == 1 then SwitchTask(s, sn, true, false)
      else SwitchTask(s, BaseLow(g), false, false)
    else if g.ar == 3 then Raise(s, IntGP, 0)
    else if g.ar == 4 then CallGate(s, g, sn)
    else if g.ar == 6 || g.ar == 7 then TrapGate(s, g, sn)
    else Raise(s, IntGP, sn)
  }

  /**
   * i286_check_gate: the descriptor of `sn` is loaded first. In protected mode a null
   * selector raises #GP(0), a data segment #GP(sn), a code segment goes to DirectTarget, a
   * system descriptor to SystemTarget. In real mode only the limit is checked.
   */
  function CheckGate(s: State, ip: bv16, sn: bv16): Out<Target>
  {
    var (seg, s1) :- CashSeg(s, sn);
    GateChecks(s1, seg, ip, sn)
  }

  /** The checks of i286_check_gate on the loaded descriptor `seg`. */
  function GateChecks(s: State, seg: Seg, ip: bv16, sn: bv16): Out<Target>
  {
    if PE(s) then
      if NullSel(sn) then Raise(s, IntGP, 0)
      else if HasAny(seg.ar, 0x10) then
        if HasAny(seg.ar, 0x08) then DirectTarget(s, seg, ip, sn) else Raise(s, IntGP, sn)
      else SystemTarget(s, seg, sn)
    else if PastLimit(seg, ip) then Raise(s, IntGP, 0)
    else Ok(Target(seg, ip, false, 0), s)
  }

  // ---------------------------------------------------------------------------
  // i286_callf, i286_jmpf

  /**
   * The loop of i286_callf that carries the parameters over: n bytes copied upward from
   * `src` to `dst` through the bus, each read after the writes before it.
   */
  function CopyBytes(m: map<Phys, bv8>, src: bv32, dst: bv32, n: nat): map<Phys, bv8>
    decreases n
  {
    if n == 0 then m else CopyBytes(m[Phys(dst) := Peek(m, Phys(src))], src + 1, dst + 1, n - 1)
  }

  /** The TSS offset of the SP for privilege level pl: 2 + 4 * pl; the SS selector follows it. */
  function StackSlot(pl: bv8): bv16
  {
    2 + 4 * Widen(pl)
  }

  /** The bytes the parameter words of a call gate take: twice their count. */
  function ParamBytes(cnt: bv8): bv16
  {
    Widen(cnt) << 1
  }

  /**
   * The inter-level part of a call through a call gate to a more privileged level: SP and
   * SS for the target's level from the TSS, the old SS and SP pushed on the new stack, CS:IP
   * set to the target, room made for the parameters, t set to 86 and the parameter bytes
   * copied from the old stack top to the new one.
   */
  function InnerCall(s: State, tg: Target): Out<()>
  {
    var osp := s.r.sp;
    var oss := s.sg.ss.idx;
    var src := I286.At(s.sg.ss, osp).a;
    var slot := StackSlot(tg.seg.pl);
    var s1 := s.(r := s.r.(sp := SysWord(s, s.sys.tsdr, slot)));
    var (ss, s2) :- CashSeg(s1, SysWord(s1, s1.sys.tsdr, Add16(slot, 2)));
    var (_, s3) :- Push(s2.(sg := s2.sg.(ss := ss)), oss);
    var (_, s4) :- Push(s3, osp);
    var n := ParamBytes(tg.cnt);
    var s5 := s4.(sg := s4.sg.(cs := tg.seg), r := s4.r.(ip := tg.adr, sp := Sub16(s4.r.sp, n)), t := 86);
    Done(s5.(mem := CopyBytes(s5.mem, src, I286.At(s5.sg.ss, s5.r.sp).a, n as nat)))
  }

  /** The return address of a far call pushed (selector, then offset), then CS:IP set to the target. */
  function PushReturn(s: State, cs: bv16, ip: bv16, tg: Target): Out<()>
  {
    var (_, s1) :- Push(s, cs);
    var (_, s2) :- Push(s1, ip);
    Done(s2.(sg := s2.sg.(cs := tg.seg), r := s2.r.(ip := tg.adr)))
  }

  /**
   * i286_callf, with the caller's CS:IP as the return address on every path (see
   * CallfAsWritten). Protected mode: check_gate, then GateCall. Real mode: push CS and IP,
   * load CS, t = 41.
   */
  function Callf(s: State, nip: bv16, ncs: bv16): Out<()>
  {
    if PE(s) then
      var (tg, s1) :- CheckGate(s, nip, ncs);
      GateCall(s1, tg)
    else RealCall(s, nip, ncs)
  }

  /** i286_callf in real mode: push CS, then IP, load CS, jump to nip; t = 41. */
  function RealCall(s: State, nip: bv16, ncs: bv16): Out<()>
  {
    var (_, s1) :- Push(s, s.sg.cs.idx);
    var (_, s2) :- Push(s1, s1.r.ip);
    var (cs, s3) :- CashSeg(s2, ncs);
    Done(s3.(sg := s3.sg.(cs := cs), r := s3.r.(ip := nip), t := 41))
  }

  /**
   * The protected-mode call to check_gate's target: the inter-level stack switch for a call
   * gate to a more privileged level (t = 86), otherwise t = 82 through a gate and 41
   * without one; then the caller's CS:IP pushed.
   */
  function GateCall(s: State, tg: Target): Out<()>
  {
    if tg.gate && tg.seg.pl < s.sg.cs.pl then
      var (_, s1) :- InnerCall(s, tg);
      PushReturn(s1, s.sg.cs.idx, s.r.ip, tg)
    else PushReturn(s.(t := if tg.gate then 82 else 41), s.sg.cs.idx, s.r.ip, tg)
  }

  /**
   * The protected-mode call as written: after the inter-level stack switch it pushes the
   * CS:IP it has just loaded, the target's own, as the return address.
   */
  function GateCallAsWritten(s: State, tg: Target): Out<()>
  {
    if tg.gate && tg.seg.pl < s.sg.cs.pl then
      var (_, s1) :- InnerCall(s, tg);
      PushReturn(s1, s1.sg.cs.idx, s1.r.ip, tg)
    else PushReturn(s.(t := if tg.gate then 82 else 41), s.sg.cs.idx, s.r.ip, tg)
  }

  /** i286_callf as written: GateCallAsWritten in protected mode. */
  function CallfAsWritten(s: State, nip: bv16, ncs: bv16): Out<()>
  {
    if PE(s) then
      var (tg, s1) :- CheckGate(s, nip, ncs);
      GateCallAsWritten(s1, tg)
    else RealCall(s, nip, ncs)
  }

  /** i286_jmpf: protected mode goes through check_gate; real mode sets IP and loads CS. */
  function Jmpf(s: State, nip: bv16, ncs: bv16): Out<()>
  {
    if PE(s) then
      var (tg, s1) :- CheckGate(s, nip, ncs);
      Done(s1.(r := s1.r.(ip := tg.adr), sg := s1.sg.(cs := tg.seg)))
    else
      var s1 := s.(r := s.r.(ip := nip));
      var (cs, s2) :- CashSeg(s1, ncs);
      Done(s2.(sg := s2.sg.(cs := cs)))
  }

  // ---------------------------------------------------------------------------
  // i286_opCF: IRET

  /** The end of a completed IRET: NMI is no longer blocked. */
  function UnblockNmi(s: State): State
  {
    s.(ctl := s.ctl.(inten := s.ctl.inten - {BlkNmi}))
  }

  /** IRET in real mode: pop IP, CS and the flags, then load CS. */
  function IretReal(env: Env, s: State): Out<()>
  {
    var (ip, s1) :- Pop(s);
    var (cs, s2) :- Pop(s1.(r := s1.r.(ip := ip)));
    var (fw, s3) :- Pop(s2);
    var (seg, s4) :- CashSeg(s3.(f := env.setFlag(s3.f, fw)), cs);
    Done(UnblockNmi(s4.(sg := s4.sg.(cs := seg))))
  }

  /**
   * IRET with NT set: the back link at TSS offset 0 names the task to return to; an LDT
   * selector or one past the GDT limit raises #TS(link), a TSS that is not busy #TS(link),
   * an absent one #NP(link); then the task switch.
   */
  function IretNested(s: State): Out<()>
  {
    var tss := SysWord(s, s.sys.tsdr, 0);
    if Has16(tss, 4) then Raise(s, IntTS, tss)
    else if TableOffset(tss) > s.sys.gdtr.limit then Raise(s, IntTS, tss)
    else
      var (seg, s1) :- CashSeg(s, tss);
      if seg.ar & 0x0f != 3 then Raise(s1, IntTS, tss)
      else if !seg.pr then Raise(s1, IntNP, tss)
      else SwitchTask(s1, tss, false, true)
  }

  /** The pops of a protected-mode IRET: IP, then CS (loaded at once), then the flags. */
  function PopFrame(env: Env, s: State): Out<()>
  {
    var (ip, s1) :- Pop(s);
    var (cs, s2) :- Pop(s1.(r := s1.r.(ip := ip)));
    var (seg, s3) :- CashSeg(s2, cs);
    var (fw, s4) :- Pop(s3.(sg := s3.sg.(cs := seg)));
    Done(s4.(f := env.setFlag(s4.f, fw)))
  }

  /**
   * IRET to the same level: a null selector raises #GP(0); RPL below CPL, a target that is
   * not code, a conforming one above CPL or a non-conforming one at another level #GP(ncs);
   * an absent one #NP(ncs); a return offset past its limit #GP(0). Then the pops.
   */
  function IretSameLevel(env: Env, s: State, nip: bv16, ncs: bv16, seg: Seg): Out<()>
  {
    var cpl := s.sg.cs.pl;
    if NullSel(ncs) then Raise(s, IntGP, 0)
    else if Rpl(ncs) < cpl then Raise(s, IntGP, ncs)
    else if !CodeAr(seg) then Raise(s, IntGP, ncs)
    else if Conforming(seg) && seg.pl > cpl then Raise(s, IntGP, ncs)
    else if !Conforming(seg) && seg.pl != cpl then Raise(s, IntGP, ncs)
    else if !seg.pr then Raise(s, IntNP, ncs)
    else if PastLimit(seg, nip) then Raise(s, IntGP, 0)
    else
      var (_, s1) :- PopFrame(env, s);
      Done(UnblockNmi(s1))
  }

  /**
   * IRET to an outer level: a null selector raises #GP(0); a target that is not code, a
   * conforming one at or below CPL or a non-conforming one whose DPL is not the selector's
   * RPL #GP(ncs); an absent one #NP(ncs). Then the pops, SP and SS after them.
   */
  function IretOuterLevel(env: Env, s: State, ncs: bv16, seg: Seg): Out<()>
  {
    var cpl := s.sg.cs.pl;
    if NullSel(ncs) then Raise(s, IntGP, 0)
    else if !CodeAr(seg) then Raise(s, IntGP, ncs)
    else if Conforming(seg) && seg.pl <= cpl then Raise(s, IntGP, ncs)
    else if !Conforming(seg) && seg.pl != Rpl(ncs) then Raise(s, IntGP, ncs)
    else if !seg.pr then Raise(s, IntNP, ncs)
    else
      var (_, s1) :- PopFrame(env, s);
      var (sp, s2) :- Pop(s1);
      var (ss, s3) :- Pop(s2);
      var (sseg, s4) :- CashSeg(s3, ss);
      Done(UnblockNmi(s4.(sg := s4.sg.(ss := sseg), r := s4.r.(sp := sp))))
  }

  /** A protected-mode IRET without NT, given the return offset and selector it checks and the level decision. */
  function IretProtected(env: Env, s: State, nip: bv16, ncs: bv16, same: bool): Out<()>
  {
    var (seg, s1) :- CashSeg(s, ncs);
    if same then IretSameLevel(env, s1, nip, ncs, seg) else IretOuterLevel(env, s1, ncs, seg)
  }

  /** The same-level test as written, `((ncs >> 3) & 0x60) == cpl`. */
  predicate SameLevelAsWritten(ncs: bv16, cpl: bv8)
  {
    Lo((ncs >> 3) & 0x60) == cpl
  }

  /** A return to the same level: the return selector's RPL is CPL. */
  predicate SameLevel(ncs: bv16, cpl: bv8)
  {
    Rpl(ncs) == cpl
  }

  /** The return frame IRET checks as written: the words at SS:0 and SS:2. */
  function FrameAsWritten(s: State): (bv16, bv16)
  {
    (SysWord(s, s.sg.ss, 0), SysWord(s, s.sg.ss, 2))
  }

  /** The word at SS:adr as a pop reads it: low byte at adr, high byte at adr+1. */
  function StackWord(s: State, adr: bv16): bv16
  {
    Word(Peek(s.mem, I286.At(s.sg.ss, Succ(adr))), Peek(s.mem, I286.At(s.sg.ss, adr)))
  }

  /** The return frame on top of the stack: the words at SS:SP and SS:SP+2. */
  function Frame(s: State): (bv16, bv16)
  {
    (StackWord(s, s.r.sp), StackWord(s, Add16(s.r.sp, 2)))
  }

  /**
   * i286_opCF, checking the frame it pops and deciding the level by the return selector's
   * RPL (see IretAsWritten).
   */
  function Iret(env: Env, s: State): Out<()>
  {
    if !PE(s) then IretReal(env, s)
    else if s.f.n then IretNested(s)
    else
      var (nip, ncs) := Frame(s);
      IretProtected(env, s, nip, ncs, SameLevel(ncs, s.sg.cs.pl))
  }

  /** i286_opCF as written: the frame is read at SS:0 and the level decided by SameLevelAsWritten. */
  function IretAsWritten(env: Env, s: State): Out<()>
  {
    if !PE(s) then IretReal(env, s)
    else if s.f.n then IretNested(s)
    else
      var (nip, ncs) := FrameAsWritten(s);
      IretProtected(env, s, nip, ncs, SameLevelAsWritten(ncs, s.sg.cs.pl))
  }
}
