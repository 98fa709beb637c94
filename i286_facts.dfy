// Properties of the 80286 engine: the segment-rights predicates, the descriptor cache
// and the stack.

module I286Facts {
  import opened Common
  import opened I286

  // ---------------------------------------------------------------------------
  // The segment rights

  /** With MSW.PE clear every check passes. */
  lemma RealModeChecksPass(s: State, seg: Seg, adr: bv16)
    requires !PE(s)
    ensures CheckLimit(s, seg, adr) && CheckExec(s, seg) && CheckRd(s, seg) && CheckWr(s, seg) && CheckIopl(s)
  {
  }

  /** In protected mode a system segment (S clear) is neither executable, readable nor writeable. */
  lemma SystemSegmentClosed(s: State, seg: Seg)
    requires PE(s) && !HasAny(seg.ar, 0x10)
    ensures !CheckExec(s, seg) && !CheckRd(s, seg) && !CheckWr(s, seg)
  {
  }

  /** A code segment is executable and never writeable; it is readable exactly when AR bit 1 is set. */
  lemma CodeSegmentRights(s: State, seg: Seg)
    requires PE(s) && HasAny(seg.ar, 0x10) && HasAny(seg.ar, 0x08)
    ensures CheckExec(s, seg) && !CheckWr(s, seg)
    ensures CheckRd(s, seg) <==> HasAny(seg.ar, 0x02)
  {
  }

  /** A data segment is readable and not executable; it is writeable exactly when AR bit 1 is set. */
  lemma DataSegmentRights(s: State, seg: Seg)
    requires PE(s) && HasAny(seg.ar, 0x10) && !HasAny(seg.ar, 0x08)
    ensures CheckRd(s, seg) && !CheckExec(s, seg)
    ensures CheckWr(s, seg) <==> HasAny(seg.ar, 0x02)
  {
  }

  /** Whatever may be written may be read. */
  lemma WriteableIsReadable(s: State, seg: Seg)
    requires CheckWr(s, seg)
    ensures CheckRd(s, seg)
  {
  }

  /** In protected mode the limit check passes exactly for offsets up to the limit. */
  lemma LimitCheck(s: State, seg: Seg, adr: bv16)
    requires PE(s)
    ensures CheckLimit(s, seg, adr) <==> adr <= seg.limit
  {
  }

  /** In protected mode CLI/STI are allowed exactly when CPL <= IOPL. */
  lemma IoplCheck(s: State)
    requires PE(s)
    ensures CheckIopl(s) <==> s.sg.cs.pl <= s.f.iopl
  {
  }

  // ---------------------------------------------------------------------------
  // Properties of the descriptor cache

  /** The six descriptor bytes a segment cache entry stands for: limit, base, access byte. */
  function EncodeDescriptor(seg: Seg): seq<bv8>
  {
    [Lo(seg.limit), Hi(seg.limit), (seg.base & 0xff) as bv8, ((seg.base >> 8) & 0xff) as bv8,
     ((seg.base >> 16) & 0xff) as bv8,
     Bit(seg.pr, 0x80) | ((seg.pl & 3) << 5) | (seg.ar & 0x1f)]
  }

  /** Decoding loses nothing: the descriptor bytes are recovered from the cache entry. */
  lemma DescriptorLossless(b0: bv8, b1: bv8, b2: bv8, b3: bv8, b4: bv8, acc: bv8)
    ensures EncodeDescriptor(DecodeDescriptor(b0, b1, b2, b3, b4, acc)) == [b0, b1, b2, b3, b4, acc]
  {
    var d := DecodeDescriptor(b0, b1, b2, b3, b4, acc);
    WordHalves(b1, b0);
    BaseBytes(b2, b3, b4);
    AccessByte(acc);
  }

  lemma BaseBytes(b2: bv8, b3: bv8, b4: bv8)
    ensures var base := (b4 as bv32 << 16) | Word(b3, b2) as bv32;
      (base & 0xff) as bv8 == b2 && ((base >> 8) & 0xff) as bv8 == b3 && ((base >> 16) & 0xff) as bv8 == b4
  {
  }

  lemma AccessByte(acc: bv8)
    ensures Bit(HasAny(acc, 0x80), 0x80) | ((((acc >> 5) & 3) & 3) << 5) | ((acc & 0x1f) & 0x1f) == acc
  {
  }

  /**
   * The decoded attributes: every descriptor is exactly one of system, code and data;
   * system descriptors are marked readable and writeable and never expand-down; code is
   * never writeable and readable as bit 1 says; data is readable and writeable as bit 1 says.
   */
  lemma DescriptorKinds(b0: bv8, b1: bv8, b2: bv8, b3: bv8, b4: bv8, acc: bv8)
    ensures var d := DecodeDescriptor(b0, b1, b2, b3, b4, acc);
      (if d.sys then 1 else 0) + (if d.code then 1 else 0) + (if d.data then 1 else 0) == 1 &&
      (d.sys ==> d.rd && d.wr && !d.ext) &&
      (d.code ==> !d.wr && (d.rd <==> HasAny(acc, 0x02))) &&
      (d.data ==> d.rd && (d.wr <==> HasAny(acc, 0x02))) &&
      d.pl < 4 && d.ar < 0x20 && (d.pr <==> HasAny(acc, 0x80))
  {
  }

  /**
   * On a cached descriptor the protected-mode read and write checks agree with the
   * decoded attributes: a code or data segment passes exactly when it is marked
   * readable (writeable); a system segment never does.
   */
  lemma ChecksAgreeWithDescriptor(s: State, b0: bv8, b1: bv8, b2: bv8, b3: bv8, b4: bv8, acc: bv8)
    requires PE(s)
    ensures var d := DecodeDescriptor(b0, b1, b2, b3, b4, acc);
      (CheckRd(s, d) <==> !d.sys && d.rd) && (CheckWr(s, d) <==> !d.sys && d.wr) &&
      (CheckExec(s, d) <==> d.code)
  {
  }

  /** Real-mode segment loading: base sel<<4, limit FFFF, the selector kept; nothing else changes. */
  lemma RealModeCashSeg(s: State, sel: bv16)
    requires !PE(s)
    ensures CashSeg(s, sel).Ok? && CashSeg(s, sel).st == s
    ensures var g := CashSeg(s, sel).val; g.base == (sel as bv32) << 4 && g.limit == 0xffff && g.idx == sel
  {
  }

  /**
   * Protected-mode segment loading, the fault: a table offset past the limit of the
   * selector's table raises #GP(offset). The state does not change either way.
   */
  lemma ProtectedCashSegFault(s: State, sel: bv16)
    requires PE(s)
    ensures CashSeg(s, sel).st == s
    ensures CashSeg(s, sel).Stop? <==> OutsideTable(s, sel)
    ensures CashSeg(s, sel).Stop? ==> CashSeg(s, sel).why == Throw(IntGP, Some(TableOffset(sel)))
  {
  }

  /** A selector with bit 2 (TI) set names the LDT, otherwise the GDT. */
  lemma TableSelection(s: State, sel: bv16)
    ensures TableOf(s, sel) == if Has16(sel, 4) then s.sys.ldtr else s.sys.gdtr
  {
  }

  /**
   * Protected-mode segment loading, the load: the descriptor at the base of the
   * selector's table plus its table offset, with that offset as its selector.
   */
  lemma ProtectedCashSegLoad(s: State, sel: bv16)
    requires PE(s) && CashSeg(s, sel).Ok?
    ensures CashSeg(s, sel).val == CashSegA(s.mem, TableOf(s, sel).base + TableOffset(sel) as bv32).(idx := TableOffset(sel))
  {
    DescriptorAddress(s, sel);
  }

  lemma DescriptorAddress(s: State, sel: bv16)
    ensures DescriptorAt(s, sel) == TableOf(s, sel).base + TableOffset(sel) as bv32
  {
  }

  // ---------------------------------------------------------------------------
  // Properties of the stack

  /** In protected mode a push with SP < 2 raises the stack fault and changes nothing, SP included. */
  lemma PushShortStack(s: State, w: bv16)
    requires PE(s) && s.r.sp < 2
    ensures Push(s, w) == Stop(Throw(IntSS, None), s)
  {
  }

  /** Neighbouring offsets of a segment are distinct physical bytes, also across the wrap at FFFF. */
  lemma NeighbourBytes(seg: Seg, x: bv16)
    ensures I286.At(seg, x) != I286.At(seg, Succ(x))
  {
  }

  // The bus routines, one access at a time.

  /** A completed byte write stores the byte at base + offset of the segment it went through; real mode adds a cycle. */
  lemma MwrDone(s: State, seg: Seg, rpl: bool, adr: bv16, v: bv8)
    requires Mwr(s, seg, rpl, adr, v).Ok?
    ensures Mwr(s, seg, rpl, adr, v).st ==
      s.(mem := s.mem[I286.At(Eff(s, seg, rpl), adr) := v], t := if s.sys.prot then s.t else s.t + 1)
  {
  }

  /** A protected-mode byte write completes exactly when the segment is writeable and the offset is within its limit. */
  lemma MwrChecks(s: State, seg: Seg, rpl: bool, adr: bv16, v: bv8)
    requires s.sys.prot
    ensures Mwr(s, seg, rpl, adr, v).Ok? <==> CheckWr(s, Eff(s, seg, rpl)) && CheckLimit(s, Eff(s, seg, rpl), adr)
  {
  }

  /** A completed byte read yields the byte at base + offset and changes nothing but the clock. */
  lemma MrdDone(s: State, seg: Seg, rpl: bool, adr: bv16)
    requires Mrd(s, seg, rpl, adr).Ok?
    ensures Mrd(s, seg, rpl, adr).val == Peek(s.mem, I286.At(Eff(s, seg, rpl), adr))
    ensures Mrd(s, seg, rpl, adr).st == s.(t := if s.sys.prot then s.t else s.t + 1)
  {
  }

  /** A protected-mode byte read completes exactly when the segment is readable and the offset is within its limit. */
  lemma MrdChecks(s: State, seg: Seg, rpl: bool, adr: bv16)
    requires s.sys.prot
    ensures Mrd(s, seg, rpl, adr).Ok? <==> CheckRd(s, Eff(s, seg, rpl)) && CheckLimit(s, Eff(s, seg, rpl), adr)
  {
  }

  /** The state a push writes into: SP two lower. */
  function Lowered(s: State): State
  {
    s.(r := s.r.(sp := Pred(Pred(s.r.sp))))
  }

  /** A completed push passed the stack test and is the two byte writes into Lowered(s), low byte first. */
  lemma PushSteps(s: State, w: bv16)
    requires Push(s, w).Ok?
    ensures !(PE(s) && StackShort(s.r.sp))
    ensures var s1 := Lowered(s); var o1 := Mwr(s1, s.sg.ss, false, s1.r.sp, Lo(w));
      o1.Ok? && Push(s, w) == Mwr(o1.st, s.sg.ss, false, Succ(s1.r.sp), Hi(w))
  {
  }

  /**
   * What a push that completes leaves: SP two lower, the low byte of the word at SS:SP and
   * the high byte at SS:SP+1, no register but SP changed and the segments, flags, system
   * and control parts kept.
   */
  lemma PushLayout(s: State, w: bv16)
    requires Push(s, w).Ok?
    ensures var s1 := Push(s, w).st;
      s1.r == s.r.(sp := Pred(Pred(s.r.sp))) && s1.sg == s.sg && s1.f == s.f && s1.sys == s.sys &&
      s1.ctl == s.ctl && s1.ovr == s.ovr &&
      Peek(s1.mem, I286.At(s.sg.ss, s1.r.sp)) == Lo(w) &&
      Peek(s1.mem, I286.At(s.sg.ss, Succ(s1.r.sp))) == Hi(w)
  {
    PushSteps(s, w);
    var s1 := Lowered(s);
    var sp := s1.r.sp;
    var o1 := Mwr(s1, s.sg.ss, false, sp, Lo(w));
    MwrDone(s1, s.sg.ss, false, sp, Lo(w));
    MwrDone(o1.st, s.sg.ss, false, Succ(sp), Hi(w));
    NeighbourBytes(s.sg.ss, sp);
  }

  /**
   * In protected mode a completed push wrote both bytes within the limit of a writeable
   * stack segment: the word at the new SP lies within the limit and the segment is readable.
   */
  lemma PushedWithinLimit(s: State, w: bv16)
    requires s.sys.prot && PE(s) && Push(s, w).Ok?
    ensures var sp := Pred(Pred(s.r.sp));
      !PopPastLimit(sp, s.sg.ss.limit) && CheckLimit(s, s.sg.ss, sp) && CheckLimit(s, s.sg.ss, Succ(sp)) &&
      CheckRd(s, s.sg.ss)
  {
    var sp := Pred(Pred(s.r.sp));
    FirstByteChecked(s, w);
    SecondByteChecked(s, w);
    WriteableIsReadable(s, s.sg.ss);
    LimitCheck(s, s.sg.ss, Succ(sp));
    StackRoom(s.r.sp, s.sg.ss.limit);
  }

  /** The checks a pop right after a completed push makes, stated on the state before the push. */
  lemma PushedChecks(s: State, w: bv16)
    requires s.sys.prot || !PE(s)
    requires Push(s, w).Ok?
    ensures var sp := Pred(Pred(s.r.sp));
      PE(s) ==>
        (!PopPastLimit(sp, s.sg.ss.limit) && CheckLimit(s, s.sg.ss, sp) && CheckLimit(s, s.sg.ss, Succ(sp)) &&
         CheckRd(s, s.sg.ss))
  {
    if PE(s) {
      PushedWithinLimit(s, w);
    }
  }

  lemma FirstByteChecked(s: State, w: bv16)
    requires s.sys.prot && PE(s) && Push(s, w).Ok?
    ensures !StackShort(s.r.sp) && CheckWr(s, s.sg.ss) && CheckLimit(s, s.sg.ss, Pred(Pred(s.r.sp)))
  {
    PushSteps(s, w);
    MwrChecks(Lowered(s), s.sg.ss, false, Pred(Pred(s.r.sp)), Lo(w));
  }

  lemma SecondByteChecked(s: State, w: bv16)
    requires s.sys.prot && PE(s) && Push(s, w).Ok?
    ensures CheckLimit(s, s.sg.ss, Succ(Pred(Pred(s.r.sp))))
  {
    PushSteps(s, w);
    var s1 := Lowered(s);
    var sp := s1.r.sp;
    var o1 := Mwr(s1, s.sg.ss, false, sp, Lo(w));
    MwrDone(s1, s.sg.ss, false, sp, Lo(w));
    var s2 := o1.st;
    assert PE(s2) && s2.sys.prot;
    MwrChecks(s2, s.sg.ss, false, Succ(sp), Hi(w));
  }

  lemma StackRoom(x: bv16, limit: bv16)
    requires !StackShort(x) && Succ(Pred(Pred(x))) <= limit
    ensures !PopPastLimit(Pred(Pred(x)), limit)
  {
  }

  /** A stack read whose checks pass completes, yields the byte at SS:adr and changes only the clock. */
  lemma StackByteRead(s: State, adr: bv16)
    requires s.sys.prot || !PE(s)
    requires PE(s) ==> CheckRd(s, s.sg.ss) && CheckLimit(s, s.sg.ss, adr)
    ensures Mrd(s, s.sg.ss, false, adr) ==
      Ok(Peek(s.mem, I286.At(s.sg.ss, adr)), s.(t := if s.sys.prot then s.t else s.t + 1))
  {
  }

  /**
   * A pop whose checks pass yields the word at SS:SP, low byte first, and moves SP two
   * up; no other register changes.
   */
  lemma PopReads(t: State)
    requires t.sys.prot || !PE(t)
    requires PE(t) ==>
      (!PopPastLimit(t.r.sp, t.sg.ss.limit) && CheckRd(t, t.sg.ss) &&
       CheckLimit(t, t.sg.ss, t.r.sp) && CheckLimit(t, t.sg.ss, Succ(t.r.sp)))
    ensures Pop(t).Ok?
    ensures Pop(t).val == Word(Peek(t.mem, I286.At(t.sg.ss, Succ(t.r.sp))), Peek(t.mem, I286.At(t.sg.ss, t.r.sp)))
    ensures Pop(t).st.r == t.r.(sp := Succ(Succ(t.r.sp)))
  {
    var sp := t.r.sp;
    StackByteRead(t, sp);
    var t1 := t.(t := if t.sys.prot then t.t else t.t + 1);
    StackByteRead(t1, Succ(sp));
  }

  /**
   * Pop undoes push: when the bus checks and the stack checks use the same rules (the
   * protected-mode bus, or real mode throughout), a pop right after a completed push
   * completes, returns the pushed word and restores every register, SP included.
   */
  lemma PopAfterPush(s: State, w: bv16)
    requires s.sys.prot || !PE(s)
    requires Push(s, w).Ok?
    ensures Pop(Push(s, w).st).Ok?
    ensures Pop(Push(s, w).st).val == w && Pop(Push(s, w).st).st.r == s.r
  {
    PushLayout(s, w);
    PushedChecks(s, w);
    PopOfPushed(s, Push(s, w).st, w);
  }

  /** The pop half of PopAfterPush, on the facts PushLayout and PushedChecks state about the pushed state. */
  lemma PopOfPushed(s: State, s1: State, w: bv16)
    requires s.sys.prot || !PE(s)
    requires s1.r == s.r.(sp := Pred(Pred(s.r.sp))) && s1.sg == s.sg && s1.sys == s.sys
    requires Peek(s1.mem, I286.At(s.sg.ss, s1.r.sp)) == Lo(w) && Peek(s1.mem, I286.At(s.sg.ss, Succ(s1.r.sp))) == Hi(w)
    requires var sp := Pred(Pred(s.r.sp));
      PE(s) ==>
        (!PopPastLimit(sp, s.sg.ss.limit) && CheckLimit(s, s.sg.ss, sp) && CheckLimit(s, s.sg.ss, Succ(sp)) &&
         CheckRd(s, s.sg.ss))
    ensures Pop(s1).Ok? && Pop(s1).val == w && Pop(s1).st.r == s.r
  {
    PoppedChecks(s, s1, Pred(Pred(s.r.sp)));
    PopReads(s1);
    WordOfHalves(w);
    SpUpDown(s.r.sp);
  }

  lemma PoppedChecks(s: State, s1: State, sp: bv16)
    requires s.sys.prot || !PE(s)
    requires s1.r.sp == sp && s1.sg == s.sg && s1.sys == s.sys
    requires PE(s) ==>
      (!PopPastLimit(sp, s.sg.ss.limit) && CheckLimit(s, s.sg.ss, sp) && CheckLimit(s, s.sg.ss, Succ(sp)) &&
       CheckRd(s, s.sg.ss))
    ensures s1.sys.prot || !PE(s1)
    ensures PE(s1) ==>
      (!PopPastLimit(s1.r.sp, s1.sg.ss.limit) && CheckRd(s1, s1.sg.ss) &&
       CheckLimit(s1, s1.sg.ss, s1.r.sp) && CheckLimit(s1, s1.sg.ss, Succ(s1.r.sp)))
  {
    if PE(s) {
      SameStackLimit(s, s1, sp);
      SameStackLimit(s, s1, Succ(sp));
      SameStackRights(s, s1);
      SamePopLimit(s, s1, sp);
    }
  }

  lemma SameStackLimit(s: State, s1: State, a: bv16)
    requires s1.sg == s.sg && s1.sys == s.sys && CheckLimit(s, s.sg.ss, a)
    ensures CheckLimit(s1, s1.sg.ss, a)
  {
  }

  lemma SameStackRights(s: State, s1: State)
    requires s1.sg == s.sg && s1.sys == s.sys && CheckRd(s, s.sg.ss)
    ensures CheckRd(s1, s1.sg.ss) && PE(s1)  == PE(s)
  {
  }

  lemma SamePopLimit(s: State, s1: State, sp: bv16)
    requires s1.sg == s.sg && s1.r.sp == sp && !PopPastLimit(sp, s.sg.ss.limit)
    ensures !PopPastLimit(s1.r.sp, s1.sg.ss.limit)
  {
  }

  lemma SpUpDown(x: bv16)
    ensures Succ(Succ(Pred(Pred(x)))) == x
  {
    SuccPred(x);
    SuccPred(Pred(x));
  }

  // ---------------------------------------------------------------------------
  // The limit test of i286_pop as written

  /** The stack segment of the example: a writeable data segment at 1000 with limit FF. */
  function SmallStack(): Seg
  {
    Seg(0x10, 0x1000, 0x00ff, 0x12, 0, true, false, false, true, false, true, true)
  }

  /** A protected-mode processor whose stack is SmallStack with SP = 100, at the top. */
  function PopExample(): State
  {
    var z := Seg(0, 0, 0xffff, 0x1a, 0, true, false, true, false, false, true, false);
    State(Regs(0, 0, 0, 0, 0x0100, 0, 0, 0, 0),
          Flags(false, false, false, false, false, false, false, false, false, false, 0),
          Segs(z, z, SmallStack(), z), None,
          Sys(Msw(true, false, false, false), true, z, z, z, 0, 2),
          Ctl(RepNone, false, false, {}, {}, 0, Primary), map[], 0, [])
  }

  /** In the example the push completes and leaves SP = FE, so the word it wrote ends exactly at the limit FF. */
  lemma PopExamplePush(w: bv16)
    ensures Push(PopExample(), w).Ok?
    ensures Push(PopExample(), w).st.r.sp == 0xfe && Push(PopExample(), w).st.sg == PopExample().sg
    ensures PE(Push(PopExample(), w).st)
  {
  }

  /** As written, the pop faults on the word at SP = FE of a segment with limit FF, although both its bytes are within the limit. */
  lemma PopAsWrittenFaultsAtTop(t: State)
    requires PE(t) && t.r.sp == 0xfe && t.sg.ss.limit == 0xff
    ensures PopAsWritten(t) == Stop(Throw(IntSS, None), t)
    ensures CheckLimit(t, t.sg.ss, t.r.sp) && CheckLimit(t, t.sg.ss, Succ(t.r.sp))
  {
  }

  /**
   * The discrepancy: in the example a push completes, the pop right after it returns the
   * word (PopAfterPush), but i286_pop as written raises the stack fault instead.
   */
  lemma PopLimitAsWritten(w: bv16)
    ensures Push(PopExample(), w).Ok?
    ensures Pop(Push(PopExample(), w).st).Ok? && Pop(Push(PopExample(), w).st).val == w
    ensures PopAsWritten(Push(PopExample(), w).st).Stop?
  {
    PopExamplePush(w);
    PopAfterPush(PopExample(), w);
    PopAsWrittenFaultsAtTop(Push(PopExample(), w).st);
  }
}
