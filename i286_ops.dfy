// The opcode handlers i286_op00 .. i286_opFF of the 80286 engine, one function per family
// of handlers that differ only in an operand: the ALU rows, the register rows, the string
// operations with their REP templates, the groups of the ModRM reg field, the stack frame
// instructions and the far transfers. Each function takes the state just after the opcode
// byte (and its prefixes) and yields the state after the handler, or where it stopped.
//
// The scratch fields a handler leaves behind for the next one (tmpw, twrd, tmpb, ea) are not
// part of the state; the few paths whose outcome depends on them stop with StaleScratch.

module I286Ops {
  import opened Common
  import opened I286
  import opened I286Ea
  import opened I286Alu
  import opened I286Prot

  // ---------------------------------------------------------------------------
  // Segment registers by name

  /** The segment registers in the order of the ModRM segment field and of the push/pop rows. */
  datatype SegName = ES | CS | SS | DS

  function SegReg(sg: Segs, n: SegName): Seg
  {
    match n
    case ES => sg.es
    case CS => sg.cs
    case SS => sg.ss
    case DS => sg.ds
  }

  function SetSegReg(sg: Segs, n: SegName, seg: Seg): Segs
  {
    match n
    case ES => sg.(es := seg)
    case CS => sg.(cs := seg)
    case SS => sg.(ss := seg)
    case DS => sg.(ds := seg)
  }

  /** The segment register of a two-bit field: ES, CS, SS, DS. */
  function SegNamed(k: bv8): SegName
  {
    var n := k & 3;
    if n == 0 then ES else if n == 1 then CS else if n == 2 then SS else DS
  }

  // ---------------------------------------------------------------------------
  // ALU rows 00..3D

  /** 00, 01, 08, 09 ... 38, 39: the EA operand combined with the reg-field register; CMP keeps the operand. */
  function AluToEa(env: Env, s: State, op: AluOp, wide: bool): Out<()>
  {
    var (e, s1) :- RdEa(s, wide);
    var (v, f) := Alu(env, op, s1.f, e.tmpw, e.twrd, wide);
    var s2 := s1.(f := f);
    if Stores(op) then WrEa(s2, e, v, wide) else Done(s2)
  }

  /** 02, 03, 0A, 0B ... 3A, 3B: the result goes to the reg-field register; SUB, SBB and CMP take the register first. */
  function AluToReg(env: Env, s: State, op: AluOp, wide: bool): Out<()>
  {
    var (e, s1) :- RdEa(s, wide);
    var (v, f) := if RegFirst(op) then Alu(env, op, s1.f, e.twrd, e.tmpw, wide)
                  else Alu(env, op, s1.f, e.tmpw, e.twrd, wide);
    if Stores(op) then Done(s1.(f := f, r := SetReg(s1.r, e.modrm, v, wide)))
    else Done(s1.(f := f))
  }

  /** 04, 05, 0C, 0D ... 3C, 3D: AL or AX combined with an immediate. */
  function AluToAcc(env: Env, s: State, op: AluOp, wide: bool): Out<()>
  {
    if wide then
      var (w, s1) :- FetchWord(s);
      var (v, f) := Alu16(env, op, s1.f, s1.r.ax, w);
      Done(s1.(f := f, r := if Stores(op) then s1.r.(ax := v) else s1.r))
    else
      var (b, s1) :- Fetch(s);
      var (v, f) := Alu8(env, op, s1.f, AL(s1.r), b);
      Done(s1.(f := f, r := if Stores(op) then SetAL(s1.r, v) else s1.r))
  }

  // ---------------------------------------------------------------------------
  // Segment push / pop and the prefixes

  /** 06, 0E, 16, 1E: push the selector of a segment register. */
  function PushSeg(s: State, n: SegName): Out<()>
  {
    Push(s, SegReg(s.sg, n).idx)
  }

  /** 07, 17, 1F: pop a selector and load its descriptor into the segment register. */
  function PopSeg(s: State, n: SegName): Out<()>
  {
    var (w, s1) :- Pop(s);
    var (seg, s2) :- CashSeg(s1, w);
    Done(s2.(sg := SetSegReg(s2.sg, n, seg)))
  }

  /** 26, 2E, 36, 3E: the segment-override prefix. */
  function Override(s: State, n: SegName): Out<()>
  {
    Done(s.(ovr := Some(SegReg(s.sg, n))))
  }

  /** 0F: the next opcode is read from the 0F page. */
  function Page0FPrefix(s: State): Out<()>
  {
    Done(s.(ctl := s.ctl.(tab := Page0F)))
  }

  /** F0 LOCK, F2 REPNZ, F3 REP / REPZ. */
  function LockPrefix(s: State): Out<()>
  {
    Done(s.(ctl := s.ctl.(lock := true)))
  }

  function RepPrefix(s: State, rep: Rep): Out<()>
  {
    Done(s.(ctl := s.ctl.(rep := rep)))
  }

  // ---------------------------------------------------------------------------
  // Decimal adjusts (27, 2F, 37, 3F) and AAM, AAD, SALC, XLAT

  /** AL, AH and the flags a decimal adjust works on. */
  function AccOf(s: State): Acc
  {
    Acc(AL(s.r), AH(s.r), s.f)
  }

  function WithAcc(s: State, x: Acc): State
  {
    s.(r := s.r.(ax := Word(x.ah, x.al)), f := x.f)
  }

  datatype Adjust = AdjDaa | AdjDas | AdjAaa | AdjAas

  function DecimalAdjust(env: Env, s: State, k: Adjust): Out<()>
  {
    var x := AccOf(s);
    match k
    case AdjDaa => Done(WithAcc(s, Daa(env, x)))
    case AdjDas => Done(WithAcc(s, Das(env, x)))
    case AdjAaa => Done(WithAcc(s, Aaa(x)))
    case AdjAas => Done(WithAcc(s, Aas(x)))
  }

  /** The number THROW(-1) raises for a divide error. */
  function DivideError(s: State): Out<()>
  {
    Fault(s, IntNum(-1))
  }

  /** D4 AAM: a zero base is a divide error. */
  function AamOp(env: Env, s: State): Out<()>
  {
    var (b, s1) :- Fetch(s);
    if b == 0 then DivideError(s1) else Done(WithAcc(s1, Aam(env, AccOf(s1), b)))
  }

  /** D5 AAD. */
  function AadOp(env: Env, s: State): Out<()>
  {
    var (b, s1) :- Fetch(s);
    Done(WithAcc(s1, Aad(env, AccOf(s1), b)))
  }

  /** i286_opD6 SALC: AL = FF when C is set, else 00 (the opcode table does not reach it). */
  function Salc(s: State): Out<()>
  {
    Done(s.(r := SetAL(s.r, if s.f.c then 0xff else 0x00)))
  }

  /** D7 XLAT: AL = the byte at DS:BX+AL (the override applies). */
  function Xlat(s: State): Out<()>
  {
    var (b, s1) :- Mrd(s, s.sg.ds, true, Add16(s.r.bx, Widen(AL(s.r))));
    Done(s1.(r := SetAL(s1.r, b)))
  }

  // ---------------------------------------------------------------------------
  // Register rows 40..5F, 90..97, B0..BF

  /** 40..47 INC and 48..4F DEC of a word register. */
  function IncDecReg(env: Env, s: State, n: bv8, dec: bool): Out<()>
  {
    var (v, f) := if dec then Dec16(env, s.f, Reg16(s.r, n)) else Inc16(env, s.f, Reg16(s.r, n));
    Done(s.(r := SetReg16(s.r, n, v), f := f))
  }

  /** 50..57: push a word register (PUSH SP pushes SP as it was). */
  function PushReg(s: State, n: bv8): Out<()>
  {
    Push(s, Reg16(s.r, n))
  }

  /** 58..5F: pop into a word register. */
  function PopReg(s: State, n: bv8): Out<()>
  {
    var (w, s1) :- Pop(s);
    Done(s1.(r := SetReg16(s1.r, n, w)))
  }

  /** 91..97: exchange AX with a word register (90 exchanges AX with itself). */
  function XchgAx(s: State, n: bv8): Out<()>
  {
    Done(s.(r := SetReg16(s.r.(ax := Reg16(s.r, n)), n, s.r.ax)))
  }

  /** B0..B7: a byte register from an immediate; B8..BF: a word register. */
  function MovRegImm(s: State, n: bv8, wide: bool): Out<()>
  {
    if wide then
      var (w, s1) :- FetchWord(s);
      Done(s1.(r := SetReg16(s1.r, n, w)))
    else
      var (b, s1) :- Fetch(s);
      Done(s1.(r := SetReg8(s1.r, n, b)))
  }

  // ---------------------------------------------------------------------------
  // 60..6B

  /** 60 PUSHA: AX CX DX BX, the SP the instruction started with, BP SI DI. */
  function Pusha(s: State): Out<()>
  {
    var (_, s1) :- Push(s, s.r.ax);
    var (_, s2) :- Push(s1, s.r.cx);
    var (_, s3) :- Push(s2, s.r.dx);
    var (_, s4) :- Push(s3, s.r.bx);
    var (_, s5) :- Push(s4, s.r.sp);
    var (_, s6) :- Push(s5, s.r.bp);
    var (_, s7) :- Push(s6, s.r.si);
    Push(s7, s.r.di)
  }

  /** 61 POPA: DI SI BP, a word that is dropped, BX DX CX AX. */
  function Popa(s: State): Out<()>
  {
    var (_, s1) :- PopReg(s, 7);
    var (_, s2) :- PopReg(s1, 6);
    var (_, s3) :- PopReg(s2, 5);
    var (_, s4) :- Pop(s3);
    var (_, s5) :- PopReg(s4, 3);
    var (_, s6) :- PopReg(s5, 2);
    var (_, s7) :- PopReg(s6, 1);
    PopReg(s7, 0)
  }

  /**
   * 62 BOUND: a register operand is undefined; the register below the lower bound (the word
   * at the EA) raises #BR, and so does one above the upper bound (the word at EA+2).
   */
  function Bound(s: State): Out<()>
  {
    var (e, s1) :- RdEa(s, true);
    match e.loc
    case InReg => Fault(s1, IntUD)
    case InMem(seg, adr) =>
      if SWord(e.twrd) < SWord(e.tmpw) then Fault(s1, IntBR)
      else
        var (hi, s2) :- ReadMem(s1, seg, Add16(adr, 2), true);
        if SWord(hi) < SWord(e.twrd) then Fault(s2, IntBR) else Done(s2)
  }

  /** 63 ARPL is undefined in real mode, and the protected-mode form is not written: #UD. */
  function Arpl(s: State): Out<()>
  {
    Fault(s, IntUD)
  }

  /** 68: push an immediate word; 6A: a sign-extended immediate byte. */
  function PushImm(s: State, wide: bool): Out<()>
  {
    if wide then
      var (w, s1) :- FetchWord(s);
      Push(s1, w)
    else
      var (b, s1) :- Fetch(s);
      Push(s1, SignExtend(b))
  }

  /** 69 and 6B: the reg-field register = EA word * immediate (word, or sign-extended byte), low 16 bits. */
  function ImulImm(env: Env, s: State, wide: bool): Out<()>
  {
    var (e, s1) :- RdEa(s, true);
    var (k, s2) :- if wide then FetchWord(s1)
                   else (var (b, t) :- Fetch(s1); Ok(SignExtend(b), t));
    var (p, f) := env.smul(s2.f, e.tmpw, k);
    Done(s2.(f := f, r := SetReg(s2.r, e.modrm, Low16(p), true)))
  }

  // ---------------------------------------------------------------------------
  // String operations

  /** The one-iteration callbacks of 6C..6F, A4..A7 and AA..AF; AC and AD run once. */
  datatype StrOp = Insb | Insw | Outsb | Outsw | Movsb | Movsw | Cmpsb | Cmpsw | Stosb | Stosw | Scasb | Scasw

  predicate WordOp(op: StrOp)
  {
    op.Insw? || op.Outsw? || op.Movsw? || op.Cmpsw? || op.Stosw? || op.Scasw?
  }

  /** An index register moved past one element: down when D is set, up otherwise. */
  function Advance(x: bv16, down: bool, wide: bool): bv16
  {
    if wide then (if down then Sub16(x, 2) else Add16(x, 2))
    else if down then Pred(x) else Succ(x)
  }

  /** The port-write callback: the write is recorded with the width flag flgWRD. */
  function PortOut(s: State, port: bv16, v: bv16, wide: bool): State
  {
    s.(outs := s.outs + [PortWrite(port, v, wide)])
  }

  function WithSi(s: State, wide: bool): State
  {
    s.(r := s.r.(si := Advance(s.r.si, s.f.d, wide)))
  }

  function WithDi(s: State, wide: bool): State
  {
    s.(r := s.r.(di := Advance(s.r.di, s.f.d, wide)))
  }

  /** A word at ES:DI, the destination segment with no override. */
  function WriteDest(s: State, v: bv16, wide: bool): Out<()>
  {
    var (_, s1) :- Mwr(s, s.sg.es, false, s.r.di, Lo(v));
    if wide then Mwr(s1, s1.sg.es, false, Succ(s.r.di), Hi(v)) else Done(s1)
  }

  /** A word (or byte) at ES:DI, with no override. */
  function ReadDest(s: State, wide: bool): Out<bv16>
  {
    var (lo, s1) :- Mrd(s, s.sg.es, false, s.r.di);
    if wide then
      var (hi, s2) :- Mrd(s1, s1.sg.es, false, Succ(s.r.di));
      Ok(Word(hi, lo), s2)
    else Ok(Widen(lo), s1)
  }

  /** A word (or byte) at DS:SI; the override applies. */
  function ReadSource(s: State, wide: bool): Out<bv16>
  {
    ReadMem(s, s.sg.ds, s.r.si, wide)
  }

  /** One iteration of a string operation. */
  function StringStep(env: Env, s: State, op: StrOp): Out<()>
  {
    var wide := WordOp(op);
    match op
    case Insb | Insw =>
      var (_, s1) :- WriteDest(s, env.ird(s.r.dx), wide);
      Done(WithDi(s1, wide))
    case Outsb | Outsw =>
      var (v, s1) :- ReadSource(s, wide);
      Done(WithSi(PortOut(s1, s1.r.dx, v, wide), wide))
    case Movsb | Movsw =>
      var (v, s1) :- ReadSource(s, wide);
      var (_, s2) :- WriteDest(s1, v, wide);
      Done(WithDi(WithSi(s2, wide), wide))
    case Cmpsb | Cmpsw =>
      var (a, s1) :- ReadSource(s, wide);
      var (b, s2) :- ReadDest(s1, wide);
      var (_, f) := Alu(env, SubOp, s2.f, a, b, wide);
      Done(WithDi(WithSi(s2.(f := f), wide), wide))
    case Stosb | Stosw =>
      var (_, s1) :- WriteDest(s, s.r.ax, wide);
      Done(WithDi(s1, wide))
    case Scasb | Scasw =>
      var (b, s1) :- ReadDest(s, wide);
      var (_, f) := Alu(env, SubOp, s1.f, s1.r.ax, b, wide);
      Done(WithDi(s1.(f := f), wide))
  }

  /**
   * i286_rep: with no prefix the operation runs once. With a prefix and CX = 0 nothing
   * happens; otherwise one iteration runs, CX drops by one and, while CX is not zero, IP
   * goes back to the start of the instruction so that it runs again.
   */
  function Repeat(env: Env, s: State, op: StrOp): Out<()>
  {
    if s.ctl.rep == RepNone then StringStep(env, s, op)
    else if s.r.cx == 0 then Done(s)
    else
      var (_, s1) :- StringStep(env, s, op);
      var cx := Pred(s1.r.cx);
      Done(s1.(r := s1.r.(cx := cx, ip := if cx != 0 then s1.ctl.oldpc else s1.r.ip)))
  }

  /**
   * i286_rep_fz, for CMPS and SCAS: CX drops before the iteration, and IP goes back only
   * while CX is not zero and Z is set under REPZ, or clear under REPNZ.
   */
  function RepeatFz(env: Env, s: State, op: StrOp): Out<()>
  {
    if s.ctl.rep == RepNone then StringStep(env, s, op)
    else if s.r.cx == 0 then Done(s)
    else
      var (_, s1) :- StringStep(env, s.(r := s.r.(cx := Pred(s.r.cx))), op);
      var again := s1.r.cx != 0 && ((s1.ctl.rep == RepZ && s1.f.z) || (s1.ctl.rep == RepNz && !s1.f.z));
      Done(if again then s1.(r := s1.r.(ip := s1.ctl.oldpc)) else s1)
  }

  /** The word forms refuse an index of FFFF: a zero word is pushed and #GP raised. */
  function PushZeroGP(s: State): Out<()>
  {
    var (_, s1) :- Push(s, 0);
    Fault(s1, IntGP)
  }

  /** The index registers an operation reads: SI for OUTS, DI for INS, STOS and SCAS, both for MOVS and CMPS. */
  predicate IndexAtTop(s: State, op: StrOp)
  {
    match op
    case Insw | Stosw | Scasw => s.r.di == 0xffff
    case Outsw => s.r.si == 0xffff
    case Movsw | Cmpsw => s.r.si == 0xffff || s.r.di == 0xffff
    case _ => false
  }

  /** 6C..6F, A4..A7, AA, AB, AE, AF: a string operation under its REP template. */
  function StringOp(env: Env, s: State, op: StrOp): Out<()>
  {
    if IndexAtTop(s, op) then PushZeroGP(s)
    else if op.Cmpsb? || op.Cmpsw? || op.Scasb? || op.Scasw? then RepeatFz(env, s, op)
    else Repeat(env, s, op)
  }

  /** AC LODSB and AD LODSW, with no REP template. */
  function Lods(s: State, wide: bool): Out<()>
  {
    if wide && s.r.si == 0xffff then PushZeroGP(s)
    else
      var (lo, s1) :- Mrd(s, s.sg.ds, true, s.r.si);
      var s2 := s1.(r := SetAL(s1.r, lo));
      if wide then
        var (hi, s3) :- Mrd(s2, s2.sg.ds, true, Succ(s.r.si));
        Done(WithSi(s3.(r := SetAH(s3.r, hi)), true))
      else Done(WithSi(s2, false))
  }

  // ---------------------------------------------------------------------------
  // Jumps

  /** i286_jr: a displacement byte; when the condition holds IP moves by it, sign-extended, and 4 cycles are added. */
  function Jr(s: State, cnd: bool): Out<()>
  {
    var (b, s1) :- Fetch(s);
    if cnd then Done(s1.(r := s1.r.(ip := Add16(s1.r.ip, SignExtend(b))), t := s1.t + 4))
    else Done(s1)
  }

  /** 70..7F. */
  function Jcc(s: State, c: Cond): Out<()>
  {
    Jr(s, Holds(s.f, c))
  }

  datatype LoopKind = LoopNz | LoopZ | LoopCx | Jcxz

  /** E0..E2: CX drops first, then the jump tests CX (and Z); E3 jumps when CX is zero. */
  function LoopOp(s: State, k: LoopKind): Out<()>
  {
    if k == Jcxz then Jr(s, s.r.cx == 0)
    else
      var cx := Pred(s.r.cx);
      var s1 := s.(r := s.r.(cx := cx));
      Jr(s1, cx != 0 && (k == LoopCx || (k == LoopZ) == s.f.z))
  }

  /** E8 CALL: the return address is pushed, then IP moves by the displacement word. */
  function CallNear(s: State): Out<()>
  {
    var (d, s1) :- FetchWord(s);
    var (_, s2) :- Push(s1, s1.r.ip);
    Done(s2.(r := s2.r.(ip := Add16(s2.r.ip, d))))
  }

  /** E9 JMP near: IP moves by the displacement word; EB JMP short: by a sign-extended byte, with no extra cycles. */
  function JmpNear(s: State, wide: bool): Out<()>
  {
    if wide then
      var (d, s1) :- FetchWord(s);
      Done(s1.(r := s1.r.(ip := Add16(s1.r.ip, d))))
    else
      var (b, s1) :- Fetch(s);
      Done(s1.(r := s1.r.(ip := Add16(s1.r.ip, SignExtend(b)))))
  }

  /** 9A CALLF and EA JMPF: offset, then selector. */
  function FarImm(s: State, call: bool): Out<()>
  {
    var (nip, s1) :- FetchWord(s);
    var (ncs, s2) :- FetchWord(s1);
    if call then Callf(s2, nip, ncs) else Jmpf(s2, nip, ncs)
  }

  // ---------------------------------------------------------------------------
  // 80..8F

  /** The immediate of the group 80..83: a byte (80, 82), a word (81) or a sign-extended byte (83). */
  datatype ImmKind = ImmByte | ImmWord | ImmSigned

  function Immediate(s: State, k: ImmKind): Out<bv16>
  {
    match k
    case ImmWord => FetchWord(s)
    case ImmByte => var (b, s1) :- Fetch(s); Ok(Widen(b), s1)
    case ImmSigned => var (b, s1) :- Fetch(s); Ok(SignExtend(b), s1)
  }

  /** 80..83: the ALU operation of the reg field on the EA and the immediate; /7 (CMP) writes nothing. */
  function Group1(env: Env, s: State, k: ImmKind): Out<()>
  {
    var wide := k != ImmByte;
    var (e, s1) :- RdEa(s, wide);
    var (b, s2) :- Immediate(s1, k);
    var op := AluOf(RegField(e.modrm));
    var (v, f) := Alu(env, op, s2.f, e.tmpw, b, wide);
    if Stores(op) then WrEa(s2.(f := f), e, v, wide) else Done(s2.(f := f))
  }

  /** 84, 85 TEST: AND for the flags only. */
  function TestEa(env: Env, s: State, wide: bool): Out<()>
  {
    var (e, s1) :- RdEa(s, wide);
    Done(s1.(f := Alu(env, AndOp, s1.f, e.tmpw, e.twrd, wide).1))
  }

  /** 86, 87 XCHG: the register goes to the EA, then the old EA value to the register. */
  function XchgEa(s: State, wide: bool): Out<()>
  {
    var (e, s1) :- RdEa(s, wide);
    var (_, s2) :- WrEa(s1, e, e.twrd, wide);
    Done(s2.(r := SetReg(s2.r, e.modrm, e.tmpw, wide)))
  }

  /** 88, 89 MOV ea, reg: the EA is not read. */
  function MovToEa(s: State, wide: bool): Out<()>
  {
    var (e, s1) :- GetEa(s, wide);
    WrEa(s1, e, GetReg(s1.r, e.modrm, wide), wide)
  }

  /** 8A, 8B MOV reg, ea. */
  function MovFromEa(s: State, wide: bool): Out<()>
  {
    var (e, s1) :- RdEa(s, wide);
    Done(s1.(r := SetReg(s1.r, e.modrm, e.tmpw, wide)))
  }

  /** 8C MOV ea, sreg: bits 3..4 of the ModRM byte name the segment register. */
  function MovFromSeg(s: State): Out<()>
  {
    var (e, s1) :- GetEa(s, true);
    WrEa(s1, e, SegReg(s1.sg, SegNamed(RegField(e.modrm))).idx, true)
  }

  /** 8D LEA: the offset of a memory operand into the register; a register operand is #UD. */
  function Lea(s: State): Out<()>
  {
    var (e, s1) :- GetEa(s, false);
    match e.loc
    case InReg => Fault(s1, IntUD)
    case InMem(_, adr) => Done(s1.(r := SetReg(s1.r, e.modrm, adr, true)))
  }

  /** 8E MOV sreg, ea: reg field 0 loads ES, 2 SS, 3 DS; CS (1) and 4..7 load nothing. */
  function MovToSeg(s: State): Out<()>
  {
    var (e, s1) :- RdEa(s, true);
    var k := RegField(e.modrm);
    if k == 0 || k == 2 || k == 3 then
      var (seg, s2) :- CashSeg(s1, e.tmpw);
      Done(s2.(sg := SetSegReg(s2.sg, SegNamed(k), seg)))
    else Done(s1)
  }

  /** 8F POP ea: the operand is resolved, the word popped, then stored at the operand. */
  function PopEa(s: State): Out<()>
  {
    var (e, s1) :- GetEa(s, false);
    var (w, s2) :- Pop(s1);
    PopStore(s2, e, w)
  }

  /** The store of 8F: a register operand is the r/m register. */
  function PopStore(s: State, e: Ea, w: bv16): Out<()>
  {
    WrEa(s, e, w, true)
  }

  /** 8F as written: i286_op8F, which for a register operand sets the reg-field register. */
  function PopEaAsWritten(s: State): Out<()>
  {
    var (e, s1) :- GetEa(s, false);
    var (w, s2) :- Pop(s1);
    PopStoreAsWritten(s2, e, w)
  }

  function PopStoreAsWritten(s: State, e: Ea, w: bv16): Out<()>
  {
    if e.loc.InReg? then Done(s.(r := SetReg(s.r, e.modrm, w, true))) else WrEa(s, e, w, true)
  }

  // ---------------------------------------------------------------------------
  // 98..9F

  /** 98 CBW, 99 CWD. */
  function SignExtendAcc(s: State, wide: bool): Out<()>
  {
    Done(s.(r := if wide then Cwd(s.r) else Cbw(s.r)))
  }

  /** 9B WAIT: MP raises #NM; otherwise a pending x87 exception (bit 7 of its status word) raises #MF. */
  function Wait(s: State): Out<()>
  {
    var msw := s.sys.msw;
    if msw.mp then Fault(s, IntNM)
    else if msw.ts && msw.mp then Fault(s, IntNM)
    else if Has16(s.sys.x87sr, 0x80) then Fault(s, IntMF)
    else Done(s)
  }

  /** 9C PUSHF. */
  function Pushf(env: Env, s: State): Out<()>
  {
    Push(s, env.getFlag(s.f))
  }

  /** The flags POPF keeps in protected mode: N always, IOPL unless CPL is 0, I unless CPL <= the new IOPL. */
  function PopfFlags(env: Env, f: Flags, w: bv16, cpl: bv8): Flags
  {
    var f1 := env.setFlag(f, w).(n := f.n);
    var f2 := if cpl == 0 then f1 else f1.(iopl := f.iopl);
    if cpl <= f2.iopl then f2 else f2.(i := f.i)
  }

  /** 9D POPF: real mode takes the popped word as it is. */
  function Popf(env: Env, s: State): Out<()>
  {
    var (w, s1) :- Pop(s);
    if PE(s1) then Done(s1.(f := PopfFlags(env, s1.f, w, s1.sg.cs.pl)))
    else Done(s1.(f := env.setFlag(s1.f, w)))
  }

  /** 9E SAHF, 9F LAHF. */
  function Sahf(env: Env, s: State): Out<()>
  {
    Done(s.(f := env.setFlag(s.f, SahfWord(env.getFlag(s.f), AH(s.r)))))
  }

  function Lahf(env: Env, s: State): Out<()>
  {
    Done(s.(r := SetAH(s.r, LahfByte(AH(s.r), env.getFlag(s.f)))))
  }

  // ---------------------------------------------------------------------------
  // A0..A3, A8, A9

  /** A0 / A1: AL or AX from DS:offset (override applies); the word form refuses offset FFFF. */
  function LoadAcc(s: State, wide: bool): Out<()>
  {
    var (a, s1) :- FetchWord(s);
    if wide && a == 0xffff then PushZeroGP(s1)
    else
      var (lo, s2) :- Mrd(s1, s1.sg.ds, true, a);
      var s3 := s2.(r := SetAL(s2.r, lo));
      if wide then
        var (hi, s4) :- Mrd(s3, s3.sg.ds, true, Succ(a));
        Done(s4.(r := SetAH(s4.r, hi)))
      else Done(s3)
  }

  /** A2 / A3: AL or AX to DS:offset. */
  function StoreAcc(s: State, wide: bool): Out<()>
  {
    var (a, s1) :- FetchWord(s);
    if wide && a == 0xffff then PushZeroGP(s1)
    else
      var (_, s2) :- Mwr(s1, s1.sg.ds, true, a, AL(s1.r));
      if wide then Mwr(s2, s2.sg.ds, true, Succ(a), AH(s2.r)) else Done(s2)
  }

  /** A8 / A9 TEST AL / AX with an immediate. */
  function TestAcc(env: Env, s: State, wide: bool): Out<()>
  {
    var (k, s1) :- Immediate(s, if wide then ImmWord else ImmByte);
    Done(s1.(f := Alu(env, AndOp, s1.f, s1.r.ax, k, wide).1))
  }

  // ---------------------------------------------------------------------------
  // The shift group C0, C1, D0..D3

  /** Where the count comes from: an immediate byte (C0, C1), 1 (D0, D1) or CL (D2, D3). */
  datatype CountFrom = CountImm | CountOne | CountCl

  function ShiftCountOf(s: State, c: CountFrom): Out<bv8>
  {
    match c
    case CountImm => Fetch(s)
    case CountOne => Ok(1, s)
    case CountCl => Ok(Lo(s.r.cx), s)
  }

  /**
   * i286_rotsh8 on the operand `e`: the rotate of the reg field repeated for the low five
   * bits of the count, one cycle per repeat.
   */
  function RotSh8(env: Env, s: State, e: Ea, cnt: bv8): (bv8, State)
  {
    var n := ShiftCount(cnt);
    var (v, f) := RotTimes8(env, RotOf(RegField(e.modrm)), s.f, Lo(e.tmpw), n);
    (v, s.(f := f, t := s.t + n))
  }

  /** i286_rotsh16, charging one cycle per repeat as the byte form does. */
  function RotSh16(env: Env, s: State, e: Ea, cnt: bv8): (bv16, State)
  {
    var n := ShiftCount(cnt);
    var (v, f) := RotTimes16(env, RotOf(RegField(e.modrm)), s.f, e.tmpw, n);
    (v, s.(f := f, t := s.t + n))
  }

  /**
   * i286_rotsh16 as written: it charges `tmpb` cycles, the scratch byte, which C1 has just
   * set to the unmasked count and which D1 and D3 do not set at all.
   */
  function RotSh16AsWritten(env: Env, s: State, e: Ea, cnt: bv8, tmpb: bv8): (bv16, State)
  {
    var n := ShiftCount(cnt);
    var (v, f) := RotTimes16(env, RotOf(RegField(e.modrm)), s.f, e.tmpw, n);
    (v, s.(f := f, t := s.t + tmpb as nat))
  }

  /** C0, C1, D0..D3: read the operand, the count, rotate, write back. */
  function Shift(env: Env, s: State, wide: bool, c: CountFrom): Out<()>
  {
    var (e, s1) :- RdEa(s, wide);
    var (cnt, s2) :- ShiftCountOf(s1, c);
    if wide then
      var (v, s3) := RotSh16(env, s2, e, cnt);
      WrEa(s3, e, v, true)
    else
      var (v, s3) := RotSh8(env, s2, e, cnt);
      WrEa(s3, e, Widen(v), false)
  }

  // ---------------------------------------------------------------------------
  // C2..CF

  /** C3 RET; C2 RET imm: SP then rises by the immediate. */
  function RetNear(s: State, imm: bool): Out<()>
  {
    var (k, s1) :- if imm then FetchWord(s) else Ok(0, s);
    var (ip, s2) :- Pop(s1);
    Done(s2.(r := s2.r.(ip := ip, sp := Add16(s2.r.sp, k))))
  }

  /**
   * C4 LES / C5 LDS: offset and selector from the memory operand, the descriptor loaded,
   * the offset into the register. The register form reads through the scratch EA that an
   * earlier instruction left.
   */
  function LoadFar(s: State, n: SegName): Out<()>
  {
    var (e, s1) :- RdEa(s, true);
    match e.loc
    case InReg => Stop(StaleScratch, s1)
    case InMem(seg, adr) =>
      var (off, s2) :- ReadMem(s1, seg, adr, true);
      var (sel, s3) :- ReadMem(s2, seg, Add16(adr, 2), true);
      var (sg, s4) :- CashSeg(s3, sel);
      Done(s4.(sg := SetSegReg(s4.sg, n, sg), r := SetReg(s4.r, e.modrm, off, true)))
  }

  /** C6 / C7 MOV ea, imm: the operand is read first, as i286_rd_ea does. */
  function MovEaImm(s: State, wide: bool): Out<()>
  {
    var (e, s1) :- RdEa(s, wide);
    var (k, s2) :- Immediate(s1, if wide then ImmWord else ImmByte);
    WrEa(s2, e, k, wide)
  }

  /** One nesting copy of ENTER: BP drops by 2 and the word at DS:BP (override applies) is pushed. */
  function EnterCopy(s: State): Out<()>
  {
    var bp := Sub16(s.r.bp, 2);
    var s1 := s.(r := s.r.(bp := bp));
    var (w, s2) :- ReadMem(s1, s1.sg.ds, bp, true);
    Push(s2, w)
  }

  /** The nesting copies of ENTER: `k` of them, one after the other. */
  function EnterCopies(s: State, k: nat): Out<()>
    decreases k
  {
    if k == 0 then Done(s)
    else
      var (_, s1) :- EnterCopy(s);
      EnterCopies(s1, k - 1)
  }

  /** The nesting level of ENTER: the low five bits of its byte. */
  function Level(b: bv8): nat
  {
    (b & 0x1f) as nat
  }

  /**
   * C8 ENTER size, level: the cycle count is set to 11; BP is pushed and the frame pointer
   * is the SP after it; for a level L > 0, L-1 words are copied down from the old frame and
   * the frame pointer is pushed; BP = the frame pointer and SP drops by the size.
   */
  function Enter(s: State): Out<()>
  {
    var (size, s1) :- FetchWord(s.(t := 11));
    var (lv, s2) :- Fetch(s1);
    EnterFrame(s2, size, Level(lv))
  }

  /** ENTER once its operands are read. */
  function EnterFrame(s: State, size: bv16, level: nat): Out<()>
  {
    var (_, s1) :- Push(s, s.r.bp);
    var frame := s1.r.sp;
    var (_, s2) :- EnterNested(s1, level, frame);
    Done(s2.(r := s2.r.(bp := frame, sp := Sub16(s2.r.sp, size))))
  }

  function EnterNested(s: State, level: nat, frame: bv16): Out<()>
  {
    if level == 0 then Done(s)
    else
      var (_, s1) :- EnterCopies(s, level - 1);
      Push(s1, frame)
  }

  /** C9 LEAVE: SP = BP, then BP is popped. */
  function Leave(s: State): Out<()>
  {
    var (w, s1) :- Pop(s.(r := s.r.(sp := s.r.bp)));
    Done(s1.(r := s1.r.(bp := w)))
  }

  /** CB RETF; CA RETF imm: SP then rises by the immediate, and so does the cycle count. */
  function RetFar(s: State, imm: bool): Out<()>
  {
    var (k, s1) :- if imm then FetchWord(s) else Ok(0, s);
    var (ip, s2) :- Pop(s1);
    var (sel, s3) :- Pop(s2.(r := s2.r.(ip := ip)));
    var (cs, s4) :- CashSeg(s3, sel);
    Done(s4.(sg := s4.sg.(cs := cs), r := s4.r.(sp := Add16(s4.r.sp, k)), t := s4.t + k as nat))
  }

  /** CC INT 3, CD INT imm, CE INTO (only when O is set): the interrupt routine takes over. */
  function IntOp(s: State, k: IntKind): Out<()>
  {
    match k
    case Int3 => Stop(Interrupt(IntNum(3)), s)
    case IntImm =>
      var (b, s1) :- Fetch(s);
      Stop(Interrupt(IntNum(b as int)), s1)
    case Into => if s.f.o then Stop(Interrupt(IntOF), s) else Done(s)
  }

  datatype IntKind = Int3 | IntImm | Into

  // ---------------------------------------------------------------------------
  // D8..DF, E4..EF

  /** D8..DF: the ModRM operand is resolved; EM raises #NM, a pending x87 exception #MF, else the x87 takes over. */
  function Fpu(s: State): Out<()>
  {
    var (_, s1) :- GetEa(s, true);
    if s1.sys.msw.em then Fault(s1, IntNM)
    else if Has16(s1.sys.x87sr, 0x80) then Fault(s1, IntMF)
    else Stop(Coprocessor, s1)
  }

  /** E4, E5 IN from an immediate port; EC, ED from DX. AL takes the low byte. */
  function PortIn(env: Env, s: State, wide: bool, dx: bool): Out<()>
  {
    var (p, s1) :- if dx then Ok(s.r.dx, s) else (var (b, t) :- Fetch(s); Ok(Widen(b), t));
    var v := env.ird(p);
    Done(s1.(r := if wide then s1.r.(ax := v) else SetAL(s1.r, Lo(v))))
  }

  /** E6, E7 OUT to an immediate port; EE, EF to DX. */
  function PortOutOp(s: State, wide: bool, dx: bool): Out<()>
  {
    var (p, s1) :- if dx then Ok(s.r.dx, s) else (var (b, t) :- Fetch(s); Ok(Widen(b), t));
    Done(PortOut(s1, p, if wide then s1.r.ax else Widen(AL(s1.r)), wide))
  }

  // ---------------------------------------------------------------------------
  // F4..FD

  /** F4 HLT: unless an enabled interrupt is requested and I is set, HALT is set and IP stays on the instruction. */
  function Hlt(s: State): Out<()>
  {
    if !(s.ctl.intrq * s.ctl.inten != {} && s.f.i) then
      Done(s.(ctl := s.ctl.(halt := true), r := s.r.(ip := s.ctl.oldpc)))
    else Done(s.(ctl := s.ctl.(halt := false)))
  }

  datatype FlagOp = Cmc | Clc | Stc | Cld | Std

  /** F5 CMC, F8 CLC, F9 STC, FC CLD, FD STD. */
  function FlagSet(s: State, k: FlagOp): Out<()>
  {
    match k
    case Cmc => Done(s.(f := s.f.(c := !s.f.c)))
    case Clc => Done(s.(f := s.f.(c := false)))
    case Stc => Done(s.(f := s.f.(c := true)))
    case Cld => Done(s.(f := s.f.(d := false)))
    case Std => Done(s.(f := s.f.(d := true)))
  }

  /** FA CLI, FB STI: allowed when CPL <= IOPL; otherwise a zero word is pushed and #GP raised. */
  function SetIf(s: State, on: bool): Out<()>
  {
    if CheckIopl(s) then Done(s.(f := s.f.(i := on))) else PushZeroGP(s)
  }

  // ---------------------------------------------------------------------------
  // The groups F6, F7, FE, FF

  /** F6: TEST (/0, /1), NOT, NEG, MUL, IMUL, DIV, IDIV on a byte operand. */
  function GroupF6(env: Env, s: State): Out<()>
  {
    var (e, s1) :- RdEa(s, false);
    var k := RegField(e.modrm);
    var b := Lo(e.tmpw);
    if k == 0 || k == 1 then
      var (m, s2) :- Fetch(s1);
      Done(s2.(f := env.and8(s2.f, b, m).1))
    else if k == 2 then WrEa(s1, e, Widen(b ^ 0xff), false)
    else if k == 3 then
      var (v, f) := env.sub8(s1.f, 0, b, false);
      WrEa(s1.(f := f), e, Widen(v), false)
    else if k == 4 then var (r, f) := MulByte(s1.r, s1.f, b); Done(s1.(r := r, f := f))
    else if k == 5 then var (r, f) := ImulByte(s1.r, s1.f, b); Done(s1.(r := r, f := f))
    else
      var q := if k == 6 then DivByte(s1.r, b) else IdivByte(s1.r, b);
      if q.None? then DivideError(s1) else Done(s1.(r := q.value))
  }

  /** DX:AX as a signed 32-bit number. */
  function SDword(dx: bv16, ax: bv16): int
  {
    SWord(dx) * 0x10000 + ax as int
  }

  /**
   * F7 /7 IDIV ew as the handler is written: a zero divisor is a divide error, and so is a
   * quotient above FFFF of `tmpi` by the signed operand, where `tmpi` is what i286_get_ea
   * left there (-1 for a register operand, 0 for memory); DX:AX divided by the signed
   * operand, rounded toward zero, then gives AX and DX.
   */
  function IdivWord(r: Regs, w: bv16, tmpi: int): Option<Regs>
  {
    if w == 0 then None
    else if TruncDiv(tmpi, SWord(w)) > 0xffff then None
    else
      var n := SDword(r.dx, r.ax);
      Some(r.(ax := Low16(TruncDiv(n, SWord(w))), dx := Low16(TruncMod(n, SWord(w)))))
  }

  /** The value i286_get_ea leaves in tmpi. */
  function EaTmpi(e: Ea): int
  {
    if e.loc.InReg? then -1 else 0
  }

  /** F7: the same on a word operand. */
  function GroupF7(env: Env, s: State): Out<()>
  {
    var (e, s1) :- RdEa(s, true);
    var k := RegField(e.modrm);
    var w := e.tmpw;
    if k == 0 || k == 1 then
      var (m, s2) :- FetchWord(s1);
      Done(s2.(f := env.and16(s2.f, w, m).1))
    else if k == 2 then WrEa(s1, e, w ^ 0xffff, true)
    else if k == 3 then
      var (v, f) := env.sub16(s1.f, 0, w, false);
      WrEa(s1.(f := f), e, v, true)
    else if k == 4 then var (r, f) := MulWord(s1.r, s1.f, w); Done(s1.(r := r, f := f))
    else if k == 5 then var (r, f) := ImulWord(s1.r, s1.f, w); Done(s1.(r := r, f := f))
    else
      var q := if k == 6 then DivWord(s1.r, w) else IdivWord(s1.r, w, EaTmpi(e));
      if q.None? then DivideError(s1) else Done(s1.(r := q.value))
  }

  /** FE: /0 INC and /1 DEC of a byte operand; the other reg fields read the operand and do nothing. */
  function GroupFE(env: Env, s: State): Out<()>
  {
    var (e, s1) :- RdEa(s, false);
    var k := RegField(e.modrm);
    if k == 0 then var (v, f) := Inc8(env, s1.f, Lo(e.tmpw)); WrEa(s1.(f := f), e, Widen(v), false)
    else if k == 1 then var (v, f) := Dec8(env, s1.f, Lo(e.tmpw)); WrEa(s1.(f := f), e, Widen(v), false)
    else Done(s1)
  }

  /**
   * FF: INC, DEC, CALL ew, CALLF ed, JMP ew, JMPF ed, PUSH ew; /7 does nothing. The far
   * forms read the selector at EA+2; their register form reads through a stale EA.
   */
  function GroupFF(env: Env, s: State): Out<()>
  {
    var (e, s1) :- RdEa(s, true);
    var k := RegField(e.modrm);
    var w := e.tmpw;
    if k == 0 then var (v, f) := Inc16(env, s1.f, w); WrEa(s1.(f := f), e, v, true)
    else if k == 1 then var (v, f) := Dec16(env, s1.f, w); WrEa(s1.(f := f), e, v, true)
    else if k == 2 then
      var (_, s2) :- Push(s1, s1.r.ip);
      Done(s2.(r := s2.r.(ip := w)))
    else if k == 3 || k == 5 then
      match e.loc
      case InReg => Stop(StaleScratch, s1)
      case InMem(seg, adr) =>
        var (sel, s2) :- ReadMem(s1, seg, Add16(adr, 2), true);
        if k == 3 then Callf(s2, w, sel) else Jmpf(s2, w, sel)
    else if k == 4 then Done(s1.(r := s1.r.(ip := w)))
    else if k == 6 then Push(s1, w)
    else Done(s1)
  }

  /** An opcode with no handler (i8086_nodef): #UD. */
  function Undefined(s: State): Out<()>
  {
    Fault(s, IntUD)
  }
}
