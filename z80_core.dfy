// The Z80 as the emulator keeps it: a CPU record whose fields the npTab handlers update in
// place. Each method is proved to leave the record as the corresponding function of
// z80_cpu.dfy says.

module Z80Core {
  import opened Common
  import opened Z80
  import Z80Tables

  /** The handler families, as Execute dispatches them. */
  datatype Group = Loads | Absolute | Arith | Accumulator | Jumps | Calls | Stack | Control

  function Family(ins: Instr): Group
  {
    match ins
    case Nop => Loads
    case LdPairImm(_) => Loads
    case StoreA(_) => Loads
    case LoadA(_) => Loads
    case LdImm(_) => Loads
    case Ld(_, _) => Loads
    case StoreHlAbs => Absolute
    case LoadHlAbs => Absolute
    case StoreAAbs => Absolute
    case LoadAAbs => Absolute
    case LdSpHl => Absolute
    case IncPair(_) => Arith
    case DecPair(_) => Arith
    case Inc(_) => Arith
    case Dec(_) => Arith
    case AddHl(_) => Arith
    case Alu(_, _) => Arith
    case Rlca => Accumulator
    case Rrca => Accumulator
    case Rla => Accumulator
    case Rra => Accumulator
    case Daa => Accumulator
    case Cpl => Accumulator
    case Scf => Accumulator
    case Ccf => Accumulator
    case Djnz => Jumps
    case Jr(_) => Jumps
    case Jp(_) => Jumps
    case JpHl => Jumps
    case Call(_) => Calls
    case Rst(_) => Calls
    case Ret(_) => Calls
    case Halt => Calls
    case Pop(_) => Stack
    case Push(_) => Stack
    case ExAf => Stack
    case Exx => Stack
    case ExDeHl => Stack
    case ExSpHl => Stack
    case Prefix(_) => Control
    case Out => Control
    case In => Control
    case Di => Control
    case Ei => Control
  }

  class Cpu {
    var r: Regs
    var mem: map<Addr, bv8>
    var ctl: Ctl
    var t: nat
    var haltIrqs: nat
    var outs: seq<PortWrite>

    /** The fields as one value. */
    function Snapshot(): State
      reads this
    {
      State(r, mem, ctl, t, haltIrqs, outs)
    }

    /** z80_mrd */
    method Mrd(adr: bv16) returns (v: bv8)
      ensures v == Rd(Snapshot(), adr)
    {
      v := if At(adr) in mem then mem[At(adr)] else 0xff;
    }

    /** z80_mwr */
    method Mwr(adr: bv16, v: bv8)
      modifies this
      ensures Snapshot() == Wr(old(Snapshot()), adr, v)
    {
      mem := mem[At(adr) := v];
    }

    /** `z80_mrd(cpu, cpu->regPC++)` */
    method FetchByte() returns (v: bv8)
      modifies this
      ensures (v, Snapshot()) == Fetch(old(Snapshot()))
    {
      v := Mrd(r.pc);
      r := r.(pc := Succ(r.pc));
    }

    /** Two fetches, low byte first. */
    method FetchWord() returns (w: bv16)
      modifies this
      ensures (w, Snapshot()) == Fetch16(old(Snapshot()))
    {
      var lo := FetchByte();
      var hi := FetchByte();
      w := Word(hi, lo);
    }

    /** `z80_mwr(cpu, --cpu->regSP, v)` */
    method PushByte(v: bv8)
      modifies this
      ensures Snapshot() == PushB(old(Snapshot()), v)
    {
      r := r.(sp := Pred(r.sp));
      Mwr(r.sp, v);
    }

    /** `z80_mrd(cpu, cpu->regSP++)` */
    method PopByte() returns (v: bv8)
      modifies this
      ensures (v, Snapshot()) == PopB(old(Snapshot()))
    {
      v := Mrd(r.sp);
      r := r.(sp := Succ(r.sp));
    }

    /** z80_push */
    method Push(w: bv16)
      modifies this
      ensures Snapshot() == PushW(old(Snapshot()), w)
    {
      PushByte(Hi(w));
      PushByte(Lo(w));
    }

    /** z80_pop */
    method Pop() returns (w: bv16)
      modifies this
      ensures (w, Snapshot()) == PopW(old(Snapshot()))
    {
      var lo := PopByte();
      var hi := PopByte();
      w := Word(hi, lo);
    }

    /** z80_call */
    method Call(adr: bv16)
      modifies this
      ensures Snapshot() == CallTo(old(Snapshot()), adr)
    {
      r := r.(wz := adr);
      Push(r.pc);
      r := r.(pc := r.wz);
    }

    /** z80_ret */
    method Ret()
      modifies this
      ensures Snapshot() == RetFrom(old(Snapshot()))
    {
      var w := Pop();
      r := r.(pc := w, wz := w);
    }
 
    // -------------------------------------------------------------------------
    // Registers

    method GetR8(x: Reg8) returns (v: bv8)
      ensures v == Get8(Snapshot(), x)
    {
      match x {
        case B => v := Hi(r.bc);
        case C => v := Lo(r.bc);
        case D => v := Hi(r.de);
        case E => v := Lo(r.de);
        case H => v := Hi(r.hl);
        case L => v := Lo(r.hl);
        case M => v := Mrd(r.hl);
        case A => v := r.a;
      }
    }

    method SetR8(x: Reg8, v: bv8)
      modifies this
      ensures Snapshot() == Set8(old(Snapshot()), x, v)
    {
      match x {
        case B => r := r.(bc := Word(v, Lo(r.bc)));
        case C => r := r.(bc := Word(Hi(r.bc), v));
        case D => r := r.(de := Word(v, Lo(r.de)));
        case E => r := r.(de := Word(Hi(r.de), v));
        case H => r := r.(hl := Word(v, Lo(r.hl)));
        case L => r := r.(hl := Word(Hi(r.hl), v));
        case M => Mwr(r.hl, v);
        case A => r := r.(a := v);
      }
    }

    method GetPairReg(p: RegPair) returns (w: bv16)
      ensures w == GetPair(Snapshot(), p)
    {
      match p {
        case BC => w := r.bc;
        case DE => w := r.de;
        case HL => w := r.hl;
        case SP => w := r.sp;
        case AF => w := Word(r.a, Pack(r.f));
      }
    }

    method SetPairReg(p: RegPair, w: bv16)
      modifies this
      ensures Snapshot() == SetPair(old(Snapshot()), p, w)
    {
      match p {
        case BC => r := r.(bc := w);
        case DE => r := r.(de := w);
        case HL => r := r.(hl := w);
        case SP => r := r.(sp := w);
        case AF => r := r.(a := Hi(w), f := Unpack(Lo(w)));
      }
    }

    // -------------------------------------------------------------------------
    // The handlers

    /** npr01 npr11 npr21 npr31 */
    method LdPairImm(p: RegPair)
      modifies this
      ensures Snapshot() == LdPairImmOp(old(Snapshot()), p)
    {
      var w := FetchWord();
      SetPairReg(p, w);
    }

    /** npr02 npr12 */
    method StoreA(p: RegPair)
      modifies this
      ensures Snapshot() == StoreAOp(old(Snapshot()), p)
    {
      var adr := GetPairReg(p);
      r := r.(wz := adr);
      Mwr(r.wz, r.a);
      r := r.(wz := Word(r.a, Lo(Succ(r.wz))));
    }

    /** npr0A npr1A */
    method LoadA(p: RegPair)
      modifies this
      ensures Snapshot() == LoadAOp(old(Snapshot()), p)
    {
      var adr := GetPairReg(p);
      var v := Mrd(adr);
      r := r.(a := v, wz := Succ(adr));
    }

    /** inc rr / dec rr */
    method StepPair(p: RegPair, up: bool)
      modifies this
      ensures Snapshot() == StepPairOp(old(Snapshot()), p, up)
    {
      var w := GetPairReg(p);
      SetPairReg(p, if up then Succ(w) else Pred(w));
    }

    /** inc r / dec r through z80_inc8 / z80_dec8; (hl) spends a T-state before the write. */
    method IncDec(inc: bool, x: Reg8, env: Env)
      modifies this
      ensures Snapshot() == IncDecOp(old(Snapshot()), inc, x, env)
    {
      var v := GetR8(x);
      var (v', f) := env.incDec(inc, r.f, v);
      r := r.(f := f);
      if x == M {
        t := t + 1;
      }
      SetR8(x, v');
    }

    /** ld r,n and ld (hl),n */
    method LdImm(x: Reg8)
      modifies this
      ensures Snapshot() == LdImmOp(old(Snapshot()), x)
    {
      var n := FetchByte();
      SetR8(x, n);
    }

    /** npr07 */
    method Rlca()
      modifies this
      ensures Snapshot() == RlcaOp(old(Snapshot()))
    {
      r := r.(a := (r.a << 1) | (r.a >> 7));
      r := r.(f := Undoc(r.f, r.a).(h := false, n := false, c := HasAny(r.a, 0x01)));
    }

    /** npr0F */
    method Rrca()
      modifies this
      ensures Snapshot() == RrcaOp(old(Snapshot()))
    {
      r := r.(f := r.f.(c := HasAny(r.a, 0x01)));
      r := r.(a := (r.a >> 1) | (r.a << 7));
      r := r.(f := Undoc(r.f, r.a).(h := false, n := false));
    }

    /** npr17 */
    method Rla()
      modifies this
      ensures Snapshot() == RlaOp(old(Snapshot()))
    {
      var tmp := r.a;
      r := r.(a := (r.a << 1) | Bit(r.f.c, 0x01));
      r := r.(f := Undoc(r.f, r.a).(h := false, n := false, c := HasAny(tmp, 0x80)));
    }

    /** npr1F */
    method Rra()
      modifies this
      ensures Snapshot() == RraOp(old(Snapshot()))
    {
      var tmp := r.a;
      r := r.(a := (r.a >> 1) | Bit(r.f.c, 0x80));
      r := r.(f := Undoc(r.f, r.a).(h := false, n := false, c := HasAny(tmp, 0x01)));
    }

    /** npr08 */
    method ExAf()
      modifies this
      ensures Snapshot() == ExAfOp(old(Snapshot()))
    {
      var ltw := r.a;
      r := r.(a := r.a', a' := ltw);
      var tmpi := Pack(r.f);
      r := r.(f := Unpack(r.f'));
      r := r.(f' := tmpi);
    }

    /** add hl,rr through z80_add16, which sets WZ to HL + 1 before it adds */
    method AddHl(p: RegPair, env: Env)
      modifies this
      ensures Snapshot() == AddHlOp(old(Snapshot()), p, env)
    {
      var w := GetPairReg(p);
      r := r.(wz := Succ(r.hl));
      var (sum, f) := env.add16(r.f, r.hl, w);
      r := r.(hl := sum, f := f);
    }

    /** The taken branch of jr and djnz. */
    method JumpBy(d: bv8)
      modifies this
      ensures Snapshot() == Jump(old(Snapshot()), d)
    {
      r := r.(pc := Disp(r.pc, d));
      r := r.(wz := r.pc);
      t := t + 5;
    }

    /** npr10 */
    method Djnz()
      modifies this
      ensures Snapshot() == DjnzOp(old(Snapshot()))
    {
      var d := FetchByte();
      r := r.(bc := LowerB(r.bc));
      if Hi(r.bc) != 0 {
        JumpBy(d);
      }
    }

    /** npr18 npr20 npr28 npr30 npr38 */
    method Jr(cc: Option<Cond>)
      modifies this
      ensures Snapshot() == JumpRel(old(Snapshot()), Taken(cc, old(r.f)))
    {
      var d := FetchByte();
      if Taken(cc, r.f) {
        JumpBy(d);
      }
    }

    /** npr22: WZ = nn; L written at WZ++, H at WZ. */
    method StoreHl(nn: bv16)
      modifies this
      ensures Snapshot() == StoreHlAt(old(Snapshot()), nn)
    {
      r := r.(wz := nn);
      Mwr(r.wz, Lo(r.hl));
      r := r.(wz := Succ(r.wz));
      Mwr(r.wz, Hi(r.hl));
    }

    /** npr2A: WZ = nn; L read from WZ++, H from WZ. */
    method LoadHl(nn: bv16)
      modifies this
      ensures Snapshot() == LoadHlAt(old(Snapshot()), nn)
    {
      var lo := Mrd(nn);
      r := r.(wz := Succ(nn));
      var hi := Mrd(r.wz);
      r := r.(hl := Word(hi, lo));
    }

    /** npr32 */
    method StoreAbsA(nn: bv16)
      modifies this
      ensures Snapshot() == StoreAAt(old(Snapshot()), nn)
    {
      Mwr(nn, r.a);
      r := r.(wz := Word(r.a, Lo(Succ(nn))));
    }

    /** npr3A */
    method LoadAbsA(nn: bv16)
      modifies this
      ensures Snapshot() == LoadAAt(old(Snapshot()), nn)
    {
      var v := Mrd(nn);
      r := r.(a := v, wz := Succ(nn));
    }

    /** npr22 npr2A npr32 npr3A: nn is fetched first. */
    method Abs(hl: bool, store: bool)
      modifies this
      ensures Snapshot() == AbsOp(old(Snapshot()), hl, store)
    {
      var nn := FetchWord();
      if hl {
        if store { StoreHl(nn); } else { LoadHl(nn); }
      } else {
        if store { StoreAbsA(nn); } else { LoadAbsA(nn); }
      }
    }

    /** npr27: the flags and A are read from daaTab. */
    method Daa()
      modifies this
      ensures Snapshot() == DaaOp(old(Snapshot()))
    {
      var i := Z80Tables.DaaIndex(r.a, r.f.c, r.f.n, r.f.h);
      DaaReadsTable(Snapshot());
      var fv := Z80Tables.DaaByte(i);
      var av := Z80Tables.DaaByte(i + 1);
      r := r.(f := Unpack(fv), a := av);
    }

    /** npr2F */
    method Cpl()
      modifies this
      ensures Snapshot() == CplOp(old(Snapshot()))
    {
      r := r.(a := r.a ^ 0xff);
      r := r.(f := Undoc(r.f, r.a).(h := true, n := true));
    }

    /** npr37 */
    method Scf()
      modifies this
      ensures Snapshot() == ScfOp(old(Snapshot()))
    {
      r := r.(f := Undoc(r.f, r.a).(h := false, n := false, c := true));
    }

    /** npr3F */
    method Ccf()
      modifies this
      ensures Snapshot() == CcfOp(old(Snapshot()))
    {
      r := r.(f := Undoc(r.f, r.a).(h := r.f.c, n := false, c := !r.f.c));
    }

    /** 40..7F but 76 */
    method Ld(dst: Reg8, src: Reg8)
      modifies this
      ensures Snapshot() == LdOp(old(Snapshot()), dst, src)
    {
      var v := GetR8(src);
      SetR8(dst, v);
    }

    /** npr76 */
    method Halt()
      modifies this
      ensures Snapshot() == HaltOp(old(Snapshot()))
    {
      if !ctl.halt {
        ctl := ctl.(halt := true);
        haltIrqs := haltIrqs + 1;
      }
      r := r.(pc := Pred(r.pc));
    }

    /** 80..BF and the immediate forms C6 CE .. FE */
    method Alu(op: AluOp, src: Operand, env: Env)
      modifies this
      ensures Snapshot() == AluOpOf(old(Snapshot()), op, src, env)
    {
      var v;
      if src.Imm? {
        v := FetchByte();
      } else {
        v := GetR8(src.r);
      }
      var (a, f) := env.alu(op, r.f, r.a, v);
      r := r.(a := a, f := f);
    }

    /** ret cc */
    method RetIf(cc: Option<Cond>)
      modifies this
      ensures Snapshot() == RetOp(old(Snapshot()), cc)
    {
      if Taken(cc, r.f) {
        Ret();
      }
    }

    /** pop rr */
    method PopPair(p: RegPair)
      modifies this
      ensures Snapshot() == PopOp(old(Snapshot()), p)
    {
      var w := Pop();
      SetPairReg(p, w);
    }

    /** push rr */
    method PushPair(p: RegPair)
      modifies this
      ensures Snapshot() == PushOp(old(Snapshot()), p)
    {
      var w := GetPairReg(p);
      Push(w);
    }

    /** jp cc,nn */
    method Jp(cc: Option<Cond>)
      modifies this
      ensures Snapshot() == JpOp(old(Snapshot()), cc)
    {
      var nn := FetchWord();
      r := r.(wz := nn);
      if Taken(cc, r.f) {
        r := r.(pc := r.wz);
      }
    }

    /** call cc,nn */
    method CallIf(cc: Option<Cond>)
      modifies this
      ensures Snapshot() == CallOp(old(Snapshot()), cc)
    {
      var nn := FetchWord();
      if Taken(cc, r.f) {
        t := t + 1;
        Call(nn);
      } else {
        r := r.(wz := nn);
      }
    }

    /** nprD3 */
    method Out()
      modifies this
      ensures Snapshot() == OutOp(old(Snapshot()))
    {
      var n := FetchByte();
      r := r.(wz := Word(r.a, n));
      outs := outs + [PortWrite(r.wz, r.a)];
      t := t + 4;
      r := r.(wz := Word(r.a, n + 1));
    }

    /** nprDB */
    method In(env: Env)
      modifies this
      ensures Snapshot() == InOp(old(Snapshot()), env)
    {
      var n := FetchByte();
      r := r.(wz := Word(r.a, n));
      var v := env.ird(r.wz);
      t := t + 4;
      r := r.(a := v, wz := Succ(r.wz));
    }

    /** nprD9 */
    method Exx()
      modifies this
      ensures Snapshot() == ExxOp(old(Snapshot()))
    {
      r := r.(bc := r.bc', bc' := r.bc);
      r := r.(de := r.de', de' := r.de);
      r := r.(hl := r.hl', hl' := r.hl);
    }

    /** nprE3 */
    method ExSpHl()
      modifies this
      ensures Snapshot() == ExSpHlOp(old(Snapshot()))
    {
      var tmpw := Pop();
      t := t + 1;
      Push(r.hl);
      t := t + 2;
      r := r.(hl := tmpw, wz := tmpw);
    }

    /** nprE9 and nprF9 */
    method FromHl(toSp: bool)
      modifies this
      ensures Snapshot() == FromHlOp(old(Snapshot()), toSp)
    {
      if toSp {
        r := r.(sp := r.hl);
      } else {
        r := r.(pc := r.hl);
      }
    }

    /** nprEB */
    method ExDeHl()
      modifies this
      ensures Snapshot() == ExDeHlOp(old(Snapshot()))
    {
      r := r.(de := r.hl, hl := r.de);
    }

    /** nprF3 */
    method Di()
      modifies this
      ensures Snapshot() == DiOp(old(Snapshot()))
    {
      ctl := ctl.(iff1 := false, iff2 := false, intZ80 := false);
    }

    /** nprFB */
    method Ei()
      modifies this
      ensures Snapshot() == EiOp(old(Snapshot()))
    {
      ctl := ctl.(iff1 := true, iff2 := true, noint := true, intZ80 := true);
    }
 
    /** The npTab handler for `ins`, run on the CPU. */
    method Execute(ins: Instr, env: Env)
      modifies this
      ensures Snapshot() == Run(old(Snapshot()), ins, env)
    {
      match Family(ins) {
        case Loads => ExecuteLoads(ins, env);
        case Absolute => ExecuteAbsolute(ins, env);
        case Arith => ExecuteArith(ins, env);
        case Accumulator => ExecuteAccumulator(ins, env);
        case Jumps => ExecuteJumps(ins, env);
        case Calls => ExecuteCalls(ins, env);
        case Stack => ExecuteStack(ins, env);
        case Control => ExecuteControl(ins, env);
      }
    }

    /** The register and immediate loads. */
    method ExecuteLoads(ins: Instr, env: Env)
      requires Family(ins) == Loads
      modifies this
      ensures Snapshot() == Run(old(Snapshot()), ins, env)
    {
      match ins {
        case Nop =>
        case LdPairImm(p) => LdPairImm(p);
        case StoreA(p) => StoreA(p);
        case LoadA(p) => LoadA(p);
        case LdImm(x) => LdImm(x);
        case Ld(dst, src) => Ld(dst, src);
        case _ => assert false;
      }
    }

    /** The (nn) loads and stores and LD SP,HL. */
    method ExecuteAbsolute(ins: Instr, env: Env)
      requires Family(ins) == Absolute
      modifies this
      ensures Snapshot() == Run(old(Snapshot()), ins, env)
    {
      match ins {
        case StoreHlAbs => Abs(true, true);
        case LoadHlAbs => Abs(true, false);
        case StoreAAbs => Abs(false, true);
        case LoadAAbs => Abs(false, false);
        case LdSpHl => FromHl(true);
        case _ => assert false;
      }
    }

    /** The 8- and 16-bit steps, ADD HL,rr and the ALU. */
    method ExecuteArith(ins: Instr, env: Env)
      requires Family(ins) == Arith
      modifies this
      ensures Snapshot() == Run(old(Snapshot()), ins, env)
    {
      match ins {
        case IncPair(p) => StepPair(p, true);
        case DecPair(p) => StepPair(p, false);
        case Inc(x) => IncDec(true, x, env);
        case Dec(x) => IncDec(false, x, env);
        case AddHl(p) => AddHl(p, env);
        case Alu(op, src) => Alu(op, src, env);
        case _ => assert false;
      }
    }

    /** The rotates of A, DAA and the flag instructions. */
    method ExecuteAccumulator(ins: Instr, env: Env)
      requires Family(ins) == Accumulator
      modifies this
      ensures Snapshot() == Run(old(Snapshot()), ins, env)
    {
      match ins {
        case Rlca => Rlca();
        case Rrca => Rrca();
        case Rla => Rla();
        case Rra => Rra();
        case Daa => Daa();
        case Cpl => Cpl();
        case Scf => Scf();
        case Ccf => Ccf();
        case _ => assert false;
      }
    }

    /** The jumps. */
    method ExecuteJumps(ins: Instr, env: Env)
      requires Family(ins) == Jumps
      modifies this
      ensures Snapshot() == Run(old(Snapshot()), ins, env)
    {
      match ins {
        case Djnz => Djnz();
        case Jr(cc) => Jr(cc);
        case Jp(cc) => Jp(cc);
        case JpHl => FromHl(false);
        case _ => assert false;
      }
    }

    /** Calls, restarts, returns and HALT. */
    method ExecuteCalls(ins: Instr, env: Env)
      requires Family(ins) == Calls
      modifies this
      ensures Snapshot() == Run(old(Snapshot()), ins, env)
    {
      match ins {
        case Call(cc) => CallIf(cc);
        case Rst(adr) => Call(adr);
        case Ret(cc) => RetIf(cc);
        case Halt => Halt();
        case _ => assert false;
      }
    }

    /** The stack and the exchanges. */
    method ExecuteStack(ins: Instr, env: Env)
      requires Family(ins) == Stack
      modifies this
      ensures Snapshot() == Run(old(Snapshot()), ins, env)
    {
      ghost var s := Snapshot();
      match ins {
        case Pop(p) => assert Run(s, ins, env) == PopOp(s, p); PopPair(p);
        case Push(p) => assert Run(s, ins, env) == PushOp(s, p); PushPair(p);
        case ExAf => assert Run(s, ins, env) == ExAfOp(s); ExAf();
        case Exx => assert Run(s, ins, env) == ExxOp(s); Exx();
        case ExDeHl => assert Run(s, ins, env) == ExDeHlOp(s); ExDeHl();
        case ExSpHl => assert Run(s, ins, env) == ExSpHlOp(s); ExSpHl();
        case _ => assert false;
      }
    }

    /** The prefixes, the ports and the interrupt flip-flops. */
    method ExecuteControl(ins: Instr, env: Env)
      requires Family(ins) == Control
      modifies this
      ensures Snapshot() == Run(old(Snapshot()), ins, env)
    {
      match ins {
        case Prefix(tab) => ctl := ctl.(tab := tab);
        case Out => Out();
        case In => In(env);
        case Di => Di();
        case Ei => Ei();
        case _ => assert false;
      }
    }

    /** One npTab step: the opcode is decoded and its handler run. */
    method Step(op: bv8, env: Env)
      modifies this
      ensures Snapshot() == Run(old(Snapshot()), Decode(op), env)
    {
      Execute(Decode(op), env);
    }
  }
}
