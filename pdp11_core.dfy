// The K1801VM1 as the emulator keeps it: a CPU record whose fields the
// handlers update in place, together with the three file-scope scratch
// words `twsrc`, `twdst` and `twres` the handlers share.  Each method is
// proved to leave the record as the corresponding function of the value
// model (pdp11.dfy, pdp11_addr.dfy, pdp11_ops.dfy, pdp11_exec.dfy) says.

module Pdp11Core {
  import opened Common
  import opened Pdp11
  import opened Pdp11Alu
  import opened Pdp11Addr
  import opened Pdp11Eis
  import Ops = Pdp11Ops
  import Exec = Pdp11Exec

  /** The handler families, as `Dispatch` splits them. */
  datatype Group = System | Control | Single | Bytes | Extended | Double

  function GroupOf(op: Exec.Op): Group
  {
    match op
    case Halt => System
    case Wait => System
    case Rti => System
    case Bpt => System
    case Iot => System
    case ResetBus => System
    case Rtt => System
    case Start => System
    case Undefined => System
    case Jmp => Control
    case Rts => Control
    case Cl => Control
    case Se => Control
    case Branch(_) => Control
    case Jsr => Control
    case Clr => Single
    case One(_) => Single
    case Tst => Single
    case Mark => Single
    case Sxt => Single
    case Emt => Single
    case TrapInstr => Single
    case Clrb => Bytes
    case OneB(_) => Bytes
    case Tstb => Bytes
    case Mtps => Bytes
    case Mfps => Bytes
    case Mul => Extended
    case Div => Extended
    case Ash => Extended
    case Ashc => Extended
    case Xor => Extended
    case Sob => Extended
    case Mov => Double
    case Cmp => Double
    case LogicW(_) => Double
    case Add => Double
    case Movb => Double
    case Cmpb => Double
    case LogicB(_) => Double
    case Sub => Double
  }

  /** The full sum of two unsigned words, as the `int` scratch `twres` holds it. */
  function Sum(a: bv16, b: bv16): bv32
  {
    Ops.Unsigned(a) + Ops.Unsigned(b)
  }

  /** The full difference of two unsigned words, as `twres` holds it. */
  function Difference(a: bv16, b: bv16): bv32
  {
    Ops.Unsigned(a) - Ops.Unsigned(b)
  }

  /** An operand address as `pdp_adr` returns it in an `int`: -1 for register mode. */
  function AddressWord(a: Option<bv16>): bv32
  {
    match a
    case None => 0xffff_ffff
    case Some(x) => Widen(x)
  }

  class Cpu {
    var r: Regs
    var f: Psw
    var mem: map<Addr, Cell>
    var lat: Latch
    var ctl: Ctl
    var t: nat
    var timer: Timer
    // The scratch the handlers share; no handler reads one before writing it.
    var twsrc: bv16
    var twdst: bv16
    var twres: bv32

    /** The fields as one value. */
    function Snapshot(): State
      reads this
    {
      State(r, f, mem, lat, ctl, t, timer)
    }

    // -----------------------------------------------------------------------
    // The bus

    /** `pdp_rd` */
    method ReadWord(adr: bv16) returns (v: bv16)
      ensures v == Pdp11.Rd(Snapshot(), adr)
    {
      var c := CellAt(mem, adr);
      v := Word(c.hi, c.lo);
    }

    /** `pdp_rdb` */
    method ReadByte(adr: bv16) returns (v: bv16)
      ensures v == Rdb(Snapshot(), adr)
    {
      var c := CellAt(mem, adr);
      v := if Has(adr, 1) then c.hi as bv16 else c.lo as bv16;
    }

    /** `pdp_wr` */
    method WriteWord(adr: bv16, v: bv16)
      modifies this`lat, this`mem
      ensures Snapshot() == Wr(old(Snapshot()), adr, v)
    {
      lat := lat.(nod := 3);
      mem := Store(mem, adr, v, 3);
    }

    /** `pdp_wrb` */
    method WriteByte(adr: bv16, v: bv8)
      modifies this`lat, this`mem
      ensures Snapshot() == Wrb(old(Snapshot()), adr, v)
    {
      if Has(adr, 1) {
        lat := lat.(nod := 2);
        mem := Store(mem, adr, Word(v, 0), 2);
      } else {
        lat := lat.(nod := 1);
        mem := Store(mem, adr, Word(0, v), 1);
      }
    }

    /** `pdp_push` */
    method PushWord(v: bv16)
      modifies this`r, this`lat, this`mem
      ensures Snapshot() == Pdp11.Push(old(Snapshot()), v)
    {
      r := r[6 := Prev(r[6])];
      WriteWord(r[6], v);
    }

    /** `pdp_pop` */
    method PopWord() returns (v: bv16)
      modifies this`r
      ensures (v, Snapshot()) == Pdp11.Pop(old(Snapshot()))
    {
      v := ReadWord(r[6]);
      r := r[6 := Next(r[6])];
    }

    // -----------------------------------------------------------------------
    // Traps and interrupts

    /** `pdp_trap` */
    method TrapTo(vec: bv16)
      modifies this`r, this`f, this`lat, this`mem, this`ctl
      ensures Snapshot() == Pdp11.Trap(old(Snapshot()), vec)
    {
      if Rewinds(ctl.mcir) {
        r := r[7 := Prev(r[7])];
      }
      SaveContext();
      EnterVector(vec);
    }

    /** The PSW and PC go to the save registers (MCIR 2, 3) or onto the stack. */
    method SaveContext()
      modifies this`r, this`lat, this`mem, this`ctl
      ensures Snapshot() == Pdp11.Save(old(Snapshot()))
    {
      if SavesInside(ctl.mcir) {
        ctl := ctl.(savedPsw := Pack(f), savedPc := r[7]);
      } else {
        PushWord(Pack(f));
        PushWord(r[7]);
      }
    }

    /** PC from the vector, the PSW from the word after it, MCIR 1. */
    method EnterVector(vec: bv16)
      modifies this`r, this`f, this`ctl
      ensures Snapshot() == Pdp11.Enter(old(Snapshot()), vec)
    {
      var pc := ReadWord(vec);
      r := r[7 := pc];
      var w := ReadWord(Next(vec));
      f := Unpack(w);
      ctl := ctl.(mcir := 1);
    }

    /** Serving the request `h`, whose pending bit is already clear. */
    method Serve(h: Irq)
      modifies this`r, this`f, this`lat, this`mem, this`ctl
      ensures Snapshot() == Pdp11.Serve(old(Snapshot()), h)
    {
      match h {
        case Irq1 =>
          if !f.f10 {
            ctl := ctl.(mcir := 3);
          }
        case Irq2 =>
          if !f.f7 {
            ctl := ctl.(mcir := 5);
            TrapTo(0x40);
          }
        case Irq3 =>
          if !f.f7 {
            ctl := ctl.(mcir := 5);
            TrapTo(0xb8);
          }
        case Virq =>
          ctl := ctl.(mcir := 5);
          TrapTo(ctl.intvec);
        case TimerIrq =>
          if !f.f7 {
            ctl := ctl.(mcir := 5);
          }
      }
    }

    /** `pdp11_int` */
    method Interrupt() returns (k: nat)
      modifies this`r, this`f, this`lat, this`mem, this`ctl
      ensures (k, Snapshot()) == Pdp11.Interrupt(old(Snapshot()))
    {
      ctl := ctl.(intrq := ctl.intrq * ctl.inten);
      if ctl.intrq != {} && ctl.wait {
        ctl := ctl.(wait := false);
        r := r[7 := Next(r[7])];
      }
      if ctl.intrq == {} {
        k := 0;
      } else {
        var h := Highest(ctl.intrq);
        ctl := ctl.(intrq := ctl.intrq - {h});
        Serve(h);
        k := 10;
      }
    }

    // -----------------------------------------------------------------------
    // Operand addressing

    /** `pdp_adr`: None stands for the -1 of register mode. */
    method Address(code: bv16, byte: bool) returns (a: Option<bv16>)
      modifies this`r, this`t
      ensures (a, Snapshot()) == Pdp11Addr.Adr(old(Snapshot()), code, byte)
    {
      var m := ModeOf(code);
      if m == 0 {
        a := None;
      } else if m == 1 || m == 2 || m == 4 {
        a := AddressPlain(code, byte);
      } else if m == 3 || m == 5 {
        a := AddressDeferred(code, byte);
      } else {
        a := AddressIndexed(code, byte);
      }
    }

    /** `@Rn`, `(Rn)+` and `-(Rn)`: the address is in the register. */
    method AddressPlain(code: bv16, byte: bool) returns (a: Option<bv16>)
      requires ModeOf(code) == 1 || ModeOf(code) == 2 || ModeOf(code) == 4
      modifies this`r, this`t
      ensures (a, Snapshot()) == Pdp11Addr.Adr(old(Snapshot()), code, byte)
    {
      var n := RegOf(code);
      if ModeOf(code) == 1 {
        a := Some(r[n]);
        t := t + 13;
      } else if ModeOf(code) == 2 {
        a := Some(r[n]);
        r := r[n := StepUp(r[n], code, byte)];
        t := t + 12;
      } else {
        r := r[n := StepDown(r[n], code, byte)];
        t := t + 13;
        a := Some(r[n]);
      }
    }

    /** `@(Rn)+` and `@-(Rn)`: the address is the word the register points at. */
    method AddressDeferred(code: bv16, byte: bool) returns (a: Option<bv16>)
      requires ModeOf(code) == 3 || ModeOf(code) == 5
      modifies this`r, this`t
      ensures (a, Snapshot()) == Pdp11Addr.Adr(old(Snapshot()), code, byte)
    {
      var n := RegOf(code);
      if ModeOf(code) == 3 {
        var p := r[n];
        r := r[n := Next(p)];
        t := t + 12;
        var w := ReadWord(p);
        a := Some(w);
        t := t + 7;
      } else {
        r := r[n := Prev(r[n])];
        t := t + 13;
        var w := ReadWord(r[n]);
        a := Some(w);
        t := t + 7;
      }
    }

    /** `E(Rn)` and `@E(Rn)`: the word at PC added to the register, once PC has moved past it. */
    method AddressIndexed(code: bv16, byte: bool) returns (a: Option<bv16>)
      requires ModeOf(code) == 6 || ModeOf(code) == 7
      modifies this`r, this`t
      ensures (a, Snapshot()) == Pdp11Addr.Adr(old(Snapshot()), code, byte)
    {
      var n := RegOf(code);
      t := t + 12;
      var off := ReadWord(r[7]);
      t := t + 7;
      r := r[7 := Next(r[7])];
      if ModeOf(code) == 6 {
        a := Some(Indexed(off, r[n]));
      } else {
        var w := ReadWord(Indexed(off, r[n]));
        a := Some(w);
        t := t + 7;
      }
    }

    /** `pdp_src` */
    method Source(code: bv16, byte: bool) returns (v: bv16)
      modifies this`r, this`t, this`lat
      ensures (v, Snapshot()) == Src(old(Snapshot()), code, byte)
    {
      var a := Address(code, byte);
      match a {
        case None =>
          v := r[RegOf(code)];
          if byte {
            v := v & 0xff;
          }
        case Some(x) =>
          lat := lat.(wz := x);
          if byte {
            v := ReadByte(lat.wz);
          } else {
            v := ReadWord(lat.wz);
          }
      }
    }

    /** `pdp_wres` */
    method WriteResult(code: bv16, v: bv16)
      modifies this`r, this`lat, this`mem
      ensures Snapshot() == Wres(old(Snapshot()), code, v)
    {
      if ModeOf(code) != 0 {
        WriteWord(lat.wz, v);
      } else {
        r := r[RegOf(code) := v];
      }
    }

    /** `pdp_wresb` */
    method WriteResultByte(code: bv16, v: bv8)
      modifies this`r, this`lat, this`mem
      ensures Snapshot() == Wresb(old(Snapshot()), code, v)
    {
      if ModeOf(code) != 0 {
        WriteByte(lat.wz, v);
      } else {
        var n := RegOf(code);
        r := r[n := Word(Hi(r[n]), v)];
      }
    }

    /** `pdp_dst` */
    method Destination(v: bv16, code: bv16, byte: bool)
      modifies this`r, this`t, this`lat, this`mem
      ensures Snapshot() == Dst(old(Snapshot()), v, code, byte)
    {
      var a := Address(code, byte);
      lat := lat.(wz := match a case None => 0xffff case Some(x) => x);
      if byte {
        WriteResultByte(code, Lo(v));
      } else {
        WriteResult(code, v);
      }
    }

    // -----------------------------------------------------------------------
    // 000000 .. 000017

    /** `pdp_undef` and the trap instructions: MCIR 5, the vector select code, the trap. */
    method Fault(vcel: bv8, vec: bv16)
      modifies this`r, this`f, this`lat, this`mem, this`ctl
      ensures Snapshot() == Ops.Fault(old(Snapshot()), vcel, vec)
    {
      ctl := ctl.(mcir := 5, vcel := vcel);
      TrapTo(vec);
    }

    /** `pdp_wait` */
    method Wait()
      modifies this
      ensures Snapshot() == Ops.Wait(old(Snapshot()))
    {
      ctl := ctl.(wait := true);
      r := r[7 := Prev(r[7])];
    }

    /** `pdp_rti`: the 19 cycles are counted in one step after the frame, which does not depend on them. */
    method Rti()
      modifies this
      ensures Snapshot() == Ops.Rti(old(Snapshot()))
    {
      Unwind();
      t := t + 19;
      TraceTrap();
    }

    /** The T-bit check after RTI. */
    method TraceTrap()
      modifies this`r, this`f, this`lat, this`mem, this`ctl
      ensures Snapshot() == Ops.TraceTrap(old(Snapshot()))
    {
      if f.t {
        f := f.(t := false);
        Fault(3, 0x0c);
      }
    }

    /** The frame of RTI and RTT, read in place at R6 as the handlers do. */
    method Unwind()
      modifies this`r, this`f
      ensures Snapshot() == Ops.Unwind(old(Snapshot())).(t := old(t))
    {
      var pc := ReadWord(r[6]);
      SetReg(7, pc);
      SetReg(6, Next(r[6]));
      var w := ReadWord(r[6]);
      f := Ops.LowPsw(w);
      SetReg(6, Next(r[6]));
    }

    /** `pdp_res`: the INIT pulse to the bus is counted. */
    method ResetBus()
      modifies this
      ensures Snapshot() == Ops.ResetBus(old(Snapshot()))
    {
      t := t + 448;
      timer := timer.(val := 0xffff, ival := 0xffff, flag := 0xff);
      ctl := ctl.(inits := ctl.inits + 1);
    }

    /** `pdp_rtt` */
    method Rtt()
      modifies this
      ensures Snapshot() == Ops.Rtt(old(Snapshot()))
    {
      Unwind();
      f := f.(t := false);
    }

    /** `pdp_start` and `pdp_step` */
    method Start()
      modifies this
      ensures Snapshot() == Ops.Start(old(Snapshot()))
    {
      var pc := ReadWord(0xffbc);
      r := r[7 := pc];
      var w := ReadWord(0xffbe);
      f := Unpack(w);
      var x := ReadWord(0xffce);
      lat := lat.(wz := Ops.ClearStep(x));
      WriteWord(0xffce, lat.wz);
    }

    // -----------------------------------------------------------------------
    // 0001dd .. 0003dd and the branches

    /** `pdp_jmp` */
    method Jmp()
      modifies this
      ensures Snapshot() == Ops.Jmp(old(Snapshot()))
    {
      var a := Address(lat.com, false);
      twres := AddressWord(a);
      match a {
        case None => Fault(4, 0x04);
        case Some(x) => r := r[7 := x];
      }
    }

    /** `pdp_008x` */
    method Rts()
      modifies this
      ensures Snapshot() == Ops.Rts(old(Snapshot()))
    {
      t := t + 8;
      if Has(lat.com, 8) {
        Fault(2, 0x08);
      } else {
        Unlink(RegOf(lat.com));
      }
    }

    /** RTS Rn proper. */
    method Unlink(n: RegNo)
      modifies this`r, this`t
      ensures Snapshot() == Ops.Unlink(old(Snapshot()), n)
    {
      SetReg(7, r[n]);
      var w := ReadWord(r[6]);
      SetReg(n, w);
      t := t + 8;
      SetReg(6, Next(r[6]));
    }

    /** `pdp_cl` */
    method Cl()
      modifies this
      ensures Snapshot() == Ops.Cl(old(Snapshot()))
    {
      f := ClearCodes(f, lat.com);
    }

    /** `pdp_se` */
    method Se()
      modifies this
      ensures Snapshot() == Ops.Se(old(Snapshot()))
    {
      f := SetCodes(f, lat.com);
    }

    /** `pdp_01xx` .. `pdp_87xx` with `pdp_jr`: twsrc holds the displacement. */
    method Branch(c: Cond)
      modifies this
      ensures Snapshot() == Ops.Branch(old(Snapshot()), c)
    {
      t := t + 12;
      if Taken(c, f) {
        twsrc := Offset(lat.com);
        r := r[7 := Ops.Target(r[7], lat.com)];
      }
    }

    /** `pdp_jsr`: twsrc holds the link register number. */
    method Jsr()
      modifies this
      ensures Snapshot() == Ops.Jsr(old(Snapshot()))
    {
      var com, n := Ops.Opcode(Snapshot()), Ops.HighReg(Snapshot());
      var a := Address(com, false);
      twres := AddressWord(a);
      match a {
        case None => Fault(4, 0x04);
        case Some(x) =>
          twsrc := (com >> 6) & 7;
          SetReg(6, Prev(r[6]));
          WriteWord(r[6], r[n]);
          SetReg(n, r[7]);
          SetReg(7, x);
      }
    }

    // -----------------------------------------------------------------------
    // One-operand instructions

    /** `pdp_clr` */
    method Clr()
      modifies this
      ensures Snapshot() == Ops.Clr(old(Snapshot()))
    {
      Destination(0, lat.com, false);
      f := f.(c := false, n := false, v := false, z := true);
    }

    /** `pdp_com` .. `pdp_asl` and `pdp_swab`: the operand goes through twsrc. */
    method OneWord(op: WordOp)
      modifies this
      ensures Snapshot() == Ops.OneWord(old(Snapshot()), op)
    {
      twsrc := Source(lat.com, false);
      var o := UnaryWord(op, twsrc, f);
      f := o.f;
      twsrc := o.v;
      WriteResult(lat.com, twsrc);
    }

    /** `pdp_tst` */
    method Tst()
      modifies this
      ensures Snapshot() == Ops.Tst(old(Snapshot()))
    {
      twsrc := Source(lat.com, false);
      f := NZ(f, twsrc).(c := false, v := false);
    }

    /** `pdp_mark` */
    method Mark()
      modifies this
      ensures Snapshot() == Ops.Mark(old(Snapshot()))
    {
      r := r[6 := Ops.Ahead(r[7], lat.com)];
      r := r[7 := r[5]];
      var w := PopWord();
      r := r[5 := w];
    }

    /** `pdp_sxt`: twdst holds the word stored. */
    method Sxt()
      modifies this
      ensures Snapshot() == Ops.Sxt(old(Snapshot()))
    {
      twdst := if f.n then 0xffff else 0;
      f := f.(z := !f.n);
      Destination(twdst, lat.com, false);
    }

    /** `pdp_clrb` */
    method Clrb()
      modifies this
      ensures Snapshot() == Ops.Clrb(old(Snapshot()))
    {
      Destination(0, lat.com, true);
      f := f.(c := false, n := false, v := false, z := true);
    }

    /** `pdp_comb` .. `pdp_aslb` */
    method OneByte(op: ByteOp)
      modifies this
      ensures Snapshot() == Ops.OneByte(old(Snapshot()), op)
    {
      twsrc := Source(lat.com, true);
      var (b, p) := UnaryByte(op, Lo(twsrc), f);
      f := p;
      WriteResultByte(lat.com, b);
    }

    /** `pdp_tstb` */
    method Tstb()
      modifies this
      ensures Snapshot() == Ops.Tstb(old(Snapshot()))
    {
      twsrc := Source(lat.com, true);
      f := NZb(f, Lo(twsrc)).(c := false, v := false);
    }

    /** `pdp_mtps` */
    method Mtps()
      modifies this
      ensures Snapshot() == Ops.Mtps(old(Snapshot()))
    {
      twsrc := Source(lat.com, true);
      f := MovePsw(f, twsrc);
    }

    /** `pdp_mfps`: twsrc holds the PSW byte, sign-extended. */
    method Mfps()
      modifies this
      ensures Snapshot() == Ops.Mfps(old(Snapshot()))
    {
      var a := Address(lat.com, true);
      lat := lat.(wz := match a case None => 0xffff case Some(x) => x);
      var b := PswByte(f);
      twsrc := b;
      if ModeOf(lat.com) != 0 {
        WriteByte(lat.wz, Lo(b));
      } else {
        r := r[RegOf(lat.com) := b];
      }
      f := NZb(f, Lo(b)).(v := false);
    }

    // -----------------------------------------------------------------------
    // 07xxxx.  The register field and the two operand fields are taken
    // through the same accessors as the instruction semantics.

    /** `pdp_mul`; the VM1 (generation 0) has no EIS and traps. */
    method Mul()
      modifies this
      ensures Snapshot() == Ops.Mul(old(Snapshot()))
    {
      if ctl.gen < 1 {
        Fault(2, 0x08);
      } else {
        var com, n := Ops.Opcode(Snapshot()), Ops.HighReg(Snapshot());
        var v := Source(com, false);
        var res := Product(v, r[n]);
        f := Ops.MulCodes(f, res);
        SetPair(n, HighHalf(res), LowHalf(res));
      }
    }

    /** Rn and Rn|1 take a high and a low word. */
    method SetPair(n: RegNo, hi: bv16, lo: bv16)
      modifies this`r
      ensures Snapshot() == Ops.SetPair(old(Snapshot()), n, hi, lo)
    {
      r := r[n := hi];
      r := r[OddOf(n) := lo];
    }

    /** `pdp_div`: the pair is read before the operand. */
    method Div()
      modifies this
      ensures Snapshot() == Ops.Div(old(Snapshot()))
    {
      if ctl.gen < 1 {
        Fault(2, 0x08);
      } else {
        var com, n := Ops.Opcode(Snapshot()), Ops.PairReg(Snapshot());
        var a := Join(r[n], r[OddOf(n)]);
        var d := Source(com, false);
        if d == 0 {
          f := f.(c := true);
        } else {
          var (q, m) := Ops.Divide(a, d);
          f := Ops.DivCodes(f, a, q);
          SetPair(n, LowHalf(q), LowHalf(m));
        }
      }
    }

    /**
     * `pdp_ash`: twsrc counts the rounds, twdst is the word being shifted
     * and twres keeps the word as it was.
     */
    method Ash()
      modifies this
      ensures Snapshot() == Ops.Ash(old(Snapshot()))
    {
      if ctl.gen < 1 {
        Fault(2, 0x08);
      } else {
        var com, n := Ops.Opcode(Snapshot()), Ops.HighReg(Snapshot());
        var v := Source(com, false);
        twdst := r[n];
        twres := Ops.Unsigned(twdst);
        ShiftWord(v);
        UnsignedLow(r[n]);
        SetReg(n, twdst);
        f := NZ(f, twdst).(v := Ops.SignChanged(LowHalf(twres), twdst));
      }
    }

    /** The counting of ASH: twsrc takes the count, and twdst is shifted right or left. */
    method ShiftWord(src: bv16)
      modifies this`twsrc, this`twdst, this`f
      ensures (twdst, f.c) == ArithShift(old(twdst), src, old(f.c))
      ensures f == old(f).(c := f.c)
    {
      twsrc := Count(src);
      if Has(twsrc, 0x20) {
        twsrc := 0x40 - twsrc;
        ShiftWordRight();
      } else {
        ShiftWordLeft();
      }
    }

    /** Rn takes a word. */
    method SetReg(n: RegNo, v: bv16)
      modifies this`r
      ensures Snapshot() == Pdp11Addr.SetReg(old(Snapshot()), n, v)
    {
      r := r[n := v];
    }

    /** The right-shift rounds of ASH on twdst, twsrc counting down to zero. */
    method ShiftWordRight()
      modifies this`twsrc, this`twdst, this`f
      ensures (twdst, f.c) == ShiftRight(old(twdst), old(twsrc), old(f.c))
      ensures twsrc == 0 && f == old(f).(c := f.c)
    {
      var v, k, c := twdst, twsrc, f.c;
      while k != 0
        invariant ShiftRight(v, k, c) == ShiftRight(old(twdst), old(twsrc), old(f.c))
        decreases k
      {
        c := Has(v, 1);
        v := HalfWord(v);
        k := k - 1;
      }
      twdst, twsrc, f := v, k, f.(c := c);
    }

    /** The left-shift rounds of ASH. */
    method ShiftWordLeft()
      modifies this`twsrc, this`twdst, this`f
      ensures (twdst, f.c) == ShiftLeft(old(twdst), old(twsrc), old(f.c))
      ensures twsrc == 0 && f == old(f).(c := f.c)
    {
      var v, k, c := twdst, twsrc, f.c;
      while k != 0
        invariant ShiftLeft(v, k, c) == ShiftLeft(old(twdst), old(twsrc), old(f.c))
        decreases k
      {
        c := Neg16(v);
        v := v << 1;
        k := k - 1;
      }
      twdst, twsrc, f := v, k, f.(c := c);
    }

    /** `pdp_ashc`: twres holds the pair while it shifts, twdst the old Rn. */
    method Ashc()
      modifies this
      ensures Snapshot() == Ops.Ashc(old(Snapshot()))
    {
      if ctl.gen < 1 {
        Fault(2, 0x08);
      } else {
        var com, n := Ops.Opcode(Snapshot()), Ops.HighReg(Snapshot());
        var v := Source(com, false);
        twres := Join(r[n], r[OddOf(n)]);
        twdst := r[n];
        ShiftPair(v);
        SetPair(n, HighHalf(twres), LowHalf(twres));
        f := f.(n := Neg32(twres), z := twres == 0, v := Ops.SignChanged(r[n], twdst));
      }
    }

    /** The counting of ASHC on twres. */
    method ShiftPair(src: bv16)
      modifies this`twsrc, this`twres, this`f
      ensures (twres, f.c) == ArithShiftPair(old(twres), src, old(f.c))
      ensures f == old(f).(c := f.c)
    {
      twsrc := Count(src);
      if Has(twsrc, 0x20) {
        twsrc := 0x40 - twsrc;
        ShiftPairRight();
      } else {
        ShiftPairLeft();
      }
    }

    /** The right-shift rounds of ASHC on twres: an arithmetic shift of a signed `int`. */
    method ShiftPairRight()
      modifies this`twsrc, this`twres, this`f
      ensures (twres, f.c) == ShiftRight32(old(twres), old(twsrc), old(f.c))
      ensures twsrc == 0 && f == old(f).(c := f.c)
    {
      var x, k, c := twres, twsrc, f.c;
      while k != 0
        invariant ShiftRight32(x, k, c) == ShiftRight32(old(twres), old(twsrc), old(f.c))
        decreases k
      {
        c := x & 1 != 0;
        x := HalfLong(x);
        k := k - 1;
      }
      twres, twsrc, f := x, k, f.(c := c);
    }

    /** The left-shift rounds of ASHC. */
    method ShiftPairLeft()
      modifies this`twsrc, this`twres, this`f
      ensures (twres, f.c) == ShiftLeft32(old(twres), old(twsrc), old(f.c))
      ensures twsrc == 0 && f == old(f).(c := f.c)
    {
      var x, k, c := twres, twsrc, f.c;
      while k != 0
        invariant ShiftLeft32(x, k, c) == ShiftLeft32(old(twres), old(twsrc), old(f.c))
        decreases k
      {
        c := Neg32(x);
        x := x << 1;
        k := k - 1;
      }
      twres, twsrc, f := x, k, f.(c := c);
    }

    /** `pdp_xor` */
    method Xor()
      modifies this
      ensures Snapshot() == Ops.Xor(old(Snapshot()))
    {
      var com, n := Ops.Opcode(Snapshot()), Ops.HighReg(Snapshot());
      twsrc := Source(com, false);
      twsrc := Ops.Toggle(twsrc, r[n]);
      f := NZ(f, twsrc).(v := false);
      WriteResult(com, twsrc);
    }

    /** `pdp_sob` */
    method Sob()
      modifies this
      ensures Snapshot() == Ops.Sob(old(Snapshot()))
    {
      var com, n := Ops.Opcode(Snapshot()), Ops.HighReg(Snapshot());
      t := t + 8;
      twsrc := Ops.SrcField(Snapshot()) & 7;
      r := r[n := Pred(r[n])];
      if r[n] != 0 {
        r := r[7 := Ops.Behind(r[7], com)];
      }
    }

    // -----------------------------------------------------------------------
    // Two-operand instructions: twsrc is the source, twdst the destination

    /** `pdp_mov` */
    method Mov()
      modifies this
      ensures Snapshot() == Ops.Mov(old(Snapshot()))
    {
      var com, sf := Ops.Opcode(Snapshot()), Ops.SrcField(Snapshot());
      twsrc := Source(sf, false);
      Destination(twsrc, com, false);
      f := NZ(f, twsrc).(v := false);
    }

    /** `pdp_movb` */
    method Movb()
      modifies this
      ensures Snapshot() == Ops.Movb(old(Snapshot()))
    {
      var com, sf := Ops.Opcode(Snapshot()), Ops.SrcField(Snapshot());
      twsrc := Source(sf, true);
      if ModeOf(com) != 0 {
        twdst := Source(com, true);
        WriteByte(lat.wz, Lo(twsrc));
      } else {
        SetReg(RegOf(com), SextByte(Lo(twsrc)));
      }
      f := NZb(f, Lo(twsrc)).(v := false);
    }

    /** `pdp_cmp`: twres is the unsigned difference, kept as the source keeps it. */
    method Cmp()
      modifies this
      ensures Snapshot() == Ops.Cmp(old(Snapshot()))
    {
      var com, sf := Ops.Opcode(Snapshot()), Ops.SrcField(Snapshot());
      twsrc := Source(sf, false);
      twdst := Source(com, false);
      twres := Difference(twsrc, twdst);
      f := Compare(twsrc, twdst, f);
    }

    /** `pdp_cmpb` */
    method Cmpb()
      modifies this
      ensures Snapshot() == Ops.Cmpb(old(Snapshot()))
    {
      var com, sf := Ops.Opcode(Snapshot()), Ops.SrcField(Snapshot());
      twsrc := Source(sf, true);
      twdst := Source(com, true);
      f := CompareByte(Lo(twsrc), Lo(twdst), f);
    }

    /** `pdp_bit`, `pdp_bic`, `pdp_bis` */
    method LogicW(op: Logic)
      modifies this
      ensures Snapshot() == Ops.LogicW(old(Snapshot()), op)
    {
      var com, sf := Ops.Opcode(Snapshot()), Ops.SrcField(Snapshot());
      twsrc := Source(sf, false);
      twdst := Source(com, false);
      var o := LogicWord(op, twsrc, twdst, f);
      twdst := o.v;
      f := o.f;
      if op != BitTest {
        WriteResult(com, twdst);
      }
    }

    /** `pdp_bitb`, `pdp_bicb`, `pdp_bisb` */
    method LogicB(op: Logic)
      modifies this
      ensures Snapshot() == Ops.LogicB(old(Snapshot()), op)
    {
      var com, sf := Ops.Opcode(Snapshot()), Ops.SrcField(Snapshot());
      twsrc := Source(sf, true);
      twdst := Source(com, true);
      var (b, p) := LogicByte(op, Lo(twsrc), Lo(twdst), f);
      f := p;
      if op != BitTest {
        WriteResultByte(com, b);
      }
    }

    /** `pdp_add` with `pdp_op_add`: twres is the unsigned sum. */
    method Add()
      modifies this
      ensures Snapshot() == Ops.Add(old(Snapshot()))
    {
      var com, sf := Ops.Opcode(Snapshot()), Ops.SrcField(Snapshot());
      twsrc := Source(sf, false);
      twdst := Source(com, false);
      twres := Sum(twsrc, twdst);
      var o := AddWords(twsrc, twdst, f);
      f := o.f;
      WriteResult(com, o.v);
    }

    /** `pdp_sub`: twres is the unsigned difference destination minus source. */
    method Sub()
      modifies this
      ensures Snapshot() == Ops.Sub(old(Snapshot()))
    {
      var com, sf := Ops.Opcode(Snapshot()), Ops.SrcField(Snapshot());
      twsrc := Source(sf, false);
      twdst := Source(com, false);
      twres := Difference(twdst, twsrc);
      var o := SubWords(twsrc, twdst, f);
      f := o.f;
      WriteResult(com, o.v);
    }

    // -----------------------------------------------------------------------
    // Dispatch: the handler a table entry names, family by family

    method ExecuteSystem(op: Exec.Op)
      requires GroupOf(op) == System
      modifies this
      ensures Snapshot() == Exec.Run(old(Snapshot()), op)
    {
      match op {
        case Halt =>
        case Wait => Wait();
        case Rti => Rti();
        case Bpt => Fault(3, 0x0c);
        case Iot => Fault(1, 0x10);
        case ResetBus => ResetBus();
        case Rtt => Rtt();
        case Start => Start();
        case Undefined => Fault(2, 0x08);
      }
    }

    method ExecuteControl(op: Exec.Op)
      requires GroupOf(op) == Control
      modifies this
      ensures Snapshot() == Exec.Run(old(Snapshot()), op)
    {
      match op {
        case Jmp => Jmp();
        case Rts => Rts();
        case Cl => Cl();
        case Se => Se();
        case Branch(c) => Branch(c);
        case Jsr => Jsr();
      }
    }

    method ExecuteSingle(op: Exec.Op)
      requires GroupOf(op) == Single
      modifies this
      ensures Snapshot() == Exec.Run(old(Snapshot()), op)
    {
      match op {
        case Clr => Clr();
        case One(w) => OneWord(w);
        case Tst => Tst();
        case Mark => Mark();
        case Sxt => Sxt();
        case Emt => Fault(6, 0x18);
        case TrapInstr => Fault(12, 0x1c);
      }
    }

    method ExecuteBytes(op: Exec.Op)
      requires GroupOf(op) == Bytes
      modifies this
      ensures Snapshot() == Exec.Run(old(Snapshot()), op)
    {
      ghost var s := Snapshot();
      match op {
        case Clrb => Clrb(); assert Exec.Run(s, op) == Ops.Clrb(s);
        case OneB(b) => OneByte(b); assert Exec.Run(s, op) == Ops.OneByte(s, b);
        case Tstb => Tstb(); assert Exec.Run(s, op) == Ops.Tstb(s);
        case Mtps => Mtps(); assert Exec.Run(s, op) == Ops.Mtps(s);
        case Mfps => Mfps(); assert Exec.Run(s, op) == Ops.Mfps(s);
      }
    }

    method ExecuteExtended(op: Exec.Op)
      requires GroupOf(op) == Extended
      modifies this
      ensures Snapshot() == Exec.Run(old(Snapshot()), op)
    {
      ghost var s := Snapshot();
      match op {
        case Mul => Mul(); assert Exec.Run(s, op) == Ops.Mul(s);
        case Div => Div(); assert Exec.Run(s, op) == Ops.Div(s);
        case Ash => Ash(); assert Exec.Run(s, op) == Ops.Ash(s);
        case Ashc => Ashc(); assert Exec.Run(s, op) == Ops.Ashc(s);
        case Xor => Xor(); assert Exec.Run(s, op) == Ops.Xor(s);
        case Sob => Sob(); assert Exec.Run(s, op) == Ops.Sob(s);
      }
    }

    method ExecuteDouble(op: Exec.Op)
      requires GroupOf(op) == Double
      modifies this
      ensures Snapshot() == Exec.Run(old(Snapshot()), op)
    {
      ghost var s := Snapshot();
      match op {
        case Mov => Mov(); assert Exec.Run(s, op) == Ops.Mov(s);
        case Cmp => Cmp(); assert Exec.Run(s, op) == Ops.Cmp(s);
        case LogicW(l) => LogicW(l); assert Exec.Run(s, op) == Ops.LogicW(s, l);
        case Add => Add(); assert Exec.Run(s, op) == Ops.Add(s);
        case Movb => Movb(); assert Exec.Run(s, op) == Ops.Movb(s);
        case Cmpb => Cmpb(); assert Exec.Run(s, op) == Ops.Cmpb(s);
        case LogicB(l) => LogicB(l); assert Exec.Run(s, op) == Ops.LogicB(s, l);
        case Sub => Sub(); assert Exec.Run(s, op) == Ops.Sub(s);
      }
    }

    /** The call through `pdp_tab_a` and the tables below it. */
    method Dispatch(op: Exec.Op)
      modifies this
      ensures Snapshot() == Exec.Run(old(Snapshot()), op)
    {
      match GroupOf(op) {
        case System => ExecuteSystem(op);
        case Control => ExecuteControl(op);
        case Single => ExecuteSingle(op);
        case Bytes => ExecuteBytes(op);
        case Extended => ExecuteExtended(op);
        case Double => ExecuteDouble(op);
      }
    }

    // -----------------------------------------------------------------------
    // The timer, a step and the reset

    /** One elapsed period of the timer loop. */
    method TickTimer()
      modifies this`timer, this`ctl
      ensures (timer, ctl.intrq) == TimerTick(old(timer), old(ctl.intrq))
      ensures ctl == old(ctl).(intrq := ctl.intrq)
    {
      if HasAny(timer.flag, 0x10) {
        timer := timer.(val := Pred(timer.val));
        if timer.val == 0xffff {
          if HasAny(timer.flag, 0x04) {
            timer := timer.(flag := timer.flag | 0x80);
            ctl := ctl.(intrq := ctl.intrq + {TimerIrq});
          }
          if HasAny(timer.flag, 0x02) {
            timer := timer.(val := 0xffff);
          } else if HasAny(timer.flag, 0x08) {
            timer := timer.(flag := Clear(timer.flag, 0x10));
          } else {
            timer := timer.(val := timer.ival);
          }
        }
      }
    }

    /**
     * `pdp_timer`.  The loop ends only when the counter gets back to zero,
     * which the precondition guarantees; without it the source loops forever.
     */
    method RunTimer(tc: nat)
      requires HasAny(timer.flag, 1) || Settles(timer.(cnt := timer.cnt - tc))
      modifies this`timer, this`ctl
      ensures Snapshot() == Pdp11.RunTimer(old(Snapshot()), tc)
    {
      if HasAny(timer.flag, 1) {
        return;
      }
      timer := timer.(cnt := timer.cnt - tc);
      while timer.cnt < 0
        invariant Settles(timer)
        invariant TimerLoop(timer, ctl.intrq) == TimerLoop(old(timer).(cnt := old(timer).cnt - tc), old(ctl.intrq))
        invariant ctl == old(ctl).(intrq := ctl.intrq)
        decreases -timer.cnt
      {
        timer := timer.(cnt := timer.cnt + timer.per);
        TickTimer();
      }
    }

    /** The fetch: the opcode at PC is latched and PC steps past it, in 8 cycles. */
    method Fetch()
      modifies this`lat, this`r, this`t
      ensures Snapshot() == Exec.Fetch(old(Snapshot()))
    {
      var com := ReadWord(r[7]);
      lat := lat.(com := com);
      SetReg(7, Next(r[7]));
      t := t + 8;
    }

    /** The timer call that ends a step; `hangs` when its loop could never end. */
    method Finish() returns (hangs: bool, cycles: nat)
      modifies this`timer, this`ctl
      ensures hangs <==> Exec.Finish(old(Snapshot())).Hang?
      ensures !hangs ==> Exec.Finish(old(Snapshot())) == Exec.Step(cycles, Snapshot())
    {
      cycles := t;
      if HasAny(timer.flag, 1) || Settles(timer.(cnt := timer.cnt - t)) {
        hangs := false;
        RunTimer(t);
      } else {
        hangs := true;
      }
    }

    /**
     * `pdp11_exec`: one step, returning its cycles.  When the timer loop at
     * its end could never finish, the method reports `hangs` instead and
     * stops before the loop.
     */
    method Step() returns (hangs: bool, cycles: nat)
      modifies this
      ensures hangs <==> Exec.Exec(old(Snapshot())).Hang?
      ensures !hangs ==> Exec.Exec(old(Snapshot())) == Exec.Step(cycles, Snapshot())
    {
      lat := lat.(oldpc := r[7]);
      t := 0;
      if ctl.intrq * ctl.inten != {} {
        InterruptServesHighest(Snapshot());
        var k := Interrupt();
        t := t + k;
      }
      if t == 0 {
        Fetch();
        Dispatch(Exec.Decode(lat.com));
      }
      hangs, cycles := Finish();
    }

    /** The loop of `pdp11_reset` that clears R0..R6. */
    method ClearRegisters()
      modifies this`r
      ensures r == [0, 0, 0, 0, 0, 0, 0, old(r[7])]
    {
      for i := 0 to 7
        invariant forall j :: 0 <= j < i ==> r[j] == 0
        invariant r[7] == old(r[7])
      {
        r := r[i := 0];
      }
    }

    /** `pdp11_reset` */
    method Reset()
      modifies this
      ensures Snapshot() == Ops.Reset(old(Snapshot()))
    {
      ClearRegisters();
      t := t + 1016;
      var w := ReadWord(0xffce);
      SetReg(7, Ops.PageOf(w));
      f := Unpack(0x300);
      ctl := ctl.(intrq := {}, inten := {Irq2, Virq}, wait := false, halt := false);
      timer := timer.(flag := 1);
    }
  }

  /** The low word of a zero-extended word is the word. */
  lemma UnsignedLow(d: bv16)
    ensures LowHalf(Ops.Unsigned(d)) == d
  {
  }
}
