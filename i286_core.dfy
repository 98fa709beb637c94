// The 80286 CPU record the handlers update in place, and the handlers that loop: the
// rotate/shift repeat of i286_rotsh8 / i286_rotsh16, the frame copies of ENTER, and the
// parameter copy of a call through a call gate. Every other handler is one step of Run,
// applied to the fields.

module I286Core {
  import opened Common
  import opened I286
  import opened I286Ea
  import opened I286Alu
  import opened I286Prot
  import opened I286Ops
  import opened I286Tab
  import opened I286OpsFacts

  class Cpu {
    var r: Regs
    var f: Flags
    var sg: Segs
    var ovr: Option<Seg>
    var sys: Sys
    var ctl: Ctl
    var mem: map<Phys, bv8>
    var t: nat
    var outs: seq<PortWrite>

    /** The fields as one state value, the form the handler functions take. */
    function Snapshot(): State
      reads this
    {
      State(r, f, sg, ovr, sys, ctl, mem, t, outs)
    }

    constructor (s: State)
      ensures Snapshot() == s
    {
      r, f, sg, ovr, sys, ctl, mem, t, outs := s.r, s.f, s.sg, s.ovr, s.sys, s.ctl, s.mem, s.t, s.outs;
    }

    /** Every field set from a state value. */
    method Restore(s: State)
      modifies this
      ensures Snapshot() == s
    {
      r, f, sg, ovr, sys, ctl, mem, t, outs := s.r, s.f, s.sg, s.ovr, s.sys, s.ctl, s.mem, s.t, s.outs;
    }

    /**
     * i286_rotsh8: the count masked to five bits is added to the cycle count, then the
     * rotate of the reg field is applied that many times to the operand byte.
     */
    method RotSh8(env: Env, e: Ea, cnt: bv8) returns (v: bv8)
      modifies this
      ensures (v, Snapshot()) == I286Ops.RotSh8(env, old(Snapshot()), e, cnt)
    {
      var op := RotOf(RegField(e.modrm));
      var n := ShiftCount(cnt);
      t := t + n;
      v := Lo(e.tmpw);
      while n > 0
        invariant RotTimes8(env, op, f, v, n) == RotTimes8(env, op, old(f), Lo(e.tmpw), ShiftCount(cnt))
        invariant Snapshot() == old(Snapshot()).(f := f, t := old(t) + ShiftCount(cnt))
        decreases n
      {
        var (v1, f1) := env.rot8(op, f, v);
        v, f := v1, f1;
        n := n - 1;
      }
    }

    /** i286_rotsh16, charging one cycle per repeat as the byte form does. */
    method RotSh16(env: Env, e: Ea, cnt: bv8) returns (v: bv16)
      modifies this
      ensures (v, Snapshot()) == I286Ops.RotSh16(env, old(Snapshot()), e, cnt)
    {
      var op := RotOf(RegField(e.modrm));
      var n := ShiftCount(cnt);
      t := t + n;
      v := e.tmpw;
      while n > 0
        invariant RotTimes16(env, op, f, v, n) == RotTimes16(env, op, old(f), e.tmpw, ShiftCount(cnt))
        invariant Snapshot() == old(Snapshot()).(f := f, t := old(t) + ShiftCount(cnt))
        decreases n
      {
        var (v1, f1) := env.rot16(op, f, v);
        v, f := v1, f1;
        n := n - 1;
      }
    }

    /** C0, C1, D0 .. D3: read the operand and the count, repeat the rotate, write back. */
    method Shift(env: Env, wide: bool, c: CountFrom) returns (o: Out<()>)
      modifies this
      ensures o == I286Ops.Shift(env, old(Snapshot()), wide, c) && Snapshot() == o.st
    {
      var x := RdEa(Snapshot(), wide);
      if x.Stop? {
        o := Stop(x.why, x.st);
        Restore(o.st);
        return;
      }
      var e := x.val;
      var y := ShiftCountOf(x.st, c);
      if y.Stop? {
        o := Stop(y.why, y.st);
        Restore(o.st);
        return;
      }
      Restore(y.st);
      if wide {
        var v := RotSh16(env, e, y.val);
        o := WrEa(Snapshot(), e, v, true);
      } else {
        var v := RotSh8(env, e, y.val);
        o := WrEa(Snapshot(), e, Widen(v), false);
      }
      Restore(o.st);
    }

    /**
     * The loop of ENTER: `k` times BP drops by 2 and the word at DS:BP is pushed; the loop
     * ends early where a read or a push stops.
     */
    method EnterCopies(k: nat) returns (o: Out<()>)
      modifies this
      ensures o == I286Ops.EnterCopies(old(Snapshot()), k) && Snapshot() == o.st
    {
      var n := k;
      while n > 0
        invariant I286Ops.EnterCopies(Snapshot(), n) == I286Ops.EnterCopies(old(Snapshot()), k)
        decreases n
      {
        var s := Snapshot();
        var step := EnterCopy(s);
        EnterCopiesUnfold(s, n, step);
        Restore(step.st);
        if step.Stop? {
          o := step;
          return;
        }
        n := n - 1;
      }
      o := Done(Snapshot());
    }

    /**
     * C8 ENTER: t = 11, the size and the level, BP pushed; for a level L > 0 the loop runs
     * L-1 times and the frame pointer is pushed; BP = the frame pointer, SP drops by the size.
     */
    method Enter() returns (o: Out<()>)
      modifies this
      ensures o == I286Ops.Enter(old(Snapshot())) && Snapshot() == o.st
    {
      t := 11;
      var a := FetchWord(Snapshot());
      if a.Stop? {
        o := Stop(a.why, a.st);
        Restore(o.st);
        return;
      }
      var b := Fetch(a.st);
      if b.Stop? {
        o := Stop(b.why, b.st);
        Restore(o.st);
        return;
      }
      Restore(b.st);
      o := EnterFrame(a.val, Level(b.val));
    }

    /** ENTER once its operands are read: BP pushed, the nesting loop, the new frame. */
    method EnterFrame(size: bv16, level: nat) returns (o: Out<()>)
      modifies this
      ensures o == I286Ops.EnterFrame(old(Snapshot()), size, level) && Snapshot() == o.st
    {
      o := Push(Snapshot(), r.bp);
      Restore(o.st);
      if o.Stop? {
        return;
      }
      var frame := r.sp;
      if level > 0 {
        o := EnterCopies(level - 1);
        if o.Stop? {
          return;
        }
        o := Push(Snapshot(), frame);
        Restore(o.st);
        if o.Stop? {
          return;
        }
      }
      r := r.(bp := frame, sp := Sub16(r.sp, size));
      o := Done(Snapshot());
    }

    /**
     * The parameter copy of i286_callf through a call gate: `n` bytes, each read from the
     * old stack and written to the new one, upward, in order.
     */
    method CopyParams(src: bv32, dst: bv32, n: nat)
      modifies this
      ensures Snapshot() == old(Snapshot()).(mem := CopyBytes(old(mem), src, dst, n))
    {
      var a, b, k := src, dst, n;
      while k > 0
        invariant CopyBytes(mem, a, b, k) == CopyBytes(old(mem), src, dst, n)
        invariant Snapshot() == old(Snapshot()).(mem := mem)
        decreases k
      {
        mem := mem[Phys(b) := Peek(mem, Phys(a))];
        a, b, k := a + 1, b + 1, k - 1;
      }
    }

    /**
     * One opcode: the handler the table names for this CPU generation, run on the fields;
     * the looping handlers run their loops.
     */
    method Step(env: Env, op: bv8) returns (o: Out<()>)
      modifies this
      ensures o == Run(env, old(Snapshot()), Resolve(op, old(sys.gen))) && Snapshot() == o.st
    {
      var h := Resolve(op, sys.gen);
      if h.ShiftR? {
        o := Shift(env, h.wide, h.cnt);
      } else if h.EnterR? {
        o := Enter();
      } else {
        o := RunPlain(env, Snapshot(), h);
        Restore(o.st);
      }
    }
  }
}
