// The opcode table i80286_tab and its generation tables x86_tab0F .. x86_tabC9: which
// handler each opcode byte names, which entries are prefixes, and which are chosen by the
// CPU generation (0: 8086, 1: 80186, 2: 80286). Run dispatches a handler to its function in
// I286Ops, I286Prot or the protected-mode part of the engine.

module I286Tab {
  import opened Common
  import opened I286
  import opened I286Alu
  import opened I286Prot
  import opened I286Ops

  /** The handler an entry names, with the operand its opcode byte selects. */
  datatype Handler =
    | AluEa(op: AluOp, wide: bool)
    | AluReg(op: AluOp, wide: bool)
    | AluAcc(op: AluOp, wide: bool)
    | PushS(sr: SegName)
    | PopS(sr: SegName)
    | SegPrefix(sr: SegName)
    | Prefix0F
    | Adjust(adj: Adjust)
    | IncR(n: bv8)
    | DecR(n: bv8)
    | PushR(n: bv8)
    | PopR(n: bv8)
    | PushA
    | PopA
    | BoundR
    | ArplR
    | Nodef
    | Empty
    | PushI(wide: bool)
    | ImulI(wide: bool)
    | Str(sop: StrOp)
    | Branch(cond: Cond)
    | Grp1(imm: ImmKind)
    | TestE(wide: bool)
    | XchgE(wide: bool)
    | MovToE(wide: bool)
    | MovFromE(wide: bool)
    | MovFromS
    | LeaR
    | MovToS
    | PopE
    | XchgA(n: bv8)
    | SignExt(wide: bool)
    | FarCall
    | WaitR
    | PushF
    | PopF
    | SahfR
    | LahfR
    | LoadA(wide: bool)
    | StoreA(wide: bool)
    | TestA(wide: bool)
    | LodsR(wide: bool)
    | MovImm(n: bv8, wide: bool)
    | ShiftR(wide: bool, cnt: CountFrom)
    | RetN(withImm: bool)
    | LoadF(sr: SegName)
    | MovEaI(wide: bool)
    | EnterR
    | LeaveR
    | RetF(withImm: bool)
    | IntR(ik: IntKind)
    | IretR
    | AamR
    | AadR
    | XlatR
    | FpuR
    | LoopR(lk: LoopKind)
    | InR(wide: bool, dx: bool)
    | OutR(wide: bool, dx: bool)
    | CallN
    | JmpN(wide: bool)
    | FarJmp
    | LockR
    | RepR(rep: Rep)
    | HltR
    | FlagR(fk: FlagOp)
    | IntFlag(on: bool)
    | GrpF6
    | GrpF7
    | GrpFE
    | GrpFF

  /** The segment registers of the push/pop column 06, 0E, 16, 1E and the prefixes 26 .. 3E. */
  function SegRow(op: bv8): SegName
  {
    SegNamed(op >> 3)
  }

  /** The handler of each entry of i80286_tab, row by row. */
  function TableEntry(op: bv8): Handler
  {
    if op < 0x40 then
      var col := op & 7;
      if col < 6 then
        var alu := AluOf(op >> 3);
        if col < 2 then AluEa(alu, col == 1)
        else if col < 4 then AluReg(alu, col == 3)
        else AluAcc(alu, col == 5)
      else if op == 0x0f then Prefix0F
      else if op & 0xe7 == 0x06 then PushS(SegRow(op))
      else if op & 0xe7 == 0x07 then PopS(SegRow(op))
      else if col == 6 then SegPrefix(SegRow(op))
      else if op == 0x27 then Adjust(AdjDaa)
      else if op == 0x2f then Adjust(AdjDas)
      else if op == 0x37 then Adjust(AdjAaa)
      else Adjust(AdjAas)
    else if op < 0x48 then IncR(op & 7)
    else if op < 0x50 then DecR(op & 7)
    else if op < 0x58 then PushR(op & 7)
    else if op < 0x60 then PopR(op & 7)
    else if op < 0x70 then Row6(op)
    else if op < 0x80 then Branch(CondOf(op))
    else if op < 0x90 then Row8(op)
    else if op < 0xa0 then Row9(op)
    else if op < 0xb0 then RowA(op)
    else if op < 0xc0 then MovImm(op & 7, op >= 0xb8)
    else if op < 0xd0 then RowC(op)
    else if op < 0xe0 then RowD(op)
    else if op < 0xf0 then RowE(op)
    else RowF(op)
  }

  function Row6(op: bv8): Handler
    requires 0x60 <= op < 0x70
  {
    match op
    case 0x60 => PushA
    case 0x61 => PopA
    case 0x62 => BoundR
    case 0x63 => ArplR
    case 0x68 => PushI(true)
    case 0x69 => ImulI(true)
    case 0x6a => PushI(false)
    case 0x6b => ImulI(false)
    case 0x6c => Str(Insb)
    case 0x6d => Str(Insw)
    case 0x6e => Str(Outsb)
    case 0x6f => Str(Outsw)
    case _ => Nodef
  }

  function Row8(op: bv8): Handler
    requires 0x80 <= op < 0x90
  {
    match op
    case 0x80 => Grp1(ImmByte)
    case 0x81 => Grp1(ImmWord)
    case 0x82 => Grp1(ImmByte)
    case 0x83 => Grp1(ImmSigned)
    case 0x84 => TestE(false)
    case 0x85 => TestE(true)
    case 0x86 => XchgE(false)
    case 0x87 => XchgE(true)
    case 0x88 => MovToE(false)
    case 0x89 => MovToE(true)
    case 0x8a => MovFromE(false)
    case 0x8b => MovFromE(true)
    case 0x8c => MovFromS
    case 0x8d => LeaR
    case 0x8e => MovToS
    case _ => PopE
  }

  function Row9(op: bv8): Handler
    requires 0x90 <= op < 0xa0
  {
    match op
    case 0x90 => Empty
    case 0x98 => SignExt(false)
    case 0x99 => SignExt(true)
    case 0x9a => FarCall
    case 0x9b => WaitR
    case 0x9c => PushF
    case 0x9d => PopF
    case 0x9e => SahfR
    case 0x9f => LahfR
    case _ => XchgA(op & 7)
  }

  function RowA(op: bv8): Handler
    requires 0xa0 <= op < 0xb0
  {
    match op
    case 0xa0 => LoadA(false)
    case 0xa1 => LoadA(true)
    case 0xa2 => StoreA(false)
    case 0xa3 => StoreA(true)
    case 0xa4 => Str(Movsb)
    case 0xa5 => Str(Movsw)
    case 0xa6 => Str(Cmpsb)
    case 0xa7 => Str(Cmpsw)
    case 0xa8 => TestA(false)
    case 0xa9 => TestA(true)
    case 0xaa => Str(Stosb)
    case 0xab => Str(Stosw)
    case 0xac => LodsR(false)
    case 0xad => LodsR(true)
    case 0xae => Str(Scasb)
    case _ => Str(Scasw)
  }

  function RowC(op: bv8): Handler
    requires 0xc0 <= op < 0xd0
  {
    match op
    case 0xc0 => ShiftR(false, CountImm)
    case 0xc1 => ShiftR(true, CountImm)
    case 0xc2 => RetN(true)
    case 0xc3 => RetN(false)
    case 0xc4 => LoadF(ES)
    case 0xc5 => LoadF(DS)
    case 0xc6 => MovEaI(false)
    case 0xc7 => MovEaI(true)
    case 0xc8 => EnterR
    case 0xc9 => LeaveR
    case 0xca => RetF(true)
    case 0xcb => RetF(false)
    case 0xcc => IntR(Int3)
    case 0xcd => IntR(IntImm)
    case 0xce => IntR(Into)
    case _ => IretR
  }

  /** D6 is SALC in the handlers, but its entry names i8086_nodef; D8 .. DF are the x87 escapes. */
  function RowD(op: bv8): Handler
    requires 0xd0 <= op < 0xe0
  {
    match op
    case 0xd0 => ShiftR(false, CountOne)
    case 0xd1 => ShiftR(true, CountOne)
    case 0xd2 => ShiftR(false, CountCl)
    case 0xd3 => ShiftR(true, CountCl)
    case 0xd4 => AamR
    case 0xd5 => AadR
    case 0xd6 => Nodef
    case 0xd7 => XlatR
    case _ => FpuR
  }

  function RowE(op: bv8): Handler
    requires 0xe0 <= op < 0xf0
  {
    match op
    case 0xe0 => LoopR(LoopNz)
    case 0xe1 => LoopR(LoopZ)
    case 0xe2 => LoopR(LoopCx)
    case 0xe3 => LoopR(Jcxz)
    case 0xe4 => InR(false, false)
    case 0xe5 => InR(true, false)
    case 0xe6 => OutR(false, false)
    case 0xe7 => OutR(true, false)
    case 0xe8 => CallN
    case 0xe9 => JmpN(true)
    case 0xea => FarJmp
    case 0xeb => JmpN(false)
    case 0xec => InR(false, true)
    case 0xed => InR(true, true)
    case 0xee => OutR(false, true)
    case _ => OutR(true, true)
  }

  function RowF(op: bv8): Handler
    requires 0xf0 <= op
  {
    match op
    case 0xf0 => LockR
    case 0xf1 => Empty
    case 0xf2 => RepR(RepNz)
    case 0xf3 => RepR(RepZ)
    case 0xf4 => HltR
    case 0xf5 => FlagR(Cmc)
    case 0xf6 => GrpF6
    case 0xf7 => GrpF7
    case 0xf8 => FlagR(Clc)
    case 0xf9 => FlagR(Stc)
    case 0xfa => IntFlag(false)
    case 0xfb => IntFlag(true)
    case 0xfc => FlagR(Cld)
    case 0xfd => FlagR(Std)
    case 0xfe => GrpFE
    case _ => GrpFF
  }

  /** The entries flagged OF_PREFIX: 0F, the segment overrides, 64 .. 67, LOCK, REPNZ, REP. */
  predicate IsPrefix(op: bv8)
  {
    op == 0x0f || op == 0x26 || op == 0x2e || op == 0x36 || op == 0x3e ||
    (0x64 <= op <= 0x67) || op == 0xf0 || op == 0xf2 || op == 0xf3
  }

  /** The entries flagged OF_GEN, whose handler comes from a generation table. */
  predicate GenGated(op: bv8)
  {
    op == 0x0f || (0x60 <= op <= 0x63) || (0x68 <= op <= 0x6f) ||
    op == 0xc0 || op == 0xc1 || (0xc6 <= op <= 0xc9)
  }

  /** The generation tables: the 8086 has none of these; the 80186 lacks 0F and ARPL. */
  function ForGen(op: bv8, gen: Gen): Handler
  {
    if gen == 0 then Nodef
    else if gen == 1 && (op == 0x0f || op == 0x63) then Nodef
    else TableEntry(op)
  }

  /** The handler an opcode byte runs for a CPU generation. */
  function Resolve(op: bv8, gen: Gen): Handler
  {
    if GenGated(op) then ForGen(op, gen) else TableEntry(op)
  }

  /** Where the 80286 engine sends each handler: the two that loop first, then the rest. */
  function Run(env: Env, s: State, h: Handler): Out<()>
  {
    if h.ShiftR? then Shift(env, s, h.wide, h.cnt)
    else if h.EnterR? then Enter(s)
    else RunPlain(env, s, h)
  }

  /** The handler dispatch, one arm per handler. */
  function RunPlain(env: Env, s: State, h: Handler): Out<()>
  {
    match h
    case AluEa(op, wide) => AluToEa(env, s, op, wide)
    case AluReg(op, wide) => AluToReg(env, s, op, wide)
    case AluAcc(op, wide) => AluToAcc(env, s, op, wide)
    case PushS(n) => PushSeg(s, n)
    case PopS(n) => PopSeg(s, n)
    case SegPrefix(n) => Override(s, n)
    case Prefix0F => Page0FPrefix(s)
    case Adjust(k) => DecimalAdjust(env, s, k)
    case IncR(n) => IncDecReg(env, s, n, false)
    case DecR(n) => IncDecReg(env, s, n, true)
    case PushR(n) => PushReg(s, n)
    case PopR(n) => PopReg(s, n)
    case PushA => Pusha(s)
    case PopA => Popa(s)
    case BoundR => Bound(s)
    case ArplR => Arpl(s)
    case Nodef => Undefined(s)
    case Empty => Done(s)
    case PushI(wide) => PushImm(s, wide)
    case ImulI(wide) => ImulImm(env, s, wide)
    case Str(op) => StringOp(env, s, op)
    case Branch(c) => Jcc(s, c)
    case Grp1(k) => Group1(env, s, k)
    case TestE(wide) => TestEa(env, s, wide)
    case XchgE(wide) => XchgEa(s, wide)
    case MovToE(wide) => MovToEa(s, wide)
    case MovFromE(wide) => MovFromEa(s, wide)
    case MovFromS => MovFromSeg(s)
    case LeaR => Lea(s)
    case MovToS => MovToSeg(s)
    case PopE => PopEa(s)
    case XchgA(n) => XchgAx(s, n)
    case SignExt(wide) => SignExtendAcc(s, wide)
    case FarCall => FarImm(s, true)
    case WaitR => Wait(s)
    case PushF => Pushf(env, s)
    case PopF => Popf(env, s)
    case SahfR => Sahf(env, s)
    case LahfR => Lahf(env, s)
    case LoadA(wide) => LoadAcc(s, wide)
    case StoreA(wide) => StoreAcc(s, wide)
    case TestA(wide) => TestAcc(env, s, wide)
    case LodsR(wide) => Lods(s, wide)
    case MovImm(n, wide) => MovRegImm(s, n, wide)
    case ShiftR(wide, c) => Shift(env, s, wide, c)
    case RetN(imm) => RetNear(s, imm)
    case LoadF(n) => LoadFar(s, n)
    case MovEaI(wide) => MovEaImm(s, wide)
    case EnterR => Enter(s)
    case LeaveR => Leave(s)
    case RetF(imm) => RetFar(s, imm)
    case IntR(k) => IntOp(s, k)
    case IretR => Iret(env, s)
    case AamR => AamOp(env, s)
    case AadR => AadOp(env, s)
    case XlatR => Xlat(s)
    case FpuR => Fpu(s)
    case LoopR(k) => LoopOp(s, k)
    case InR(wide, dx) => PortIn(env, s, wide, dx)
    case OutR(wide, dx) => PortOutOp(s, wide, dx)
    case CallN => CallNear(s)
    case JmpN(wide) => JmpNear(s, wide)
    case FarJmp => FarImm(s, false)
    case LockR => LockPrefix(s)
    case RepR(rep) => RepPrefix(s, rep)
    case HltR => Hlt(s)
    case FlagR(k) => FlagSet(s, k)
    case IntFlag(on) => SetIf(s, on)
    case GrpF6 => GroupF6(env, s)
    case GrpF7 => GroupF7(env, s)
    case GrpFE => GroupFE(env, s)
    case GrpFF => GroupFF(env, s)
  }
}
