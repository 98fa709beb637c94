// The K1801VM1 disassembler table (`pdp11_dasm_tab`) and its lookup in
// `pdp11_mnem`: the first row whose mask and code match the opcode word
// names the instruction, the catch-all row (mask 0) names "undef".  The
// operand fields the name templates refer to are modelled as values (the
// branch target of `:e`, the SOB target of `:j`, the condition-code letters
// of `:f`); the octal text formatting is not.

module Pdp11Dasm {
  import opened Common
  import opened Pdp11
  import opened Pdp11Alu
  import Ops = Pdp11Ops
  import Exec = Pdp11Exec

  /** One row of the table: an opcode matches when `com & mask == code`; `skip` is OF_SKIPABLE. */
  datatype Row = Row(mask: bv16, code: bv16, skip: bool, mnem: string)

  /** `pdp11_dasm_tab`, in the order of its rows, the catch-all row last. */
  const Table: seq<Row> := SystemRows + (ControlRows + (OneOperandRows + (TwoOperandRows + (EisRows + (HighBranchRows + ByteRows)))))

  /** The number of rows, the catch-all row included. */
  const TableSize := 82

  /** Rows 0..8: HALT .. STOP. */
  const SystemRows: seq<Row> := [
    Row(0xffff, 0x0000, false, "halt"),
    Row(0xffff, 0x0001, false, "wait"),
    Row(0xffff, 0x0002, false, "rti"),
    Row(0xffff, 0x0003, true, "bpt"),
    Row(0xffff, 0x0004, true, "iot"),
    Row(0xffff, 0x0005, false, "reset"),
    Row(0xffff, 0x0006, false, "rtt"),
    Row(0xffff, 0x0007, false, "start"),
    Row(0xffff, 0x0008, false, "stop")
  ]

  /** Rows 9..21: JMP, RTS, the condition codes, SWAB and the low branches. */
  const ControlRows: seq<Row> := [
    Row(0xffc0, 0x0040, false, "jmp :d"),
    Row(0xffff, 0x0087, false, "ret"),
    Row(0xfff8, 0x0080, false, "rts r:0"),
    Row(0xfff0, 0x00a0, false, "cl :f"),
    Row(0xfff0, 0x00b0, false, "se :f"),
    Row(0xffc0, 0x00c0, false, "swab :d"),
    Row(0xff00, 0x0100, false, "br :e"),
    Row(0xff00, 0x0200, false, "bne :e"),
    Row(0xff00, 0x0300, false, "beq :e"),
    Row(0xff00, 0x0400, false, "bge :e"),
    Row(0xff00, 0x0500, false, "blt :e"),
    Row(0xff00, 0x0600, false, "bgt :e"),
    Row(0xff00, 0x0700, false, "ble :e")
  ]

  /** Rows 22..38: CALL, JSR and the one-operand word instructions. */
  const OneOperandRows: seq<Row> := [
    Row(0xffc0, 0x09c0, true, "call :d"),
    Row(0xfe00, 0x0800, true, "jsr r:6,:d"),
    Row(0xffc0, 0x0a00, false, "clr :d"),
    Row(0xffc0, 0x0a40, false, "com :d"),
    Row(0xffc0, 0x0a80, false, "inc :d"),
    Row(0xffc0, 0x0ac0, false, "dec :d"),
    Row(0xffc0, 0x0b00, false, "neg :d"),
    Row(0xffc0, 0x0b40, false, "adc :d"),
    Row(0xffc0, 0x0b80, false, "sbc :d"),
    Row(0xffc0, 0x0bc0, false, "tst :d"),
    Row(0xffc0, 0x0c00, false, "ror :d"),
    Row(0xffc0, 0x0c40, false, "rol :d"),
    Row(0xffc0, 0x0c80, false, "asr :d"),
    Row(0xffc0, 0x0cc0, false, "arl :d"),
    Row(0xffc0, 0x0d40, false, "mfpi :d"),
    Row(0xffc0, 0x0d80, false, "mtpi :d"),
    Row(0xffc0, 0x0dc0, false, "sxt :d")
  ]

  /** Rows 39..44: the two-operand word instructions. */
  const TwoOperandRows: seq<Row> := [
    Row(0xf000, 0x1000, false, "mov :s,:d"),
    Row(0xf000, 0x2000, false, "cmp :s,:d"),
    Row(0xf000, 0x3000, false, "bit :s,:d"),
    Row(0xf000, 0x4000, false, "bic :s,:d"),
    Row(0xf000, 0x5000, false, "bis :s,:d"),
    Row(0xf000, 0x6000, false, "add :s,:d")
  ]

  /** Rows 45..50: the EIS group, XOR and SOB. */
  const EisRows: seq<Row> := [
    Row(0xfe00, 0x7000, false, "mul :d,r:6"),
    Row(0xfe00, 0x7200, false, "div :d,r:6"),
    Row(0xfe00, 0x7400, false, "ash :d,r:6"),
    Row(0xfe00, 0x7600, false, "ashc :d,r:6"),
    Row(0xfe00, 0x7800, false, "xor r:6,:d"),
    Row(0xfe00, 0x7e00, true, "sob r:6,:j")
  ]

  /** Rows 51..60: the high branches, EMT and TRAP. */
  const HighBranchRows: seq<Row> := [
    Row(0xff00, 0x8000, false, "bpl :e"),
    Row(0xff00, 0x8100, false, "bmi :e"),
    Row(0xff00, 0x8200, false, "bhi :e"),
    Row(0xff00, 0x8300, false, "blos :e"),
    Row(0xff00, 0x8400, false, "bvc :e"),
    Row(0xff00, 0x8500, false, "bvs :e"),
    Row(0xff00, 0x8600, false, "bcc :e"),
    Row(0xff00, 0x8700, false, "bcs :e"),
    Row(0xff00, 0x8800, true, "emt :x"),
    Row(0xff00, 0x8900, true, "trap :x")
  ]

  /** Rows 61..81: the byte instructions and the catch-all row. */
  const ByteRows: seq<Row> := [
    Row(0xffc0, 0x8a00, false, "clrb :d"),
    Row(0xffc0, 0x8a40, false, "comb :d"),
    Row(0xffc0, 0x8a80, false, "incb :d"),
    Row(0xffc0, 0x8ac0, false, "decb :d"),
    Row(0xffc0, 0x8b00, false, "negb :d"),
    Row(0xffc0, 0x8b40, false, "adcb :d"),
    Row(0xffc0, 0x8b80, false, "sbcb :d"),
    Row(0xffc0, 0x8bc0, false, "tstb :d"),
    Row(0xffc0, 0x8c00, false, "rorb :d"),
    Row(0xffc0, 0x8c40, false, "rolb :d"),
    Row(0xffc0, 0x8c80, false, "asrb :d"),
    Row(0xffc0, 0x8cc0, false, "aslb :d"),
    Row(0xffc0, 0x8d00, false, "mtps :d"),
    Row(0xffc0, 0x8dc0, false, "mfps :d"),
    Row(0xf000, 0x9000, false, "movb :s,:d"),
    Row(0xf000, 0xa000, false, "cmpb :s,:d"),
    Row(0xf000, 0xb000, false, "bitb :s,:d"),
    Row(0xf000, 0xc000, false, "bicb :s,:d"),
    Row(0xf000, 0xd000, false, "bisb :s,:d"),
    Row(0xf000, 0xe000, false, "sub :s,:d"),
    Row(0x0000, 0x0000, false, "undef")
  ]

  /** The lookup loop stops at a row when it is the catch-all row or the opcode matches it. */
  predicate Stops(row: Row, com: bv16)
  {
    row.mask == 0 || com & row.mask == row.code
  }

  /** A table the lookup cannot run off: its last row is a catch-all row. */
  predicate Terminated(t: seq<Row>)
  {
    |t| > 0 && t[|t| - 1].mask == 0
  }

  /** The last row of `pdp11_dasm_tab` is the catch-all row "undef". */
  lemma CatchAllLast()
    ensures |Table| == TableSize && Terminated(Table) && Table[TableSize - 1] == Row(0, 0, false, "undef")
  {
  }

  /** The row the lookup stops at when it starts from row `i` of table `t`. */
  function FirstFrom(t: seq<Row>, com: bv16, i: nat): (k: nat)
    requires Terminated(t) && i < |t|
    ensures i <= k < |t| && Stops(t[k], com)
    ensures forall j :: i <= j < k ==> !Stops(t[j], com)
    decreases |t| - i
  {
    if Stops(t[i], com) then i else FirstFrom(t, com, i + 1)
  }

  /** The row of `t` that names opcode `com`: the first one that matches. */
  function First(t: seq<Row>, com: bv16): (k: nat)
    requires Terminated(t)
    ensures k < |t| && Stops(t[k], com)
    ensures forall j :: 0 <= j < k ==> !Stops(t[j], com)
  {
    FirstFrom(t, com, 0)
  }

  /** The index loop of `pdp11_mnem`: it walks the table until the catch-all row or a match. */
  method Lookup(t: seq<Row>, com: bv16) returns (idx: nat)
    requires Terminated(t)
    ensures idx == First(t, com)
  {
    idx := 0;
    while t[idx].mask != 0 && com & t[idx].mask != t[idx].code
      invariant idx < |t|
      invariant FirstFrom(t, com, idx) == First(t, com)
      decreases |t| - idx
    {
      idx := idx + 1;
    }
  }

  /** What `pdp11_mnem` reports besides the text: the name template, the OF_SKIPABLE flag and the length. */
  datatype Mnem = Mnem(template: string, skipable: bool, len: nat, oadr: int)

  /** The report for opcode `com`; the length is always one word, and the operand address ends up 0. */
  function MnemOf(com: bv16): Mnem
  {
    CatchAllLast();
    var row := Table[First(Table, com)];
    Mnem(row.mnem, row.skip, 2, 0)
  }

  /**
   * `pdp11_mnem`: reads the opcode word low byte first through the memory
   * callback `mrd` at `qadr & 0xffff` and looks it up.
   */
  method Mnemonic(mrd: bv16 -> bv8, qadr: int) returns (m: Mnem)
    ensures var adr := WordOf(qadr); m == MnemOf(Word(mrd(adr + 1), mrd(adr)))
  {
    var adr := WordOf(qadr);
    var com: bv16 := mrd(adr) as bv16;
    adr := adr + 1;
    com := com | (mrd(adr) as bv16 << 8);
    CatchAllLast();
    var idx := Lookup(Table, com);
    m := Mnem(Table[idx].mnem, Table[idx].skip, 2, 0);
  }

  // ---------------------------------------------------------------------
  // First-match lookup over a table made of parts

  /** No row of `t` stops the lookup at opcode `com`. */
  predicate Misses(t: seq<Row>, com: bv16)
  {
    forall j :: 0 <= j < |t| ==> !Stops(t[j], com)
  }

  /** The first matching row is unique: a matching row with no match before it is the one the lookup finds. */
  lemma FirstIs(t: seq<Row>, com: bv16, k: nat)
    requires Terminated(t) && k < |t| && Stops(t[k], com)
    requires forall j :: 0 <= j < k ==> !Stops(t[j], com)
    ensures First(t, com) == k
  {
  }

  /** Rows that all miss are walked past: the lookup in `a + b` ends in `b`, at `b`'s own first match. */
  lemma FirstPast(a: seq<Row>, b: seq<Row>, com: bv16)
    requires Terminated(b) && Misses(a, com)
    ensures Terminated(a + b) && First(a + b, com) == |a| + First(b, com)
  {
    var k := |a| + First(b, com);
    assert (a + b)[k] == b[First(b, com)];
    forall j | 0 <= j < k
      ensures !Stops((a + b)[j], com)
    {
      if j >= |a| {
        assert (a + b)[j] == b[j - |a|];
      }
    }
    FirstIs(a + b, com, k);
  }

  /** The tails of the table after its first parts. */
  const AfterSystem := ControlRows + AfterControl
  const AfterControl := OneOperandRows + AfterOneOperand
  const AfterOneOperand := TwoOperandRows + AfterTwoOperand
  const AfterTwoOperand := EisRows + AfterEis
  const AfterEis := HighBranchRows + ByteRows

  /** The tails are terminated by the catch-all row, and the table is its parts in order. */
  lemma Tails()
    ensures Terminated(ByteRows) && Terminated(AfterEis) && Terminated(AfterTwoOperand)
    ensures Terminated(AfterOneOperand) && Terminated(AfterControl) && Terminated(AfterSystem)
    ensures Table == SystemRows + AfterSystem
    ensures |SystemRows| == 9 && |ControlRows| == 13 && |OneOperandRows| == 17
    ensures |TwoOperandRows| == 6 && |EisRows| == 6 && |HighBranchRows| == 10 && |ByteRows| == 21
  {
  }

  // ---------------------------------------------------------------------
  // Which rows miss which opcodes

  /** HALT .. STOP name only the opcodes 000000 .. 000010. */
  lemma SystemMisses(com: bv16)
    requires com & 0xfff0 != 0
    ensures Misses(SystemRows, com)
  {
  }

  /** The control rows all name opcodes below 004000. */
  lemma ControlMisses(com: bv16)
    requires com & 0xf800 != 0
    ensures Misses(ControlRows, com)
  {
  }

  /** The one-operand word rows all name opcodes below 010000. */
  lemma OneOperandMisses(com: bv16)
    requires com & 0xf000 != 0
    ensures Misses(OneOperandRows, com)
  {
  }

  /** The two-operand word rows name opcodes 010000 .. 067777. */
  lemma TwoOperandMisses(com: bv16)
    requires com & 0x8000 != 0 || com & 0xf000 == 0x7000
    ensures Misses(TwoOperandRows, com)
  {
  }

  /** The EIS rows name opcodes 070000 .. 077777. */
  lemma EisMisses(com: bv16)
    requires com & 0x8000 != 0
    ensures Misses(EisRows, com)
  {
  }

  /** The last word-instruction rows before EMT and TRAP name opcodes below 104000. */
  lemma HighBranchMisses(com: bv16)
    requires com & 0xff00 == 0x8800 || com & 0xff00 == 0x8900
    ensures forall j :: 0 <= j < 8 ==> !Stops(HighBranchRows[j], com)
  {
  }

  /** The EIS rows before SOB name opcodes 070000 .. 074777. */
  lemma EisBeforeSob(com: bv16)
    requires com & 0xfe00 == 0x7e00
    ensures forall j :: 0 <= j < 5 ==> !Stops(EisRows[j], com)
  {
  }

  // ---------------------------------------------------------------------
  // The rows of the instructions a debugger steps over

  /** The instructions the OF_SKIPABLE flag is meant for: traps, subroutine calls and the SOB loop, which end up at the next instruction. */
  predicate StepsOver(op: Exec.Op)
  {
    op.Bpt? || op.Iot? || op.Jsr? || op.Sob? || op.Emt? || op.TrapInstr?
  }

  /** BPT 000003 and IOT 000004 are named by their own rows. */
  lemma BptIotShown()
    ensures MnemOf(0x0003) == Mnem("bpt", true, 2, 0)
    ensures MnemOf(0x0004) == Mnem("iot", true, 2, 0)
  {
    Tails();
    FirstIs(Table, 0x0003, 3);
    FirstIs(Table, 0x0004, 4);
  }

  /** The lookup walks past HALT .. STOP for every opcode above 000017. */
  lemma PastSystem(com: bv16)
    requires com & 0xfff0 != 0
    ensures First(Table, com) == 9 + First(AfterSystem, com)
    ensures Table[First(Table, com)] == AfterSystem[First(AfterSystem, com)]
  {
    Tails();
    SystemMisses(com);
    FirstPast(SystemRows, AfterSystem, com);
  }

  /** ... and past the control rows for every opcode from 004000 on. */
  lemma PastControl(com: bv16)
    requires com & 0xf800 != 0
    ensures First(AfterSystem, com) == 13 + First(AfterControl, com)
    ensures AfterSystem[First(AfterSystem, com)] == AfterControl[First(AfterControl, com)]
  {
    Tails();
    ControlMisses(com);
    FirstPast(ControlRows, AfterControl, com);
  }

  /** ... and past the one-operand word rows from 010000 on. */
  lemma PastOneOperand(com: bv16)
    requires com & 0xf000 != 0
    ensures First(AfterControl, com) == 17 + First(AfterOneOperand, com)
    ensures AfterControl[First(AfterControl, com)] == AfterOneOperand[First(AfterOneOperand, com)]
  {
    Tails();
    OneOperandMisses(com);
    FirstPast(OneOperandRows, AfterOneOperand, com);
  }

  /** ... and past the two-operand word rows for 07xxxx and from 100000 on. */
  lemma PastTwoOperand(com: bv16)
    requires com & 0x8000 != 0 || com & 0xf000 == 0x7000
    ensures First(AfterOneOperand, com) == 6 + First(AfterTwoOperand, com)
    ensures AfterOneOperand[First(AfterOneOperand, com)] == AfterTwoOperand[First(AfterTwoOperand, com)]
  {
    Tails();
    TwoOperandMisses(com);
    FirstPast(TwoOperandRows, AfterTwoOperand, com);
  }

  /** ... and past the EIS rows from 100000 on. */
  lemma PastEis(com: bv16)
    requires com & 0x8000 != 0
    ensures First(AfterTwoOperand, com) == 6 + First(AfterEis, com)
    ensures AfterTwoOperand[First(AfterTwoOperand, com)] == AfterEis[First(AfterEis, com)]
  {
    Tails();
    EisMisses(com);
    FirstPast(EisRows, AfterEis, com);
  }

  /** JSR 004rdd is shown as "call" when the link register is PC and as "jsr" otherwise; both are skipable. */
  lemma JsrShown(com: bv16)
    requires com & 0xfe00 == 0x0800
    ensures MnemOf(com).skipable
    ensures MnemOf(com).template == if com & 0xffc0 == 0x09c0 then "call :d" else "jsr r:6,:d"
  {
    PastSystem(com);
    PastControl(com);
    Tails();
    if com & 0xffc0 == 0x09c0 {
      FirstIs(AfterControl, com, 0);
    } else {
      FirstIs(AfterControl, com, 1);
    }
  }

  /** SOB 077rnn is named by its row, and is skipable. */
  lemma SobShown(com: bv16)
    requires com & 0xfe00 == 0x7e00
    ensures MnemOf(com) == Mnem("sob r:6,:j", true, 2, 0)
  {
    PastSystem(com);
    PastControl(com);
    PastOneOperand(com);
    PastTwoOperand(com);
    EisBeforeSob(com);
    Tails();
    FirstIs(AfterTwoOperand, com, 5);
  }

  /** EMT 104000 .. 104377 and TRAP 104400 .. 104777 are named by their rows, and are skipable. */
  lemma TrapShown(com: bv16)
    requires com & 0xff00 == 0x8800 || com & 0xff00 == 0x8900
    ensures MnemOf(com) == if com & 0xff00 == 0x8800 then Mnem("emt :x", true, 2, 0) else Mnem("trap :x", true, 2, 0)
  {
    PastSystem(com);
    PastControl(com);
    PastOneOperand(com);
    PastTwoOperand(com);
    PastEis(com);
    HighBranchMisses(com);
    Tails();
    if com & 0xff00 == 0x8800 {
      FirstIs(AfterEis, com, 8);
    } else {
      FirstIs(AfterEis, com, 9);
    }
  }

  /** RTS 00020r is shown as "ret" when it returns through PC, and as "rts" otherwise. */
  lemma RtsShown(com: bv16)
    requires com & 0xfff8 == 0x0080
    ensures MnemOf(com).template == if com == 0x0087 then "ret" else "rts r:0"
  {
    PastSystem(com);
    Tails();
    if com == 0x0087 {
      FirstIs(AfterSystem, com, 1);
    } else {
      FirstIs(AfterSystem, com, 2);
    }
  }

  // ---------------------------------------------------------------------
  // Against the executor's decoding

  /** The opcodes of the skipable rows: BPT, IOT, JSR (and CALL), SOB, EMT and TRAP. */
  predicate SkipPattern(com: bv16)
  {
    com == 0x0003 || com == 0x0004 || com & 0xfe00 == 0x0800 || com & 0xfe00 == 0x7e00
    || com & 0xff00 == 0x8800 || com & 0xff00 == 0x8900
  }

  /** Every skipable row of `t` that stops at `com` is one of the rows of SkipPattern. */
  predicate SkipsOnly(t: seq<Row>, com: bv16)
  {
    forall j :: 0 <= j < |t| && t[j].skip && Stops(t[j], com) ==> SkipPattern(com)
  }

  lemma SkipsOnlyAppend(a: seq<Row>, b: seq<Row>, com: bv16)
    requires SkipsOnly(a, com) && SkipsOnly(b, com)
    ensures SkipsOnly(a + b, com)
  {
    forall j | 0 <= j < |a + b| && (a + b)[j].skip && Stops((a + b)[j], com)
      ensures SkipPattern(com)
    {
      if j >= |a| {
        assert (a + b)[j] == b[j - |a|];
      }
    }
  }

  /** Each part of the table flags only rows of SkipPattern. */
  lemma SystemSkipsOnly(com: bv16)
    ensures SkipsOnly(SystemRows, com)
  {
  }

  lemma ControlSkipsOnly(com: bv16)
    ensures SkipsOnly(ControlRows, com)
  {
  }

  lemma OneOperandSkipsOnly(com: bv16)
    ensures SkipsOnly(OneOperandRows, com)
  {
  }

  lemma TwoOperandSkipsOnly(com: bv16)
    ensures SkipsOnly(TwoOperandRows, com)
  {
  }

  lemma EisSkipsOnly(com: bv16)
    ensures SkipsOnly(EisRows, com)
  {
  }

  lemma HighBranchSkipsOnly(com: bv16)
    ensures SkipsOnly(HighBranchRows, com)
  {
  }

  lemma ByteSkipsOnly(com: bv16)
    ensures SkipsOnly(ByteRows, com)
  {
  }

  /** The whole table flags only rows of SkipPattern. */
  lemma TableSkipsOnly(com: bv16)
    ensures SkipsOnly(Table, com)
  {
    SystemSkipsOnly(com);
    ControlSkipsOnly(com);
    OneOperandSkipsOnly(com);
    TwoOperandSkipsOnly(com);
    EisSkipsOnly(com);
    HighBranchSkipsOnly(com);
    ByteSkipsOnly(com);
    SkipsOnlyAppend(HighBranchRows, ByteRows, com);
    SkipsOnlyAppend(EisRows, AfterEis, com);
    SkipsOnlyAppend(TwoOperandRows, AfterTwoOperand, com);
    SkipsOnlyAppend(OneOperandRows, AfterOneOperand, com);
    SkipsOnlyAppend(ControlRows, AfterControl, com);
    SkipsOnlyAppend(SystemRows, AfterSystem, com);
    Tails();
  }

  /** BPT is exactly the opcode 000003. */
  lemma BptOpcode(com: bv16)
    ensures Exec.Decode(com) == Exec.Bpt <==> com == 0x0003
  {
  }

  /** IOT is exactly the opcode 000004. */
  lemma IotOpcode(com: bv16)
    ensures Exec.Decode(com) == Exec.Iot <==> com == 0x0004
  {
  }

  /** JSR is exactly the opcodes 004rdd. */
  lemma JsrOpcodes(com: bv16)
    ensures Exec.Decode(com) == Exec.Jsr <==> com & 0xfe00 == 0x0800
  {
  }

  /** SOB is exactly the opcodes 077rnn. */
  lemma SobOpcodes(com: bv16)
    ensures Exec.Decode(com) == Exec.Sob <==> com & 0xfe00 == 0x7e00
  {
  }

  /** EMT is exactly the opcodes 1040xx .. 1043xx. */
  lemma EmtOpcodes(com: bv16)
    ensures Exec.Decode(com) == Exec.Emt <==> com & 0xff00 == 0x8800
  {
  }

  /** TRAP is exactly the opcodes 1044xx .. 1047xx. */
  lemma TrapOpcodes(com: bv16)
    ensures Exec.Decode(com) == Exec.TrapInstr <==> com & 0xff00 == 0x8900
  {
  }

  /** The opcodes of the skipable rows are exactly those the executor runs as traps and calls. */
  lemma SkipPatternStepsOver(com: bv16)
    ensures SkipPattern(com) <==> StepsOver(Exec.Decode(com))
  {
    BptOpcode(com);
    IotOpcode(com);
    JsrOpcodes(com);
    SobOpcodes(com);
    EmtOpcodes(com);
    TrapOpcodes(com);
  }

  /**
   * The disassembler flags an opcode as skipable exactly when the executor
   * runs it as a trap or a subroutine call (BPT, IOT, JSR, SOB, EMT, TRAP).
   */
  lemma SkipableIffStepsOver(com: bv16)
    ensures MnemOf(com).skipable <==> StepsOver(Exec.Decode(com))
  {
    SkipPatternStepsOver(com);
    if SkipPattern(com) {
      if com == 0x0003 || com == 0x0004 {
        BptIotShown();
      } else if com & 0xfe00 == 0x0800 {
        JsrShown(com);
      } else if com & 0xfe00 == 0x7e00 {
        SobShown(com);
      } else {
        TrapShown(com);
      }
    }
    TableSkipsOnly(com);
    CatchAllLast();
  }

  // ---------------------------------------------------------------------
  // The operand fields of the name templates

  /** `:e`: the branch target shown, from the address `adr` just past the opcode word. */
  function BranchShown(adr: bv16, com: bv16): bv16
  {
    adr + ShownOffset(com)
  }

  /** The low byte of the opcode made signed and doubled, as `:e` computes it. */
  function ShownOffset(com: bv16): bv16
  {
    var d := com & 0xff;
    var dtw := if Has(com, 0x80) then d | 0xff00 else d;
    dtw << 1
  }

  /** The displacement `:e` computes is the one the branch handler adds. */
  lemma ShownOffsetIsOffset(com: bv16)
    ensures ShownOffset(com) == Offset(com)
  {
  }

  /** The branch target shown is the one the branch handler jumps to from the PC after the fetch. */
  lemma BranchShownIsTarget(adr: bv16, com: bv16)
    ensures BranchShown(adr, com) == Ops.Target(adr, com)
  {
    ShownOffsetIsOffset(com);
    assert BranchShown(adr, com) == adr + Offset(com);
  }

  /** `:j`: the SOB target shown, the address `adr` just past the opcode less the six-bit field doubled. */
  function LoopShown(adr: bv16, com: bv16): bv16
  {
    adr - Ops.Words(com)
  }

  /**
   * The SOB target shown is where SOB sends PC when its counter does not reach 0, the
   * address after the fetch being the PC the handler starts from.
   */
  lemma LoopShownIsTarget(s: State)
    requires Ops.HighReg(s) != 7 && s.r[Ops.HighReg(s)] != 1
    ensures Ops.Sob(s).r[7] == LoopShown(s.r[7], Ops.Opcode(s))
  {
    Ops.SobCounts(s);
  }

  /** `:f`: the letters of the condition codes named in the low nibble of CL / SE, or "0" when there are none. */
  function CodeLetters(com: bv16): string
  {
    (if Has(com, 1) then "C" else "") + (if Has(com, 2) then "V" else "")
    + (if Has(com, 4) then "Z" else "") + (if Has(com, 8) then "N" else "")
    + (if com & 0xf == 0 then "0" else "")
  }

  /** A letter is shown exactly when its bit is set, and "0" exactly when no bit is. */
  lemma CodeLettersNamed(com: bv16)
    ensures 'C' in CodeLetters(com) <==> Has(com, 1)
    ensures 'V' in CodeLetters(com) <==> Has(com, 2)
    ensures 'Z' in CodeLetters(com) <==> Has(com, 4)
    ensures 'N' in CodeLetters(com) <==> Has(com, 8)
    ensures CodeLetters(com) == "0" <==> com & 0xf == 0
  {
  }

  /** The letters shown for CL are exactly the condition codes it clears. */
  lemma ClearShown(p: Psw, com: bv16)
    ensures ClearCodes(p, com) == p.(c := p.c && 'C' !in CodeLetters(com), v := p.v && 'V' !in CodeLetters(com),
                                     z := p.z && 'Z' !in CodeLetters(com), n := p.n && 'N' !in CodeLetters(com))
  {
    ClearSelected(p, com);
    CodeLettersNamed(com);
  }

  /** The letters shown for SE are exactly the condition codes it sets. */
  lemma SetShown(p: Psw, com: bv16)
    ensures SetCodes(p, com) == p.(c := p.c || 'C' in CodeLetters(com), v := p.v || 'V' in CodeLetters(com),
                                   z := p.z || 'Z' in CodeLetters(com), n := p.n || 'N' in CodeLetters(com))
  {
    SetSelected(p, com);
    CodeLettersNamed(com);
  }

  /** `qadr & 0xffff` for a C `int`: the address modulo 2^16. */
  function WordOf(qadr: int): bv16
  {
    (qadr % 0x10000) as bv16
  }
}
