// What the opcode table of the 80286 engine names: the generation gating, the prefixes, the
// entries with no handler, and the rows that share their operation with the groups.

module I286TabFacts {
  import opened I286
  import opened I286Alu
  import opened I286Ops
  import opened I286Tab
  import I286AluFacts

  /** An 80286 (generation 2) runs the handler of i80286_tab itself for every opcode byte. */
  lemma Generation286(op: bv8)
    ensures Resolve(op, 2) == TableEntry(op)
  {
  }

  /** An 8086 (generation 0) finds no handler behind any generation-gated entry. */
  lemma Generation8086(op: bv8)
    requires GenGated(op)
    ensures Resolve(op, 0) == Nodef
  {
  }

  /** An 80186 (generation 1) lacks exactly the 0F page and ARPL among the gated entries. */
  lemma Generation186(op: bv8)
    requires GenGated(op)
    ensures Resolve(op, 1) == Nodef <==> op == 0x0f || op == 0x63
  {
  }

  /** The entries of i80286_tab that name i8086_nodef: the four 80386 prefixes 64 .. 67 and SALC. */
  lemma UndefinedEntries(op: bv8)
    ensures TableEntry(op) == Nodef <==> (0x64 <= op <= 0x67) || op == 0xd6
  {
  }

  /** Every prefix entry sets a prefix state or has no handler. */
  lemma PrefixEntries(op: bv8)
    requires IsPrefix(op)
    ensures TableEntry(op).Prefix0F? || TableEntry(op).SegPrefix? || TableEntry(op).Nodef? ||
            TableEntry(op).LockR? || TableEntry(op).RepR?
  {
  }

  /** Row k of the ALU block (00 .. 3D) runs the operation that reg field k selects in group 80 .. 83. */
  lemma AluRowsMatchGroup(k: bv8)
    requires k < 8
    ensures TableEntry(8 * k) == AluEa(AluOf(k), false) && TableEntry(8 * k + 1) == AluEa(AluOf(k), true)
    ensures TableEntry(8 * k + 2) == AluReg(AluOf(k), false) && TableEntry(8 * k + 3) == AluReg(AluOf(k), true)
    ensures TableEntry(8 * k + 4) == AluAcc(AluOf(k), false) && TableEntry(8 * k + 5) == AluAcc(AluOf(k), true)
  {
  }

  /** The conditional jumps 70 .. 7F come in pairs: the odd entry jumps exactly when the even one does not. */
  lemma BranchPairs(f: Flags, k: bv8)
    requires k < 8
    ensures TableEntry(0x70 + 2 * k).Branch? && TableEntry(0x71 + 2 * k).Branch?
    ensures Holds(f, TableEntry(0x71 + 2 * k).cond) <==> !Holds(f, TableEntry(0x70 + 2 * k).cond)
  {
    I286AluFacts.CondPairs(f, k);
  }

  /** Columns 6 and 7 of rows 0 to 3: 06 / 07 push and pop ES, 16 / 17 SS, 1E / 1F DS; 0E pushes CS, and 0F is no POP CS. */
  lemma SegmentColumn()
    ensures TableEntry(0x06) == PushS(ES) && TableEntry(0x07) == PopS(ES)
    ensures TableEntry(0x0e) == PushS(CS) && TableEntry(0x0f) == Prefix0F
    ensures TableEntry(0x16) == PushS(SS) && TableEntry(0x17) == PopS(SS)
    ensures TableEntry(0x1e) == PushS(DS) && TableEntry(0x1f) == PopS(DS)
  {
  }

  /** Column 6 of rows 4 to 7: 26, 2E, 36 and 3E are the segment overrides ES, CS, SS, DS. */
  lemma SegmentPrefixes()
    ensures TableEntry(0x26) == SegPrefix(ES) && TableEntry(0x2e) == SegPrefix(CS)
    ensures TableEntry(0x36) == SegPrefix(SS) && TableEntry(0x3e) == SegPrefix(DS)
  {
  }
}
