// The constant tables of the Z80 core: the half-carry and overflow lookup tables used by
// the arithmetic helpers, and the DAA table holding the (F, A) pair for every combination
// of A and the C, N and H flags.
//
// daaTab is kept as 128 rows of 16 (F, A) pairs, each the contents of four lines of
// z80_tab.c; `DaaByte` reads it as the source's 0x1000-byte array. Every row is proved,
// four pairs at a time, to follow the decimal-adjust rule `DaaF` / `DaaA`.

module Z80Tables {
  import opened Common

  // ---------------------------------------------------------------------------
  // Half-carry and overflow tables

  /**
   * The 3-bit index of these tables: bit 0 from the first operand, bit 1 from the second
   * operand, bit 2 from the result, all taken at one bit position (3 for H, 7 for V).
   */
  function Idx(x: bool, y: bool, r: bool): nat
  {
    (if x then 1 else 0) + (if y then 2 else 0) + (if r then 4 else 0)
  }

  const FHaddTab: seq<bv8> := [0, 1, 1, 1, 0, 0, 0, 1]
  const FHsubTab: seq<bv8> := [0, 0, 1, 0, 1, 0, 1, 1]
  const FVaddTab: seq<bv8> := [0, 0, 0, 1, 1, 0, 0, 0]
  const FVsubTab: seq<bv8> := [0, 1, 0, 0, 0, 0, 1, 0]

  /** Carry out of one bit position of x + y whose result bit is r. */
  predicate AddCarry(x: bool, y: bool, r: bool)
  {
    var cin := x != (y != r);
    (x && y) || (x && cin) || (y && cin)
  }

  /** Borrow out of one bit position of x - y whose result bit is r. */
  predicate SubBorrow(x: bool, y: bool, r: bool)
  {
    var bin := x != (y != r);
    (!x && y) || (!x && bin) || (y && bin)
  }

  /** Signed overflow of x + y: equal operand signs, a different result sign. */
  predicate AddOverflow(x: bool, y: bool, r: bool)
  {
    x == y && r != x
  }

  /** Signed overflow of x - y: different operand signs, a result sign unlike x's. */
  predicate SubOverflow(x: bool, y: bool, r: bool)
  {
    x != y && r != x
  }

  function Flag(b: bool): bv8
  {
    if b then 1 else 0
  }

  /** FHaddTab and FHsubTab are the carry and the borrow out of the indexed bit. */
  lemma HalfCarryTables(x: bool, y: bool, r: bool)
    ensures FHaddTab[Idx(x, y, r)] == Flag(AddCarry(x, y, r))
    ensures FHsubTab[Idx(x, y, r)] == Flag(SubBorrow(x, y, r))
  {
  }

  /** FVaddTab and FVsubTab are the signed overflow of addition and subtraction. */
  lemma OverflowTables(x: bool, y: bool, r: bool)
    ensures FVaddTab[Idx(x, y, r)] == Flag(AddOverflow(x, y, r))
    ensures FVsubTab[Idx(x, y, r)] == Flag(SubOverflow(x, y, r))
  {
  }

  /** FVaddTab is 1 only at 3 and 4, FVsubTab only at 1 and 6, and both are 0 elsewhere. */
  lemma OverflowTableEntries(i: int)
    requires 0 <= i < 8
    ensures FVaddTab[i] == (if i == 3 || i == 4 then 1 else 0)
    ensures FVsubTab[i] == (if i == 1 || i == 6 then 1 else 0)
  {
  }

  // ---------------------------------------------------------------------------
  // The decimal-adjust rule

  /** The correction DAA adds or subtracts. */
  function DaaDiff(a: bv8, c: bool, h: bool): bv8
  {
    (if h || a & 0x0f > 9 then 6 else 0) + (if c || a > 0x99 then 0x60 else 0)
  }

  /** The adjusted accumulator. */
  function DaaA(a: bv8, c: bool, n: bool, h: bool): bv8
  {
    if n then a - DaaDiff(a, c, h) else a + DaaDiff(a, c, h)
  }

  /** Carry after DAA: kept, or set when A exceeded 0x99. */
  predicate DaaC(a: bv8, c: bool)
  {
    c || a > 0x99
  }

  /** Half carry after DAA. */
  predicate DaaH(a: bv8, n: bool, h: bool)
  {
    if n then h && a & 0x0f < 6 else a & 0x0f > 9
  }

  /** 1 when `v` has an odd number of set bits. */
  function OddBits(v: bv8): bv8
  {
    var x := v ^ (v >> 4);
    var y := x ^ (x >> 2);
    (y ^ (y >> 1)) & 1
  }

  /** The flag byte after DAA: S, F5 and F3 from the result, Z, H, P (even parity), N, C. */
  function DaaF(a: bv8, c: bool, n: bool, h: bool): bv8
  {
    var r := DaaA(a, c, n, h);
    (r & 0xa8) | Bit(r == 0, 0x40) | Bit(DaaH(a, n, h), 0x10) | Bit(OddBits(r) == 0, 4) |
    Bit(n, 2) | Bit(DaaC(a, c), 1)
  }

  /** The (F, A) pair the rule gives for A = a and the flags c, n, h. */
  function DaaOut(a: bv8, c: bool, n: bool, h: bool): Pair
  {
    Pair(DaaF(a, c, n, h), DaaA(a, c, n, h))
  }

  /** One entry of daaTab: the flag byte F and the accumulator A. */
  datatype Pair = Pair(f: bv8, a: bv8)

  /** Four source lines of daaTab: 16 (F, A) pairs. */
  datatype Row = Row(
    p0: Pair, p1: Pair, p2: Pair, p3: Pair,
    p4: Pair, p5: Pair, p6: Pair, p7: Pair,
    p8: Pair, p9: Pair, p10: Pair, p11: Pair,
    p12: Pair, p13: Pair, p14: Pair, p15: Pair)

  /** Pair j of a row. */
  function PairAt(row: Row, j: bv8): Pair
    requires j < 16
  {
    if j == 0 then row.p0 else if j == 1 then row.p1 else if j == 2 then row.p2
    else if j == 3 then row.p3 else if j == 4 then row.p4 else if j == 5 then row.p5
    else if j == 6 then row.p6 else if j == 7 then row.p7 else if j == 8 then row.p8
    else if j == 9 then row.p9 else if j == 10 then row.p10 else if j == 11 then row.p11
    else if j == 12 then row.p12 else if j == 13 then row.p13 else if j == 14 then row.p14
    else row.p15
  }

  /** Row k (k < 128) holds the pairs with flag group k >> 4 (C, N, H) and A = (k << 4) | lo. */
  ghost predicate RowRule(row: Row, k: bv8)
  {
    forall lo: bv8 :: lo < 16 ==>
      PairAt(row, lo) == DaaOut((k << 4) | lo, k & 0x10 != 0, k & 0x20 != 0, k & 0x40 != 0)
  }

  // ---------------------------------------------------------------------------
  // daaTab (z80_tab.c, lines 11-522): 128 rows of 16 (F, A) pairs, four source lines each

  const R0 := Row(Pair(0x44, 0x00), Pair(0x00, 0x01), Pair(0x00, 0x02), Pair(0x04, 0x03), Pair(0x00, 0x04), Pair(0x04, 0x05), Pair(0x04, 0x06), Pair(0x00, 0x07),
    Pair(0x08, 0x08), Pair(0x0c, 0x09), Pair(0x10, 0x10), Pair(0x14, 0x11), Pair(0x14, 0x12), Pair(0x10, 0x13), Pair(0x14, 0x14), Pair(0x10, 0x15))
  const R1 := Row(Pair(0x00, 0x10), Pair(0x04, 0x11), Pair(0x04, 0x12), Pair(0x00, 0x13), Pair(0x04, 0x14), Pair(0x00, 0x15), Pair(0x00, 0x16), Pair(0x04, 0x17),
    Pair(0x0c, 0x18), Pair(0x08, 0x19), Pair(0x30, 0x20), Pair(0x34, 0x21), Pair(0x34, 0x22), Pair(0x30, 0x23), Pair(0x34, 0x24), Pair(0x30, 0x25))
  const R2 := Row(Pair(0x20, 0x20), Pair(0x24, 0x21), Pair(0x24, 0x22), Pair(0x20, 0x23), Pair(0x24, 0x24), Pair(0x20, 0x25), Pair(0x20, 0x26), Pair(0x24, 0x27),
    Pair(0x2c, 0x28), Pair(0x28, 0x29), Pair(0x34, 0x30), Pair(0x30, 0x31), Pair(0x30, 0x32), Pair(0x34, 0x33), Pair(0x30, 0x34), Pair(0x34, 0x35))
  const R3 := Row(Pair(0x24, 0x30), Pair(0x20, 0x31), Pair(0x20, 0x32), Pair(0x24, 0x33), Pair(0x20, 0x34), Pair(0x24, 0x35), Pair(0x24, 0x36), Pair(0x20, 0x37),
    Pair(0x28, 0x38), Pair(0x2c, 0x39), Pair(0x10, 0x40), Pair(0x14, 0x41), Pair(0x14, 0x42), Pair(0x10, 0x43), Pair(0x14, 0x44), Pair(0x10, 0x45))
  const R4 := Row(Pair(0x00, 0x40), Pair(0x04, 0x41), Pair(0x04, 0x42), Pair(0x00, 0x43), Pair(0x04, 0x44), Pair(0x00, 0x45), Pair(0x00, 0x46), Pair(0x04, 0x47),
    Pair(0x0c, 0x48), Pair(0x08, 0x49), Pair(0x14, 0x50), Pair(0x10, 0x51), Pair(0x10, 0x52), Pair(0x14, 0x53), Pair(0x10, 0x54), Pair(0x14, 0x55))
  const R5 := Row(Pair(0x04, 0x50), Pair(0x00, 0x51), Pair(0x00, 0x52), Pair(0x04, 0x53), Pair(0x00, 0x54), Pair(0x04, 0x55), Pair(0x04, 0x56), Pair(0x00, 0x57),
    Pair(0x08, 0x58), Pair(0x0c, 0x59), Pair(0x34, 0x60), Pair(0x30, 0x61), Pair(0x30, 0x62), Pair(0x34, 0x63), Pair(0x30, 0x64), Pair(0x34, 0x65))
  const R6 := Row(Pair(0x24, 0x60), Pair(0x20, 0x61), Pair(0x20, 0x62), Pair(0x24, 0x63), Pair(0x20, 0x64), Pair(0x24, 0x65), Pair(0x24, 0x66), Pair(0x20, 0x67),
    Pair(0x28, 0x68), Pair(0x2c, 0x69), Pair(0x30, 0x70), Pair(0x34, 0x71), Pair(0x34, 0x72), Pair(0x30, 0x73), Pair(0x34, 0x74), Pair(0x30, 0x75))
  const R7 := Row(Pair(0x20, 0x70), Pair(0x24, 0x71), Pair(0x24, 0x72), Pair(0x20, 0x73), Pair(0x24, 0x74), Pair(0x20, 0x75), Pair(0x20, 0x76), Pair(0x24, 0x77),
    Pair(0x2c, 0x78), Pair(0x28, 0x79), Pair(0x90, 0x80), Pair(0x94, 0x81), Pair(0x94, 0x82), Pair(0x90, 0x83), Pair(0x94, 0x84), Pair(0x90, 0x85))
  const R8 := Row(Pair(0x80, 0x80), Pair(0x84, 0x81), Pair(0x84, 0x82), Pair(0x80, 0x83), Pair(0x84, 0x84), Pair(0x80, 0x85), Pair(0x80, 0x86), Pair(0x84, 0x87),
    Pair(0x8c, 0x88), Pair(0x88, 0x89), Pair(0x94, 0x90), Pair(0x90, 0x91), Pair(0x90, 0x92), Pair(0x94, 0x93), Pair(0x90, 0x94), Pair(0x94, 0x95))
  const R9 := Row(Pair(0x84, 0x90), Pair(0x80, 0x91), Pair(0x80, 0x92), Pair(0x84, 0x93), Pair(0x80, 0x94), Pair(0x84, 0x95), Pair(0x84, 0x96), Pair(0x80, 0x97),
    Pair(0x88, 0x98), Pair(0x8c, 0x99), Pair(0x55, 0x00), Pair(0x11, 0x01), Pair(0x11, 0x02), Pair(0x15, 0x03), Pair(0x11, 0x04), Pair(0x15, 0x05))
  const R10 := Row(Pair(0x45, 0x00), Pair(0x01, 0x01), Pair(0x01, 0x02), Pair(0x05, 0x03), Pair(0x01, 0x04), Pair(0x05, 0x05), Pair(0x05, 0x06), Pair(0x01, 0x07),
    Pair(0x09, 0x08), Pair(0x0d, 0x09), Pair(0x11, 0x10), Pair(0x15, 0x11), Pair(0x15, 0x12), Pair(0x11, 0x13), Pair(0x15, 0x14), Pair(0x11, 0x15))
  const R11 := Row(Pair(0x01, 0x10), Pair(0x05, 0x11), Pair(0x05, 0x12), Pair(0x01, 0x13), Pair(0x05, 0x14), Pair(0x01, 0x15), Pair(0x01, 0x16), Pair(0x05, 0x17),
    Pair(0x0d, 0x18), Pair(0x09, 0x19), Pair(0x31, 0x20), Pair(0x35, 0x21), Pair(0x35, 0x22), Pair(0x31, 0x23), Pair(0x35, 0x24), Pair(0x31, 0x25))
  const R12 := Row(Pair(0x21, 0x20), Pair(0x25, 0x21), Pair(0x25, 0x22), Pair(0x21, 0x23), Pair(0x25, 0x24), Pair(0x21, 0x25), Pair(0x21, 0x26), Pair(0x25, 0x27),
    Pair(0x2d, 0x28), Pair(0x29, 0x29), Pair(0x35, 0x30), Pair(0x31, 0x31), Pair(0x31, 0x32), Pair(0x35, 0x33), Pair(0x31, 0x34), Pair(0x35, 0x35))
  const R13 := Row(Pair(0x25, 0x30), Pair(0x21, 0x31), Pair(0x21, 0x32), Pair(0x25, 0x33), Pair(0x21, 0x34), Pair(0x25, 0x35), Pair(0x25, 0x36), Pair(0x21, 0x37),
    Pair(0x29, 0x38), Pair(0x2d, 0x39), Pair(0x11, 0x40), Pair(0x15, 0x41), Pair(0x15, 0x42), Pair(0x11, 0x43), Pair(0x15, 0x44), Pair(0x11, 0x45))
  const R14 := Row(Pair(0x01, 0x40), Pair(0x05, 0x41), Pair(0x05, 0x42), Pair(0x01, 0x43), Pair(0x05, 0x44), Pair(0x01, 0x45), Pair(0x01, 0x46), Pair(0x05, 0x47),
    Pair(0x0d, 0x48), Pair(0x09, 0x49), Pair(0x15, 0x50), Pair(0x11, 0x51), Pair(0x11, 0x52), Pair(0x15, 0x53), Pair(0x11, 0x54), Pair(0x15, 0x55))
  const R15 := Row(Pair(0x05, 0x50), Pair(0x01, 0x51), Pair(0x01, 0x52), Pair(0x05, 0x53), Pair(0x01, 0x54), Pair(0x05, 0x55), Pair(0x05, 0x56), Pair(0x01, 0x57),
    Pair(0x09, 0x58), Pair(0x0d, 0x59), Pair(0x35, 0x60), Pair(0x31, 0x61), Pair(0x31, 0x62), Pair(0x35, 0x63), Pair(0x31, 0x64), Pair(0x35, 0x65))
  const R16 := Row(Pair(0x25, 0x60), Pair(0x21, 0x61), Pair(0x21, 0x62), Pair(0x25, 0x63), Pair(0x21, 0x64), Pair(0x25, 0x65), Pair(0x25, 0x66), Pair(0x21, 0x67),
    Pair(0x29, 0x68), Pair(0x2d, 0x69), Pair(0x31, 0x70), Pair(0x35, 0x71), Pair(0x35, 0x72), Pair(0x31, 0x73), Pair(0x35, 0x74), Pair(0x31, 0x75))
  const R17 := Row(Pair(0x21, 0x70), Pair(0x25, 0x71), Pair(0x25, 0x72), Pair(0x21, 0x73), Pair(0x25, 0x74), Pair(0x21, 0x75), Pair(0x21, 0x76), Pair(0x25, 0x77),
    Pair(0x2d, 0x78), Pair(0x29, 0x79), Pair(0x91, 0x80), Pair(0x95, 0x81), Pair(0x95, 0x82), Pair(0x91, 0x83), Pair(0x95, 0x84), Pair(0x91, 0x85))
  const R18 := Row(Pair(0x81, 0x80), Pair(0x85, 0x81), Pair(0x85, 0x82), Pair(0x81, 0x83), Pair(0x85, 0x84), Pair(0x81, 0x85), Pair(0x81, 0x86), Pair(0x85, 0x87),
    Pair(0x8d, 0x88), Pair(0x89, 0x89), Pair(0x95, 0x90), Pair(0x91, 0x91), Pair(0x91, 0x92), Pair(0x95, 0x93), Pair(0x91, 0x94), Pair(0x95, 0x95))
  const R19 := Row(Pair(0x85, 0x90), Pair(0x81, 0x91), Pair(0x81, 0x92), Pair(0x85, 0x93), Pair(0x81, 0x94), Pair(0x85, 0x95), Pair(0x85, 0x96), Pair(0x81, 0x97),
    Pair(0x89, 0x98), Pair(0x8d, 0x99), Pair(0xb5, 0xa0), Pair(0xb1, 0xa1), Pair(0xb1, 0xa2), Pair(0xb5, 0xa3), Pair(0xb1, 0xa4), Pair(0xb5, 0xa5))
  const R20 := Row(Pair(0xa5, 0xa0), Pair(0xa1, 0xa1), Pair(0xa1, 0xa2), Pair(0xa5, 0xa3), Pair(0xa1, 0xa4), Pair(0xa5, 0xa5), Pair(0xa5, 0xa6), Pair(0xa1, 0xa7),
    Pair(0xa9, 0xa8), Pair(0xad, 0xa9), Pair(0xb1, 0xb0), Pair(0xb5, 0xb1), Pair(0xb5, 0xb2), Pair(0xb1, 0xb3), Pair(0xb5, 0xb4), Pair(0xb1, 0xb5))
  const R21 := Row(Pair(0xa1, 0xb0), Pair(0xa5, 0xb1), Pair(0xa5, 0xb2), Pair(0xa1, 0xb3), Pair(0xa5, 0xb4), Pair(0xa1, 0xb5), Pair(0xa1, 0xb6), Pair(0xa5, 0xb7),
    Pair(0xad, 0xb8), Pair(0xa9, 0xb9), Pair(0x95, 0xc0), Pair(0x91, 0xc1), Pair(0x91, 0xc2), Pair(0x95, 0xc3), Pair(0x91, 0xc4), Pair(0x95, 0xc5))
  const R22 := Row(Pair(0x85, 0xc0), Pair(0x81, 0xc1), Pair(0x81, 0xc2), Pair(0x85, 0xc3), Pair(0x81, 0xc4), Pair(0x85, 0xc5), Pair(0x85, 0xc6), Pair(0x81, 0xc7),
    Pair(0x89, 0xc8), Pair(0x8d, 0xc9), Pair(0x91, 0xd0), Pair(0x95, 0xd1), Pair(0x95, 0xd2), Pair(0x91, 0xd3), Pair(0x95, 0xd4), Pair(0x91, 0xd5))
  const R23 := Row(Pair(0x81, 0xd0), Pair(0x85, 0xd1), Pair(0x85, 0xd2), Pair(0x81, 0xd3), Pair(0x85, 0xd4), Pair(0x81, 0xd5), Pair(0x81, 0xd6), Pair(0x85, 0xd7),
    Pair(0x8d, 0xd8), Pair(0x89, 0xd9), Pair(0xb1, 0xe0), Pair(0xb5, 0xe1), Pair(0xb5, 0xe2), Pair(0xb1, 0xe3), Pair(0xb5, 0xe4), Pair(0xb1, 0xe5))
  const R24 := Row(Pair(0xa1, 0xe0), Pair(0xa5, 0xe1), Pair(0xa5, 0xe2), Pair(0xa1, 0xe3), Pair(0xa5, 0xe4), Pair(0xa1, 0xe5), Pair(0xa1, 0xe6), Pair(0xa5, 0xe7),
    Pair(0xad, 0xe8), Pair(0xa9, 0xe9), Pair(0xb5, 0xf0), Pair(0xb1, 0xf1), Pair(0xb1, 0xf2), Pair(0xb5, 0xf3), Pair(0xb1, 0xf4), Pair(0xb5, 0xf5))
  const R25 := Row(Pair(0xa5, 0xf0), Pair(0xa1, 0xf1), Pair(0xa1, 0xf2), Pair(0xa5, 0xf3), Pair(0xa1, 0xf4), Pair(0xa5, 0xf5), Pair(0xa5, 0xf6), Pair(0xa1, 0xf7),
    Pair(0xa9, 0xf8), Pair(0xad, 0xf9), Pair(0x55, 0x00), Pair(0x11, 0x01), Pair(0x11, 0x02), Pair(0x15, 0x03), Pair(0x11, 0x04), Pair(0x15, 0x05))
  const R26 := Row(Pair(0x45, 0x00), Pair(0x01, 0x01), Pair(0x01, 0x02), Pair(0x05, 0x03), Pair(0x01, 0x04), Pair(0x05, 0x05), Pair(0x05, 0x06), Pair(0x01, 0x07),
    Pair(0x09, 0x08), Pair(0x0d, 0x09), Pair(0x11, 0x10), Pair(0x15, 0x11), Pair(0x15, 0x12), Pair(0x11, 0x13), Pair(0x15, 0x14), Pair(0x11, 0x15))
  const R27 := Row(Pair(0x01, 0x10), Pair(0x05, 0x11), Pair(0x05, 0x12), Pair(0x01, 0x13), Pair(0x05, 0x14), Pair(0x01, 0x15), Pair(0x01, 0x16), Pair(0x05, 0x17),
    Pair(0x0d, 0x18), Pair(0x09, 0x19), Pair(0x31, 0x20), Pair(0x35, 0x21), Pair(0x35, 0x22), Pair(0x31, 0x23), Pair(0x35, 0x24), Pair(0x31, 0x25))
  const R28 := Row(Pair(0x21, 0x20), Pair(0x25, 0x21), Pair(0x25, 0x22), Pair(0x21, 0x23), Pair(0x25, 0x24), Pair(0x21, 0x25), Pair(0x21, 0x26), Pair(0x25, 0x27),
    Pair(0x2d, 0x28), Pair(0x29, 0x29), Pair(0x35, 0x30), Pair(0x31, 0x31), Pair(0x31, 0x32), Pair(0x35, 0x33), Pair(0x31, 0x34), Pair(0x35, 0x35))
  const R29 := Row(Pair(0x25, 0x30), Pair(0x21, 0x31), Pair(0x21, 0x32), Pair(0x25, 0x33), Pair(0x21, 0x34), Pair(0x25, 0x35), Pair(0x25, 0x36), Pair(0x21, 0x37),
    Pair(0x29, 0x38), Pair(0x2d, 0x39), Pair(0x11, 0x40), Pair(0x15, 0x41), Pair(0x15, 0x42), Pair(0x11, 0x43), Pair(0x15, 0x44), Pair(0x11, 0x45))
  const R30 := Row(Pair(0x01, 0x40), Pair(0x05, 0x41), Pair(0x05, 0x42), Pair(0x01, 0x43), Pair(0x05, 0x44), Pair(0x01, 0x45), Pair(0x01, 0x46), Pair(0x05, 0x47),
    Pair(0x0d, 0x48), Pair(0x09, 0x49), Pair(0x15, 0x50), Pair(0x11, 0x51), Pair(0x11, 0x52), Pair(0x15, 0x53), Pair(0x11, 0x54), Pair(0x15, 0x55))
  const R31 := Row(Pair(0x05, 0x50), Pair(0x01, 0x51), Pair(0x01, 0x52), Pair(0x05, 0x53), Pair(0x01, 0x54), Pair(0x05, 0x55), Pair(0x05, 0x56), Pair(0x01, 0x57),
    Pair(0x09, 0x58), Pair(0x0d, 0x59), Pair(0x35, 0x60), Pair(0x31, 0x61), Pair(0x31, 0x62), Pair(0x35, 0x63), Pair(0x31, 0x64), Pair(0x35, 0x65))
  const R32 := Row(Pair(0x46, 0x00), Pair(0x02, 0x01), Pair(0x02, 0x02), Pair(0x06, 0x03), Pair(0x02, 0x04), Pair(0x06, 0x05), Pair(0x06, 0x06), Pair(0x02, 0x07),
    Pair(0x0a, 0x08), Pair(0x0e, 0x09), Pair(0x02, 0x04), Pair(0x06, 0x05), Pair(0x06, 0x06), Pair(0x02, 0x07), Pair(0x0a, 0x08), Pair(0x0e, 0x09))
  const R33 := Row(Pair(0x02, 0x10), Pair(0x06, 0x11), Pair(0x06, 0x12), Pair(0x02, 0x13), Pair(0x06, 0x14), Pair(0x02, 0x15), Pair(0x02, 0x16), Pair(0x06, 0x17),
    Pair(0x0e, 0x18), Pair(0x0a, 0x19), Pair(0x06, 0x14), Pair(0x02, 0x15), Pair(0x02, 0x16), Pair(0x06, 0x17), Pair(0x0e, 0x18), Pair(0x0a, 0x19))
  const R34 := Row(Pair(0x22, 0x20), Pair(0x26, 0x21), Pair(0x26, 0x22), Pair(0x22, 0x23), Pair(0x26, 0x24), Pair(0x22, 0x25), Pair(0x22, 0x26), Pair(0x26, 0x27),
    Pair(0x2e, 0x28), Pair(0x2a, 0x29), Pair(0x26, 0x24), Pair(0x22, 0x25), Pair(0x22, 0x26), Pair(0x26, 0x27), Pair(0x2e, 0x28), Pair(0x2a, 0x29))
  const R35 := Row(Pair(0x26, 0x30), Pair(0x22, 0x31), Pair(0x22, 0x32), Pair(0x26, 0x33), Pair(0x22, 0x34), Pair(0x26, 0x35), Pair(0x26, 0x36), Pair(0x22, 0x37),
    Pair(0x2a, 0x38), Pair(0x2e, 0x39), Pair(0x22, 0x34), Pair(0x26, 0x35), Pair(0x26, 0x36), Pair(0x22, 0x37), Pair(0x2a, 0x38), Pair(0x2e, 0x39))
  const R36 := Row(Pair(0x02, 0x40), Pair(0x06, 0x41), Pair(0x06, 0x42), Pair(0x02, 0x43), Pair(0x06, 0x44), Pair(0x02, 0x45), Pair(0x02, 0x46), Pair(0x06, 0x47),
    Pair(0x0e, 0x48), Pair(0x0a, 0x49), Pair(0x06, 0x44), Pair(0x02, 0x45), Pair(0x02, 0x46), Pair(0x06, 0x47), Pair(0x0e, 0x48), Pair(0x0a, 0x49))
  const R37 := Row(Pair(0x06, 0x50), Pair(0x02, 0x51), Pair(0x02, 0x52), Pair(0x06, 0x53), Pair(0x02, 0x54), Pair(0x06, 0x55), Pair(0x06, 0x56), Pair(0x02, 0x57),
    Pair(0x0a, 0x58), Pair(0x0e, 0x59), Pair(0x02, 0x54), Pair(0x06, 0x55), Pair(0x06, 0x56), Pair(0x02, 0x57), Pair(0x0a, 0x58), Pair(0x0e, 0x59))
  const R38 := Row(Pair(0x26, 0x60), Pair(0x22, 0x61), Pair(0x22, 0x62), Pair(0x26, 0x63), Pair(0x22, 0x64), Pair(0x26, 0x65), Pair(0x26, 0x66), Pair(0x22, 0x67),
    Pair(0x2a, 0x68), Pair(0x2e, 0x69), Pair(0x22, 0x64), Pair(0x26, 0x65), Pair(0x26, 0x66), Pair(0x22, 0x67), Pair(0x2a, 0x68), Pair(0x2e, 0x69))
  const R39 := Row(Pair(0x22, 0x70), Pair(0x26, 0x71), Pair(0x26, 0x72), Pair(0x22, 0x73), Pair(0x26, 0x74), Pair(0x22, 0x75), Pair(0x22, 0x76), Pair(0x26, 0x77),
    Pair(0x2e, 0x78), Pair(0x2a, 0x79), Pair(0x26, 0x74), Pair(0x22, 0x75), Pair(0x22, 0x76), Pair(0x26, 0x77), Pair(0x2e, 0x78), Pair(0x2a, 0x79))
  const R40 := Row(Pair(0x82, 0x80), Pair(0x86, 0x81), Pair(0x86, 0x82), Pair(0x82, 0x83), Pair(0x86, 0x84), Pair(0x82, 0x85), Pair(0x82, 0x86), Pair(0x86, 0x87),
    Pair(0x8e, 0x88), Pair(0x8a, 0x89), Pair(0x86, 0x84), Pair(0x82, 0x85), Pair(0x82, 0x86), Pair(0x86, 0x87), Pair(0x8e, 0x88), Pair(0x8a, 0x89))
  const R41 := Row(Pair(0x86, 0x90), Pair(0x82, 0x91), Pair(0x82, 0x92), Pair(0x86, 0x93), Pair(0x82, 0x94), Pair(0x86, 0x95), Pair(0x86, 0x96), Pair(0x82, 0x97),
    Pair(0x8a, 0x98), Pair(0x8e, 0x99), Pair(0x23, 0x34), Pair(0x27, 0x35), Pair(0x27, 0x36), Pair(0x23, 0x37), Pair(0x2b, 0x38), Pair(0x2f, 0x39))
  const R42 := Row(Pair(0x03, 0x40), Pair(0x07, 0x41), Pair(0x07, 0x42), Pair(0x03, 0x43), Pair(0x07, 0x44), Pair(0x03, 0x45), Pair(0x03, 0x46), Pair(0x07, 0x47),
    Pair(0x0f, 0x48), Pair(0x0b, 0x49), Pair(0x07, 0x44), Pair(0x03, 0x45), Pair(0x03, 0x46), Pair(0x07, 0x47), Pair(0x0f, 0x48), Pair(0x0b, 0x49))
  const R43 := Row(Pair(0x07, 0x50), Pair(0x03, 0x51), Pair(0x03, 0x52), Pair(0x07, 0x53), Pair(0x03, 0x54), Pair(0x07, 0x55), Pair(0x07, 0x56), Pair(0x03, 0x57),
    Pair(0x0b, 0x58), Pair(0x0f, 0x59), Pair(0x03, 0x54), Pair(0x07, 0x55), Pair(0x07, 0x56), Pair(0x03, 0x57), Pair(0x0b, 0x58), Pair(0x0f, 0x59))
  const R44 := Row(Pair(0x27, 0x60), Pair(0x23, 0x61), Pair(0x23, 0x62), Pair(0x27, 0x63), Pair(0x23, 0x64), Pair(0x27, 0x65), Pair(0x27, 0x66), Pair(0x23, 0x67),
    Pair(0x2b, 0x68), Pair(0x2f, 0x69), Pair(0x23, 0x64), Pair(0x27, 0x65), Pair(0x27, 0x66), Pair(0x23, 0x67), Pair(0x2b, 0x68), Pair(0x2f, 0x69))
  const R45 := Row(Pair(0x23, 0x70), Pair(0x27, 0x71), Pair(0x27, 0x72), Pair(0x23, 0x73), Pair(0x27, 0x74), Pair(0x23, 0x75), Pair(0x23, 0x76), Pair(0x27, 0x77),
    Pair(0x2f, 0x78), Pair(0x2b, 0x79), Pair(0x27, 0x74), Pair(0x23, 0x75), Pair(0x23, 0x76), Pair(0x27, 0x77), Pair(0x2f, 0x78), Pair(0x2b, 0x79))
  const R46 := Row(Pair(0x83, 0x80), Pair(0x87, 0x81), Pair(0x87, 0x82), Pair(0x83, 0x83), Pair(0x87, 0x84), Pair(0x83, 0x85), Pair(0x83, 0x86), Pair(0x87, 0x87),
    Pair(0x8f, 0x88), Pair(0x8b, 0x89), Pair(0x87, 0x84), Pair(0x83, 0x85), Pair(0x83, 0x86), Pair(0x87, 0x87), Pair(0x8f, 0x88), Pair(0x8b, 0x89))
  const R47 := Row(Pair(0x87, 0x90), Pair(0x83, 0x91), Pair(0x83, 0x92), Pair(0x87, 0x93), Pair(0x83, 0x94), Pair(0x87, 0x95), Pair(0x87, 0x96), Pair(0x83, 0x97),
    Pair(0x8b, 0x98), Pair(0x8f, 0x99), Pair(0x83, 0x94), Pair(0x87, 0x95), Pair(0x87, 0x96), Pair(0x83, 0x97), Pair(0x8b, 0x98), Pair(0x8f, 0x99))
  const R48 := Row(Pair(0xa7, 0xa0), Pair(0xa3, 0xa1), Pair(0xa3, 0xa2), Pair(0xa7, 0xa3), Pair(0xa3, 0xa4), Pair(0xa7, 0xa5), Pair(0xa7, 0xa6), Pair(0xa3, 0xa7),
    Pair(0xab, 0xa8), Pair(0xaf, 0xa9), Pair(0xa3, 0xa4), Pair(0xa7, 0xa5), Pair(0xa7, 0xa6), Pair(0xa3, 0xa7), Pair(0xab, 0xa8), Pair(0xaf, 0xa9))
  const R49 := Row(Pair(0xa3, 0xb0), Pair(0xa7, 0xb1), Pair(0xa7, 0xb2), Pair(0xa3, 0xb3), Pair(0xa7, 0xb4), Pair(0xa3, 0xb5), Pair(0xa3, 0xb6), Pair(0xa7, 0xb7),
    Pair(0xaf, 0xb8), Pair(0xab, 0xb9), Pair(0xa7, 0xb4), Pair(0xa3, 0xb5), Pair(0xa3, 0xb6), Pair(0xa7, 0xb7), Pair(0xaf, 0xb8), Pair(0xab, 0xb9))
  const R50 := Row(Pair(0x87, 0xc0), Pair(0x83, 0xc1), Pair(0x83, 0xc2), Pair(0x87, 0xc3), Pair(0x83, 0xc4), Pair(0x87, 0xc5), Pair(0x87, 0xc6), Pair(0x83, 0xc7),
    Pair(0x8b, 0xc8), Pair(0x8f, 0xc9), Pair(0x83, 0xc4), Pair(0x87, 0xc5), Pair(0x87, 0xc6), Pair(0x83, 0xc7), Pair(0x8b, 0xc8), Pair(0x8f, 0xc9))
  const R51 := Row(Pair(0x83, 0xd0), Pair(0x87, 0xd1), Pair(0x87, 0xd2), Pair(0x83, 0xd3), Pair(0x87, 0xd4), Pair(0x83, 0xd5), Pair(0x83, 0xd6), Pair(0x87, 0xd7),
    Pair(0x8f, 0xd8), Pair(0x8b, 0xd9), Pair(0x87, 0xd4), Pair(0x83, 0xd5), Pair(0x83, 0xd6), Pair(0x87, 0xd7), Pair(0x8f, 0xd8), Pair(0x8b, 0xd9))
  const R52 := Row(Pair(0xa3, 0xe0), Pair(0xa7, 0xe1), Pair(0xa7, 0xe2), Pair(0xa3, 0xe3), Pair(0xa7, 0xe4), Pair(0xa3, 0xe5), Pair(0xa3, 0xe6), Pair(0xa7, 0xe7),
    Pair(0xaf, 0xe8), Pair(0xab, 0xe9), Pair(0xa7, 0xe4), Pair(0xa3, 0xe5), Pair(0xa3, 0xe6), Pair(0xa7, 0xe7), Pair(0xaf, 0xe8), Pair(0xab, 0xe9))
  const R53 := Row(Pair(0xa7, 0xf0), Pair(0xa3, 0xf1), Pair(0xa3, 0xf2), Pair(0xa7, 0xf3), Pair(0xa3, 0xf4), Pair(0xa7, 0xf5), Pair(0xa7, 0xf6), Pair(0xa3, 0xf7),
    Pair(0xab, 0xf8), Pair(0xaf, 0xf9), Pair(0xa3, 0xf4), Pair(0xa7, 0xf5), Pair(0xa7, 0xf6), Pair(0xa3, 0xf7), Pair(0xab, 0xf8), Pair(0xaf, 0xf9))
  const R54 := Row(Pair(0x47, 0x00), Pair(0x03, 0x01), Pair(0x03, 0x02), Pair(0x07, 0x03), Pair(0x03, 0x04), Pair(0x07, 0x05), Pair(0x07, 0x06), Pair(0x03, 0x07),
    Pair(0x0b, 0x08), Pair(0x0f, 0x09), Pair(0x03, 0x04), Pair(0x07, 0x05), Pair(0x07, 0x06), Pair(0x03, 0x07), Pair(0x0b, 0x08), Pair(0x0f, 0x09))
  const R55 := Row(Pair(0x03, 0x10), Pair(0x07, 0x11), Pair(0x07, 0x12), Pair(0x03, 0x13), Pair(0x07, 0x14), Pair(0x03, 0x15), Pair(0x03, 0x16), Pair(0x07, 0x17),
    Pair(0x0f, 0x18), Pair(0x0b, 0x19), Pair(0x07, 0x14), Pair(0x03, 0x15), Pair(0x03, 0x16), Pair(0x07, 0x17), Pair(0x0f, 0x18), Pair(0x0b, 0x19))
  const R56 := Row(Pair(0x23, 0x20), Pair(0x27, 0x21), Pair(0x27, 0x22), Pair(0x23, 0x23), Pair(0x27, 0x24), Pair(0x23, 0x25), Pair(0x23, 0x26), Pair(0x27, 0x27),
    Pair(0x2f, 0x28), Pair(0x2b, 0x29), Pair(0x27, 0x24), Pair(0x23, 0x25), Pair(0x23, 0x26), Pair(0x27, 0x27), Pair(0x2f, 0x28), Pair(0x2b, 0x29))
  const R57 := Row(Pair(0x27, 0x30), Pair(0x23, 0x31), Pair(0x23, 0x32), Pair(0x27, 0x33), Pair(0x23, 0x34), Pair(0x27, 0x35), Pair(0x27, 0x36), Pair(0x23, 0x37),
    Pair(0x2b, 0x38), Pair(0x2f, 0x39), Pair(0x23, 0x34), Pair(0x27, 0x35), Pair(0x27, 0x36), Pair(0x23, 0x37), Pair(0x2b, 0x38), Pair(0x2f, 0x39))
  const R58 := Row(Pair(0x03, 0x40), Pair(0x07, 0x41), Pair(0x07, 0x42), Pair(0x03, 0x43), Pair(0x07, 0x44), Pair(0x03, 0x45), Pair(0x03, 0x46), Pair(0x07, 0x47),
    Pair(0x0f, 0x48), Pair(0x0b, 0x49), Pair(0x07, 0x44), Pair(0x03, 0x45), Pair(0x03, 0x46), Pair(0x07, 0x47), Pair(0x0f, 0x48), Pair(0x0b, 0x49))
  const R59 := Row(Pair(0x07, 0x50), Pair(0x03, 0x51), Pair(0x03, 0x52), Pair(0x07, 0x53), Pair(0x03, 0x54), Pair(0x07, 0x55), Pair(0x07, 0x56), Pair(0x03, 0x57),
    Pair(0x0b, 0x58), Pair(0x0f, 0x59), Pair(0x03, 0x54), Pair(0x07, 0x55), Pair(0x07, 0x56), Pair(0x03, 0x57), Pair(0x0b, 0x58), Pair(0x0f, 0x59))
  const R60 := Row(Pair(0x27, 0x60), Pair(0x23, 0x61), Pair(0x23, 0x62), Pair(0x27, 0x63), Pair(0x23, 0x64), Pair(0x27, 0x65), Pair(0x27, 0x66), Pair(0x23, 0x67),
    Pair(0x2b, 0x68), Pair(0x2f, 0x69), Pair(0x23, 0x64), Pair(0x27, 0x65), Pair(0x27, 0x66), Pair(0x23, 0x67), Pair(0x2b, 0x68), Pair(0x2f, 0x69))
  const R61 := Row(Pair(0x23, 0x70), Pair(0x27, 0x71), Pair(0x27, 0x72), Pair(0x23, 0x73), Pair(0x27, 0x74), Pair(0x23, 0x75), Pair(0x23, 0x76), Pair(0x27, 0x77),
    Pair(0x2f, 0x78), Pair(0x2b, 0x79), Pair(0x27, 0x74), Pair(0x23, 0x75), Pair(0x23, 0x76), Pair(0x27, 0x77), Pair(0x2f, 0x78), Pair(0x2b, 0x79))
  const R62 := Row(Pair(0x83, 0x80), Pair(0x87, 0x81), Pair(0x87, 0x82), Pair(0x83, 0x83), Pair(0x87, 0x84), Pair(0x83, 0x85), Pair(0x83, 0x86), Pair(0x87, 0x87),
    Pair(0x8f, 0x88), Pair(0x8b, 0x89), Pair(0x87, 0x84), Pair(0x83, 0x85), Pair(0x83, 0x86), Pair(0x87, 0x87), Pair(0x8f, 0x88), Pair(0x8b, 0x89))
  const R63 := Row(Pair(0x87, 0x90), Pair(0x83, 0x91), Pair(0x83, 0x92), Pair(0x87, 0x93), Pair(0x83, 0x94), Pair(0x87, 0x95), Pair(0x87, 0x96), Pair(0x83, 0x97),
    Pair(0x8b, 0x98), Pair(0x8f, 0x99), Pair(0x83, 0x94), Pair(0x87, 0x95), Pair(0x87, 0x96), Pair(0x83, 0x97), Pair(0x8b, 0x98), Pair(0x8f, 0x99))
  const R64 := Row(Pair(0x04, 0x06), Pair(0x00, 0x07), Pair(0x08, 0x08), Pair(0x0c, 0x09), Pair(0x0c, 0x0a), Pair(0x08, 0x0b), Pair(0x0c, 0x0c), Pair(0x08, 0x0d),
    Pair(0x08, 0x0e), Pair(0x0c, 0x0f), Pair(0x10, 0x10), Pair(0x14, 0x11), Pair(0x14, 0x12), Pair(0x10, 0x13), Pair(0x14, 0x14), Pair(0x10, 0x15))
  const R65 := Row(Pair(0x00, 0x16), Pair(0x04, 0x17), Pair(0x0c, 0x18), Pair(0x08, 0x19), Pair(0x08, 0x1a), Pair(0x0c, 0x1b), Pair(0x08, 0x1c), Pair(0x0c, 0x1d),
    Pair(0x0c, 0x1e), Pair(0x08, 0x1f), Pair(0x30, 0x20), Pair(0x34, 0x21), Pair(0x34, 0x22), Pair(0x30, 0x23), Pair(0x34, 0x24), Pair(0x30, 0x25))
  const R66 := Row(Pair(0x20, 0x26), Pair(0x24, 0x27), Pair(0x2c, 0x28), Pair(0x28, 0x29), Pair(0x28, 0x2a), Pair(0x2c, 0x2b), Pair(0x28, 0x2c), Pair(0x2c, 0x2d),
    Pair(0x2c, 0x2e), Pair(0x28, 0x2f), Pair(0x34, 0x30), Pair(0x30, 0x31), Pair(0x30, 0x32), Pair(0x34, 0x33), Pair(0x30, 0x34), Pair(0x34, 0x35))
  const R67 := Row(Pair(0x24, 0x36), Pair(0x20, 0x37), Pair(0x28, 0x38), Pair(0x2c, 0x39), Pair(0x2c, 0x3a), Pair(0x28, 0x3b), Pair(0x2c, 0x3c), Pair(0x28, 0x3d),
    Pair(0x28, 0x3e), Pair(0x2c, 0x3f), Pair(0x10, 0x40), Pair(0x14, 0x41), Pair(0x14, 0x42), Pair(0x10, 0x43), Pair(0x14, 0x44), Pair(0x10, 0x45))
  const R68 := Row(Pair(0x00, 0x46), Pair(0x04, 0x47), Pair(0x0c, 0x48), Pair(0x08, 0x49), Pair(0x08, 0x4a), Pair(0x0c, 0x4b), Pair(0x08, 0x4c), Pair(0x0c, 0x4d),
    Pair(0x0c, 0x4e), Pair(0x08, 0x4f), Pair(0x14, 0x50), Pair(0x10, 0x51), Pair(0x10, 0x52), Pair(0x14, 0x53), Pair(0x10, 0x54), Pair(0x14, 0x55))
  const R69 := Row(Pair(0x04, 0x56), Pair(0x00, 0x57), Pair(0x08, 0x58), Pair(0x0c, 0x59), Pair(0x0c, 0x5a), Pair(0x08, 0x5b), Pair(0x0c, 0x5c), Pair(0x08, 0x5d),
    Pair(0x08, 0x5e), Pair(0x0c, 0x5f), Pair(0x34, 0x60), Pair(0x30, 0x61), Pair(0x30, 0x62), Pair(0x34, 0x63), Pair(0x30, 0x64), Pair(0x34, 0x65))
  const R70 := Row(Pair(0x24, 0x66), Pair(0x20, 0x67), Pair(0x28, 0x68), Pair(0x2c, 0x69), Pair(0x2c, 0x6a), Pair(0x28, 0x6b), Pair(0x2c, 0x6c), Pair(0x28, 0x6d),
    Pair(0x28, 0x6e), Pair(0x2c, 0x6f), Pair(0x30, 0x70), Pair(0x34, 0x71), Pair(0x34, 0x72), Pair(0x30, 0x73), Pair(0x34, 0x74), Pair(0x30, 0x75))
  const R71 := Row(Pair(0x20, 0x76), Pair(0x24, 0x77), Pair(0x2c, 0x78), Pair(0x28, 0x79), Pair(0x28, 0x7a), Pair(0x2c, 0x7b), Pair(0x28, 0x7c), Pair(0x2c, 0x7d),
    Pair(0x2c, 0x7e), Pair(0x28, 0x7f), Pair(0x90, 0x80), Pair(0x94, 0x81), Pair(0x94, 0x82), Pair(0x90, 0x83), Pair(0x94, 0x84), Pair(0x90, 0x85))
  const R72 := Row(Pair(0x80, 0x86), Pair(0x84, 0x87), Pair(0x8c, 0x88), Pair(0x88, 0x89), Pair(0x88, 0x8a), Pair(0x8c, 0x8b), Pair(0x88, 0x8c), Pair(0x8c, 0x8d),
    Pair(0x8c, 0x8e), Pair(0x88, 0x8f), Pair(0x94, 0x90), Pair(0x90, 0x91), Pair(0x90, 0x92), Pair(0x94, 0x93), Pair(0x90, 0x94), Pair(0x94, 0x95))
  const R73 := Row(Pair(0x84, 0x96), Pair(0x80, 0x97), Pair(0x88, 0x98), Pair(0x8c, 0x99), Pair(0x8c, 0x9a), Pair(0x88, 0x9b), Pair(0x8c, 0x9c), Pair(0x88, 0x9d),
    Pair(0x88, 0x9e), Pair(0x8c, 0x9f), Pair(0x55, 0x00), Pair(0x11, 0x01), Pair(0x11, 0x02), Pair(0x15, 0x03), Pair(0x11, 0x04), Pair(0x15, 0x05))
  const R74 := Row(Pair(0x05, 0x06), Pair(0x01, 0x07), Pair(0x09, 0x08), Pair(0x0d, 0x09), Pair(0x0d, 0x0a), Pair(0x09, 0x0b), Pair(0x0d, 0x0c), Pair(0x09, 0x0d),
    Pair(0x09, 0x0e), Pair(0x0d, 0x0f), Pair(0x11, 0x10), Pair(0x15, 0x11), Pair(0x15, 0x12), Pair(0x11, 0x13), Pair(0x15, 0x14), Pair(0x11, 0x15))
  const R75 := Row(Pair(0x01, 0x16), Pair(0x05, 0x17), Pair(0x0d, 0x18), Pair(0x09, 0x19), Pair(0x09, 0x1a), Pair(0x0d, 0x1b), Pair(0x09, 0x1c), Pair(0x0d, 0x1d),
    Pair(0x0d, 0x1e), Pair(0x09, 0x1f), Pair(0x31, 0x20), Pair(0x35, 0x21), Pair(0x35, 0x22), Pair(0x31, 0x23), Pair(0x35, 0x24), Pair(0x31, 0x25))
  const R76 := Row(Pair(0x21, 0x26), Pair(0x25, 0x27), Pair(0x2d, 0x28), Pair(0x29, 0x29), Pair(0x29, 0x2a), Pair(0x2d, 0x2b), Pair(0x29, 0x2c), Pair(0x2d, 0x2d),
    Pair(0x2d, 0x2e), Pair(0x29, 0x2f), Pair(0x35, 0x30), Pair(0x31, 0x31), Pair(0x31, 0x32), Pair(0x35, 0x33), Pair(0x31, 0x34), Pair(0x35, 0x35))
  const R77 := Row(Pair(0x25, 0x36), Pair(0x21, 0x37), Pair(0x29, 0x38), Pair(0x2d, 0x39), Pair(0x2d, 0x3a), Pair(0x29, 0x3b), Pair(0x2d, 0x3c), Pair(0x29, 0x3d),
    Pair(0x29, 0x3e), Pair(0x2d, 0x3f), Pair(0x11, 0x40), Pair(0x15, 0x41), Pair(0x15, 0x42), Pair(0x11, 0x43), Pair(0x15, 0x44), Pair(0x11, 0x45))
  const R78 := Row(Pair(0x01, 0x46), Pair(0x05, 0x47), Pair(0x0d, 0x48), Pair(0x09, 0x49), Pair(0x09, 0x4a), Pair(0x0d, 0x4b), Pair(0x09, 0x4c), Pair(0x0d, 0x4d),
    Pair(0x0d, 0x4e), Pair(0x09, 0x4f), Pair(0x15, 0x50), Pair(0x11, 0x51), Pair(0x11, 0x52), Pair(0x15, 0x53), Pair(0x11, 0x54), Pair(0x15, 0x55))
  const R79 := Row(Pair(0x05, 0x56), Pair(0x01, 0x57), Pair(0x09, 0x58), Pair(0x0d, 0x59), Pair(0x0d, 0x5a), Pair(0x09, 0x5b), Pair(0x0d, 0x5c), Pair(0x09, 0x5d),
    Pair(0x09, 0x5e), Pair(0x0d, 0x5f), Pair(0x35, 0x60), Pair(0x31, 0x61), Pair(0x31, 0x62), Pair(0x35, 0x63), Pair(0x31, 0x64), Pair(0x35, 0x65))
  const R80 := Row(Pair(0x25, 0x66), Pair(0x21, 0x67), Pair(0x29, 0x68), Pair(0x2d, 0x69), Pair(0x2d, 0x6a), Pair(0x29, 0x6b), Pair(0x2d, 0x6c), Pair(0x29, 0x6d),
    Pair(0x29, 0x6e), Pair(0x2d, 0x6f), Pair(0x31, 0x70), Pair(0x35, 0x71), Pair(0x35, 0x72), Pair(0x31, 0x73), Pair(0x35, 0x74), Pair(0x31, 0x75))
  const R81 := Row(Pair(0x21, 0x76), Pair(0x25, 0x77), Pair(0x2d, 0x78), Pair(0x29, 0x79), Pair(0x29, 0x7a), Pair(0x2d, 0x7b), Pair(0x29, 0x7c), Pair(0x2d, 0x7d),
    Pair(0x2d, 0x7e), Pair(0x29, 0x7f), Pair(0x91, 0x80), Pair(0x95, 0x81), Pair(0x95, 0x82), Pair(0x91, 0x83), Pair(0x95, 0x84), Pair(0x91, 0x85))
  const R82 := Row(Pair(0x81, 0x86), Pair(0x85, 0x87), Pair(0x8d, 0x88), Pair(0x89, 0x89), Pair(0x89, 0x8a), Pair(0x8d, 0x8b), Pair(0x89, 0x8c), Pair(0x8d, 0x8d),
    Pair(0x8d, 0x8e), Pair(0x89, 0x8f), Pair(0x95, 0x90), Pair(0x91, 0x91), Pair(0x91, 0x92), Pair(0x95, 0x93), Pair(0x91, 0x94), Pair(0x95, 0x95))
  const R83 := Row(Pair(0x85, 0x96), Pair(0x81, 0x97), Pair(0x89, 0x98), Pair(0x8d, 0x99), Pair(0x8d, 0x9a), Pair(0x89, 0x9b), Pair(0x8d, 0x9c), Pair(0x89, 0x9d),
    Pair(0x89, 0x9e), Pair(0x8d, 0x9f), Pair(0xb5, 0xa0), Pair(0xb1, 0xa1), Pair(0xb1, 0xa2), Pair(0xb5, 0xa3), Pair(0xb1, 0xa4), Pair(0xb5, 0xa5))
  const R84 := Row(Pair(0xa5, 0xa6), Pair(0xa1, 0xa7), Pair(0xa9, 0xa8), Pair(0xad, 0xa9), Pair(0xad, 0xaa), Pair(0xa9, 0xab), Pair(0xad, 0xac), Pair(0xa9, 0xad),
    Pair(0xa9, 0xae), Pair(0xad, 0xaf), Pair(0xb1, 0xb0), Pair(0xb5, 0xb1), Pair(0xb5, 0xb2), Pair(0xb1, 0xb3), Pair(0xb5, 0xb4), Pair(0xb1, 0xb5))
  const R85 := Row(Pair(0xa1, 0xb6), Pair(0xa5, 0xb7), Pair(0xad, 0xb8), Pair(0xa9, 0xb9), Pair(0xa9, 0xba), Pair(0xad, 0xbb), Pair(0xa9, 0xbc), Pair(0xad, 0xbd),
    Pair(0xad, 0xbe), Pair(0xa9, 0xbf), Pair(0x95, 0xc0), Pair(0x91, 0xc1), Pair(0x91, 0xc2), Pair(0x95, 0xc3), Pair(0x91, 0xc4), Pair(0x95, 0xc5))
  const R86 := Row(Pair(0x85, 0xc6), Pair(0x81, 0xc7), Pair(0x89, 0xc8), Pair(0x8d, 0xc9), Pair(0x8d, 0xca), Pair(0x89, 0xcb), Pair(0x8d, 0xcc), Pair(0x89, 0xcd),
    Pair(0x89, 0xce), Pair(0x8d, 0xcf), Pair(0x91, 0xd0), Pair(0x95, 0xd1), Pair(0x95, 0xd2), Pair(0x91, 0xd3), Pair(0x95, 0xd4), Pair(0x91, 0xd5))
  const R87 := Row(Pair(0x81, 0xd6), Pair(0x85, 0xd7), Pair(0x8d, 0xd8), Pair(0x89, 0xd9), Pair(0x89, 0xda), Pair(0x8d, 0xdb), Pair(0x89, 0xdc), Pair(0x8d, 0xdd),
    Pair(0x8d, 0xde), Pair(0x89, 0xdf), Pair(0xb1, 0xe0), Pair(0xb5, 0xe1), Pair(0xb5, 0xe2), Pair(0xb1, 0xe3), Pair(0xb5, 0xe4), Pair(0xb1, 0xe5))
  const R88 := Row(Pair(0xa1, 0xe6), Pair(0xa5, 0xe7), Pair(0xad, 0xe8), Pair(0xa9, 0xe9), Pair(0xa9, 0xea), Pair(0xad, 0xeb), Pair(0xa9, 0xec), Pair(0xad, 0xed),
    Pair(0xad, 0xee), Pair(0xa9, 0xef), Pair(0xb5, 0xf0), Pair(0xb1, 0xf1), Pair(0xb1, 0xf2), Pair(0xb5, 0xf3), Pair(0xb1, 0xf4), Pair(0xb5, 0xf5))
  const R89 := Row(Pair(0xa5, 0xf6), Pair(0xa1, 0xf7), Pair(0xa9, 0xf8), Pair(0xad, 0xf9), Pair(0xad, 0xfa), Pair(0xa9, 0xfb), Pair(0xad, 0xfc), Pair(0xa9, 0xfd),
    Pair(0xa9, 0xfe), Pair(0xad, 0xff), Pair(0x55, 0x00), Pair(0x11, 0x01), Pair(0x11, 0x02), Pair(0x15, 0x03), Pair(0x11, 0x04), Pair(0x15, 0x05))
  const R90 := Row(Pair(0x05, 0x06), Pair(0x01, 0x07), Pair(0x09, 0x08), Pair(0x0d, 0x09), Pair(0x0d, 0x0a), Pair(0x09, 0x0b), Pair(0x0d, 0x0c), Pair(0x09, 0x0d),
    Pair(0x09, 0x0e), Pair(0x0d, 0x0f), Pair(0x11, 0x10), Pair(0x15, 0x11), Pair(0x15, 0x12), Pair(0x11, 0x13), Pair(0x15, 0x14), Pair(0x11, 0x15))
  const R91 := Row(Pair(0x01, 0x16), Pair(0x05, 0x17), Pair(0x0d, 0x18), Pair(0x09, 0x19), Pair(0x09, 0x1a), Pair(0x0d, 0x1b), Pair(0x09, 0x1c), Pair(0x0d, 0x1d),
    Pair(0x0d, 0x1e), Pair(0x09, 0x1f), Pair(0x31, 0x20), Pair(0x35, 0x21), Pair(0x35, 0x22), Pair(0x31, 0x23), Pair(0x35, 0x24), Pair(0x31, 0x25))
  const R92 := Row(Pair(0x21, 0x26), Pair(0x25, 0x27), Pair(0x2d, 0x28), Pair(0x29, 0x29), Pair(0x29, 0x2a), Pair(0x2d, 0x2b), Pair(0x29, 0x2c), Pair(0x2d, 0x2d),
    Pair(0x2d, 0x2e), Pair(0x29, 0x2f), Pair(0x35, 0x30), Pair(0x31, 0x31), Pair(0x31, 0x32), Pair(0x35, 0x33), Pair(0x31, 0x34), Pair(0x35, 0x35))
  const R93 := Row(Pair(0x25, 0x36), Pair(0x21, 0x37), Pair(0x29, 0x38), Pair(0x2d, 0x39), Pair(0x2d, 0x3a), Pair(0x29, 0x3b), Pair(0x2d, 0x3c), Pair(0x29, 0x3d),
    Pair(0x29, 0x3e), Pair(0x2d, 0x3f), Pair(0x11, 0x40), Pair(0x15, 0x41), Pair(0x15, 0x42), Pair(0x11, 0x43), Pair(0x15, 0x44), Pair(0x11, 0x45))
  const R94 := Row(Pair(0x01, 0x46), Pair(0x05, 0x47), Pair(0x0d, 0x48), Pair(0x09, 0x49), Pair(0x09, 0x4a), Pair(0x0d, 0x4b), Pair(0x09, 0x4c), Pair(0x0d, 0x4d),
    Pair(0x0d, 0x4e), Pair(0x09, 0x4f), Pair(0x15, 0x50), Pair(0x11, 0x51), Pair(0x11, 0x52), Pair(0x15, 0x53), Pair(0x11, 0x54), Pair(0x15, 0x55))
  const R95 := Row(Pair(0x05, 0x56), Pair(0x01, 0x57), Pair(0x09, 0x58), Pair(0x0d, 0x59), Pair(0x0d, 0x5a), Pair(0x09, 0x5b), Pair(0x0d, 0x5c), Pair(0x09, 0x5d),
    Pair(0x09, 0x5e), Pair(0x0d, 0x5f), Pair(0x35, 0x60), Pair(0x31, 0x61), Pair(0x31, 0x62), Pair(0x35, 0x63), Pair(0x31, 0x64), Pair(0x35, 0x65))
  const R96 := Row(Pair(0xbe, 0xfa), Pair(0xba, 0xfb), Pair(0xbe, 0xfc), Pair(0xba, 0xfd), Pair(0xba, 0xfe), Pair(0xbe, 0xff), Pair(0x46, 0x00), Pair(0x02, 0x01),
    Pair(0x02, 0x02), Pair(0x06, 0x03), Pair(0x02, 0x04), Pair(0x06, 0x05), Pair(0x06, 0x06), Pair(0x02, 0x07), Pair(0x0a, 0x08), Pair(0x0e, 0x09))
  const R97 := Row(Pair(0x1e, 0x0a), Pair(0x1a, 0x0b), Pair(0x1e, 0x0c), Pair(0x1a, 0x0d), Pair(0x1a, 0x0e), Pair(0x1e, 0x0f), Pair(0x02, 0x10), Pair(0x06, 0x11),
    Pair(0x06, 0x12), Pair(0x02, 0x13), Pair(0x06, 0x14), Pair(0x02, 0x15), Pair(0x02, 0x16), Pair(0x06, 0x17), Pair(0x0e, 0x18), Pair(0x0a, 0x19))
  const R98 := Row(Pair(0x1a, 0x1a), Pair(0x1e, 0x1b), Pair(0x1a, 0x1c), Pair(0x1e, 0x1d), Pair(0x1e, 0x1e), Pair(0x1a, 0x1f), Pair(0x22, 0x20), Pair(0x26, 0x21),
    Pair(0x26, 0x22), Pair(0x22, 0x23), Pair(0x26, 0x24), Pair(0x22, 0x25), Pair(0x22, 0x26), Pair(0x26, 0x27), Pair(0x2e, 0x28), Pair(0x2a, 0x29))
  const R99 := Row(Pair(0x3a, 0x2a), Pair(0x3e, 0x2b), Pair(0x3a, 0x2c), Pair(0x3e, 0x2d), Pair(0x3e, 0x2e), Pair(0x3a, 0x2f), Pair(0x26, 0x30), Pair(0x22, 0x31),
    Pair(0x22, 0x32), Pair(0x26, 0x33), Pair(0x22, 0x34), Pair(0x26, 0x35), Pair(0x26, 0x36), Pair(0x22, 0x37), Pair(0x2a, 0x38), Pair(0x2e, 0x39))
  const R100 := Row(Pair(0x3e, 0x3a), Pair(0x3a, 0x3b), Pair(0x3e, 0x3c), Pair(0x3a, 0x3d), Pair(0x3a, 0x3e), Pair(0x3e, 0x3f), Pair(0x02, 0x40), Pair(0x06, 0x41),
    Pair(0x06, 0x42), Pair(0x02, 0x43), Pair(0x06, 0x44), Pair(0x02, 0x45), Pair(0x02, 0x46), Pair(0x06, 0x47), Pair(0x0e, 0x48), Pair(0x0a, 0x49))
  const R101 := Row(Pair(0x1a, 0x4a), Pair(0x1e, 0x4b), Pair(0x1a, 0x4c), Pair(0x1e, 0x4d), Pair(0x1e, 0x4e), Pair(0x1a, 0x4f), Pair(0x06, 0x50), Pair(0x02, 0x51),
    Pair(0x02, 0x52), Pair(0x06, 0x53), Pair(0x02, 0x54), Pair(0x06, 0x55), Pair(0x06, 0x56), Pair(0x02, 0x57), Pair(0x0a, 0x58), Pair(0x0e, 0x59))
  const R102 := Row(Pair(0x1e, 0x5a), Pair(0x1a, 0x5b), Pair(0x1e, 0x5c), Pair(0x1a, 0x5d), Pair(0x1a, 0x5e), Pair(0x1e, 0x5f), Pair(0x26, 0x60), Pair(0x22, 0x61),
    Pair(0x22, 0x62), Pair(0x26, 0x63), Pair(0x22, 0x64), Pair(0x26, 0x65), Pair(0x26, 0x66), Pair(0x22, 0x67), Pair(0x2a, 0x68), Pair(0x2e, 0x69))
  const R103 := Row(Pair(0x3e, 0x6a), Pair(0x3a, 0x6b), Pair(0x3e, 0x6c), Pair(0x3a, 0x6d), Pair(0x3a, 0x6e), Pair(0x3e, 0x6f), Pair(0x22, 0x70), Pair(0x26, 0x71),
    Pair(0x26, 0x72), Pair(0x22, 0x73), Pair(0x26, 0x74), Pair(0x22, 0x75), Pair(0x22, 0x76), Pair(0x26, 0x77), Pair(0x2e, 0x78), Pair(0x2a, 0x79))
  const R104 := Row(Pair(0x3a, 0x7a), Pair(0x3e, 0x7b), Pair(0x3a, 0x7c), Pair(0x3e, 0x7d), Pair(0x3e, 0x7e), Pair(0x3a, 0x7f), Pair(0x82, 0x80), Pair(0x86, 0x81),
    Pair(0x86, 0x82), Pair(0x82, 0x83), Pair(0x86, 0x84), Pair(0x82, 0x85), Pair(0x82, 0x86), Pair(0x86, 0x87), Pair(0x8e, 0x88), Pair(0x8a, 0x89))
  const R105 := Row(Pair(0x9a, 0x8a), Pair(0x9e, 0x8b), Pair(0x9a, 0x8c), Pair(0x9e, 0x8d), Pair(0x9e, 0x8e), Pair(0x9a, 0x8f), Pair(0x86, 0x90), Pair(0x82, 0x91),
    Pair(0x82, 0x92), Pair(0x86, 0x93), Pair(0x23, 0x34), Pair(0x27, 0x35), Pair(0x27, 0x36), Pair(0x23, 0x37), Pair(0x2b, 0x38), Pair(0x2f, 0x39))
  const R106 := Row(Pair(0x3f, 0x3a), Pair(0x3b, 0x3b), Pair(0x3f, 0x3c), Pair(0x3b, 0x3d), Pair(0x3b, 0x3e), Pair(0x3f, 0x3f), Pair(0x03, 0x40), Pair(0x07, 0x41),
    Pair(0x07, 0x42), Pair(0x03, 0x43), Pair(0x07, 0x44), Pair(0x03, 0x45), Pair(0x03, 0x46), Pair(0x07, 0x47), Pair(0x0f, 0x48), Pair(0x0b, 0x49))
  const R107 := Row(Pair(0x1b, 0x4a), Pair(0x1f, 0x4b), Pair(0x1b, 0x4c), Pair(0x1f, 0x4d), Pair(0x1f, 0x4e), Pair(0x1b, 0x4f), Pair(0x07, 0x50), Pair(0x03, 0x51),
    Pair(0x03, 0x52), Pair(0x07, 0x53), Pair(0x03, 0x54), Pair(0x07, 0x55), Pair(0x07, 0x56), Pair(0x03, 0x57), Pair(0x0b, 0x58), Pair(0x0f, 0x59))
  const R108 := Row(Pair(0x1f, 0x5a), Pair(0x1b, 0x5b), Pair(0x1f, 0x5c), Pair(0x1b, 0x5d), Pair(0x1b, 0x5e), Pair(0x1f, 0x5f), Pair(0x27, 0x60), Pair(0x23, 0x61),
    Pair(0x23, 0x62), Pair(0x27, 0x63), Pair(0x23, 0x64), Pair(0x27, 0x65), Pair(0x27, 0x66), Pair(0x23, 0x67), Pair(0x2b, 0x68), Pair(0x2f, 0x69))
  const R109 := Row(Pair(0x3f, 0x6a), Pair(0x3b, 0x6b), Pair(0x3f, 0x6c), Pair(0x3b, 0x6d), Pair(0x3b, 0x6e), Pair(0x3f, 0x6f), Pair(0x23, 0x70), Pair(0x27, 0x71),
    Pair(0x27, 0x72), Pair(0x23, 0x73), Pair(0x27, 0x74), Pair(0x23, 0x75), Pair(0x23, 0x76), Pair(0x27, 0x77), Pair(0x2f, 0x78), Pair(0x2b, 0x79))
  const R110 := Row(Pair(0x3b, 0x7a), Pair(0x3f, 0x7b), Pair(0x3b, 0x7c), Pair(0x3f, 0x7d), Pair(0x3f, 0x7e), Pair(0x3b, 0x7f), Pair(0x83, 0x80), Pair(0x87, 0x81),
    Pair(0x87, 0x82), Pair(0x83, 0x83), Pair(0x87, 0x84), Pair(0x83, 0x85), Pair(0x83, 0x86), Pair(0x87, 0x87), Pair(0x8f, 0x88), Pair(0x8b, 0x89))
  const R111 := Row(Pair(0x9b, 0x8a), Pair(0x9f, 0x8b), Pair(0x9b, 0x8c), Pair(0x9f, 0x8d), Pair(0x9f, 0x8e), Pair(0x9b, 0x8f), Pair(0x87, 0x90), Pair(0x83, 0x91),
    Pair(0x83, 0x92), Pair(0x87, 0x93), Pair(0x83, 0x94), Pair(0x87, 0x95), Pair(0x87, 0x96), Pair(0x83, 0x97), Pair(0x8b, 0x98), Pair(0x8f, 0x99))
  const R112 := Row(Pair(0x9f, 0x9a), Pair(0x9b, 0x9b), Pair(0x9f, 0x9c), Pair(0x9b, 0x9d), Pair(0x9b, 0x9e), Pair(0x9f, 0x9f), Pair(0xa7, 0xa0), Pair(0xa3, 0xa1),
    Pair(0xa3, 0xa2), Pair(0xa7, 0xa3), Pair(0xa3, 0xa4), Pair(0xa7, 0xa5), Pair(0xa7, 0xa6), Pair(0xa3, 0xa7), Pair(0xab, 0xa8), Pair(0xaf, 0xa9))
  const R113 := Row(Pair(0xbf, 0xaa), Pair(0xbb, 0xab), Pair(0xbf, 0xac), Pair(0xbb, 0xad), Pair(0xbb, 0xae), Pair(0xbf, 0xaf), Pair(0xa3, 0xb0), Pair(0xa7, 0xb1),
    Pair(0xa7, 0xb2), Pair(0xa3, 0xb3), Pair(0xa7, 0xb4), Pair(0xa3, 0xb5), Pair(0xa3, 0xb6), Pair(0xa7, 0xb7), Pair(0xaf, 0xb8), Pair(0xab, 0xb9))
  const R114 := Row(Pair(0xbb, 0xba), Pair(0xbf, 0xbb), Pair(0xbb, 0xbc), Pair(0xbf, 0xbd), Pair(0xbf, 0xbe), Pair(0xbb, 0xbf), Pair(0x87, 0xc0), Pair(0x83, 0xc1),
    Pair(0x83, 0xc2), Pair(0x87, 0xc3), Pair(0x83, 0xc4), Pair(0x87, 0xc5), Pair(0x87, 0xc6), Pair(0x83, 0xc7), Pair(0x8b, 0xc8), Pair(0x8f, 0xc9))
  const R115 := Row(Pair(0x9f, 0xca), Pair(0x9b, 0xcb), Pair(0x9f, 0xcc), Pair(0x9b, 0xcd), Pair(0x9b, 0xce), Pair(0x9f, 0xcf), Pair(0x83, 0xd0), Pair(0x87, 0xd1),
    Pair(0x87, 0xd2), Pair(0x83, 0xd3), Pair(0x87, 0xd4), Pair(0x83, 0xd5), Pair(0x83, 0xd6), Pair(0x87, 0xd7), Pair(0x8f, 0xd8), Pair(0x8b, 0xd9))
  const R116 := Row(Pair(0x9b, 0xda), Pair(0x9f, 0xdb), Pair(0x9b, 0xdc), Pair(0x9f, 0xdd), Pair(0x9f, 0xde), Pair(0x9b, 0xdf), Pair(0xa3, 0xe0), Pair(0xa7, 0xe1),
    Pair(0xa7, 0xe2), Pair(0xa3, 0xe3), Pair(0xa7, 0xe4), Pair(0xa3, 0xe5), Pair(0xa3, 0xe6), Pair(0xa7, 0xe7), Pair(0xaf, 0xe8), Pair(0xab, 0xe9))
  const R117 := Row(Pair(0xbb, 0xea), Pair(0xbf, 0xeb), Pair(0xbb, 0xec), Pair(0xbf, 0xed), Pair(0xbf, 0xee), Pair(0xbb, 0xef), Pair(0xa7, 0xf0), Pair(0xa3, 0xf1),
    Pair(0xa3, 0xf2), Pair(0xa7, 0xf3), Pair(0xa3, 0xf4), Pair(0xa7, 0xf5), Pair(0xa7, 0xf6), Pair(0xa3, 0xf7), Pair(0xab, 0xf8), Pair(0xaf, 0xf9))
  const R118 := Row(Pair(0xbf, 0xfa), Pair(0xbb, 0xfb), Pair(0xbf, 0xfc), Pair(0xbb, 0xfd), Pair(0xbb, 0xfe), Pair(0xbf, 0xff), Pair(0x47, 0x00), Pair(0x03, 0x01),
    Pair(0x03, 0x02), Pair(0x07, 0x03), Pair(0x03, 0x04), Pair(0x07, 0x05), Pair(0x07, 0x06), Pair(0x03, 0x07), Pair(0x0b, 0x08), Pair(0x0f, 0x09))
  const R119 := Row(Pair(0x1f, 0x0a), Pair(0x1b, 0x0b), Pair(0x1f, 0x0c), Pair(0x1b, 0x0d), Pair(0x1b, 0x0e), Pair(0x1f, 0x0f), Pair(0x03, 0x10), Pair(0x07, 0x11),
    Pair(0x07, 0x12), Pair(0x03, 0x13), Pair(0x07, 0x14), Pair(0x03, 0x15), Pair(0x03, 0x16), Pair(0x07, 0x17), Pair(0x0f, 0x18), Pair(0x0b, 0x19))
  const R120 := Row(Pair(0x1b, 0x1a), Pair(0x1f, 0x1b), Pair(0x1b, 0x1c), Pair(0x1f, 0x1d), Pair(0x1f, 0x1e), Pair(0x1b, 0x1f), Pair(0x23, 0x20), Pair(0x27, 0x21),
    Pair(0x27, 0x22), Pair(0x23, 0x23), Pair(0x27, 0x24), Pair(0x23, 0x25), Pair(0x23, 0x26), Pair(0x27, 0x27), Pair(0x2f, 0x28), Pair(0x2b, 0x29))
  const R121 := Row(Pair(0x3b, 0x2a), Pair(0x3f, 0x2b), Pair(0x3b, 0x2c), Pair(0x3f, 0x2d), Pair(0x3f, 0x2e), Pair(0x3b, 0x2f), Pair(0x27, 0x30), Pair(0x23, 0x31),
    Pair(0x23, 0x32), Pair(0x27, 0x33), Pair(0x23, 0x34), Pair(0x27, 0x35), Pair(0x27, 0x36), Pair(0x23, 0x37), Pair(0x2b, 0x38), Pair(0x2f, 0x39))
  const R122 := Row(Pair(0x3f, 0x3a), Pair(0x3b, 0x3b), Pair(0x3f, 0x3c), Pair(0x3b, 0x3d), Pair(0x3b, 0x3e), Pair(0x3f, 0x3f), Pair(0x03, 0x40), Pair(0x07, 0x41),
    Pair(0x07, 0x42), Pair(0x03, 0x43), Pair(0x07, 0x44), Pair(0x03, 0x45), Pair(0x03, 0x46), Pair(0x07, 0x47), Pair(0x0f, 0x48), Pair(0x0b, 0x49))
  const R123 := Row(Pair(0x1b, 0x4a), Pair(0x1f, 0x4b), Pair(0x1b, 0x4c), Pair(0x1f, 0x4d), Pair(0x1f, 0x4e), Pair(0x1b, 0x4f), Pair(0x07, 0x50), Pair(0x03, 0x51),
    Pair(0x03, 0x52), Pair(0x07, 0x53), Pair(0x03, 0x54), Pair(0x07, 0x55), Pair(0x07, 0x56), Pair(0x03, 0x57), Pair(0x0b, 0x58), Pair(0x0f, 0x59))
  const R124 := Row(Pair(0x1f, 0x5a), Pair(0x1b, 0x5b), Pair(0x1f, 0x5c), Pair(0x1b, 0x5d), Pair(0x1b, 0x5e), Pair(0x1f, 0x5f), Pair(0x27, 0x60), Pair(0x23, 0x61),
    Pair(0x23, 0x62), Pair(0x27, 0x63), Pair(0x23, 0x64), Pair(0x27, 0x65), Pair(0x27, 0x66), Pair(0x23, 0x67), Pair(0x2b, 0x68), Pair(0x2f, 0x69))
  const R125 := Row(Pair(0x3f, 0x6a), Pair(0x3b, 0x6b), Pair(0x3f, 0x6c), Pair(0x3b, 0x6d), Pair(0x3b, 0x6e), Pair(0x3f, 0x6f), Pair(0x23, 0x70), Pair(0x27, 0x71),
    Pair(0x27, 0x72), Pair(0x23, 0x73), Pair(0x27, 0x74), Pair(0x23, 0x75), Pair(0x23, 0x76), Pair(0x27, 0x77), Pair(0x2f, 0x78), Pair(0x2b, 0x79))
  const R126 := Row(Pair(0x3b, 0x7a), Pair(0x3f, 0x7b), Pair(0x3b, 0x7c), Pair(0x3f, 0x7d), Pair(0x3f, 0x7e), Pair(0x3b, 0x7f), Pair(0x83, 0x80), Pair(0x87, 0x81),
    Pair(0x87, 0x82), Pair(0x83, 0x83), Pair(0x87, 0x84), Pair(0x83, 0x85), Pair(0x83, 0x86), Pair(0x87, 0x87), Pair(0x8f, 0x88), Pair(0x8b, 0x89))
  const R127 := Row(Pair(0x9b, 0x8a), Pair(0x9f, 0x8b), Pair(0x9b, 0x8c), Pair(0x9f, 0x8d), Pair(0x9f, 0x8e), Pair(0x9b, 0x8f), Pair(0x87, 0x90), Pair(0x83, 0x91),
    Pair(0x83, 0x92), Pair(0x87, 0x93), Pair(0x83, 0x94), Pair(0x87, 0x95), Pair(0x87, 0x96), Pair(0x83, 0x97), Pair(0x8b, 0x98), Pair(0x8f, 0x99))

  /** The rows of flag group 0. */
  function GroupRow0(hi: bv8): Row
    requires hi < 16
  {
    if hi == 0 then R0
    else if hi == 1 then R1
    else if hi == 2 then R2
    else if hi == 3 then R3
    else if hi == 4 then R4
    else if hi == 5 then R5
    else if hi == 6 then R6
    else if hi == 7 then R7
    else if hi == 8 then R8
    else if hi == 9 then R9
    else if hi == 10 then R10
    else if hi == 11 then R11
    else if hi == 12 then R12
    else if hi == 13 then R13
    else if hi == 14 then R14
    else R15
  }

  /** The rows of flag group 1. */
  function GroupRow1(hi: bv8): Row
    requires hi < 16
  {
    if hi == 0 then R16
    else if hi == 1 then R17
    else if hi == 2 then R18
    else if hi == 3 then R19
    else if hi == 4 then R20
    else if hi == 5 then R21
    else if hi == 6 then R22
    else if hi == 7 then R23
    else if hi == 8 then R24
    else if hi == 9 then R25
    else if hi == 10 then R26
    else if hi == 11 then R27
    else if hi == 12 then R28
    else if hi == 13 then R29
    else if hi == 14 then R30
    else R31
  }

  /** The rows of flag group 2. */
  function GroupRow2(hi: bv8): Row
    requires hi < 16
  {
    if hi == 0 then R32
    else if hi == 1 then R33
    else if hi == 2 then R34
    else if hi == 3 then R35
    else if hi == 4 then R36
    else if hi == 5 then R37
    else if hi == 6 then R38
    else if hi == 7 then R39
    else if hi == 8 then R40
    else if hi == 9 then R41
    else if hi == 10 then R42
    else if hi == 11 then R43
    else if hi == 12 then R44
    else if hi == 13 then R45
    else if hi == 14 then R46
    else R47
  }

  /** The rows of flag group 3. */
  function GroupRow3(hi: bv8): Row
    requires hi < 16
  {
    if hi == 0 then R48
    else if hi == 1 then R49
    else if hi == 2 then R50
    else if hi == 3 then R51
    else if hi == 4 then R52
    else if hi == 5 then R53
    else if hi == 6 then R54
    else if hi == 7 then R55
    else if hi == 8 then R56
    else if hi == 9 then R57
    else if hi == 10 then R58
    else if hi == 11 then R59
    else if hi == 12 then R60
    else if hi == 13 then R61
    else if hi == 14 then R62
    else R63
  }

  /** The rows of flag group 4. */
  function GroupRow4(hi: bv8): Row
    requires hi < 16
  {
    if hi == 0 then R64
    else if hi == 1 then R65
    else if hi == 2 then R66
    else if hi == 3 then R67
    else if hi == 4 then R68
    else if hi == 5 then R69
    else if hi == 6 then R70
    else if hi == 7 then R71
    else if hi == 8 then R72
    else if hi == 9 then R73
    else if hi == 10 then R74
    else if hi == 11 then R75
    else if hi == 12 then R76
    else if hi == 13 then R77
    else if hi == 14 then R78
    else R79
  }

  /** The rows of flag group 5. */
  function GroupRow5(hi: bv8): Row
    requires hi < 16
  {
    if hi == 0 then R80
    else if hi == 1 then R81
    else if hi == 2 then R82
    else if hi == 3 then R83
    else if hi == 4 then R84
    else if hi == 5 then R85
    else if hi == 6 then R86
    else if hi == 7 then R87
    else if hi == 8 then R88
    else if hi == 9 then R89
    else if hi == 10 then R90
    else if hi == 11 then R91
    else if hi == 12 then R92
    else if hi == 13 then R93
    else if hi == 14 then R94
    else R95
  }

  /** The rows of flag group 6. */
  function GroupRow6(hi: bv8): Row
    requires hi < 16
  {
    if hi == 0 then R96
    else if hi == 1 then R97
    else if hi == 2 then R98
    else if hi == 3 then R99
    else if hi == 4 then R100
    else if hi == 5 then R101
    else if hi == 6 then R102
    else if hi == 7 then R103
    else if hi == 8 then R104
    else if hi == 9 then R105
    else if hi == 10 then R106
    else if hi == 11 then R107
    else if hi == 12 then R108
    else if hi == 13 then R109
    else if hi == 14 then R110
    else R111
  }

  /** The rows of flag group 7. */
  function GroupRow7(hi: bv8): Row
    requires hi < 16
  {
    if hi == 0 then R112
    else if hi == 1 then R113
    else if hi == 2 then R114
    else if hi == 3 then R115
    else if hi == 4 then R116
    else if hi == 5 then R117
    else if hi == 6 then R118
    else if hi == 7 then R119
    else if hi == 8 then R120
    else if hi == 9 then R121
    else if hi == 10 then R122
    else if hi == 11 then R123
    else if hi == 12 then R124
    else if hi == 13 then R125
    else if hi == 14 then R126
    else R127
  }

  /** Row k of daaTab: pairs 16k .. 16k+15, source lines 11+4k .. 14+4k. */
  function TableRow(k: bv8): Row
    requires k < 128
  {
    var g, hi := k >> 4, k & 15;
    if g == 0 then GroupRow0(hi)
    else if g == 1 then GroupRow1(hi)
    else if g == 2 then GroupRow2(hi)
    else if g == 3 then GroupRow3(hi)
    else if g == 4 then GroupRow4(hi)
    else if g == 5 then GroupRow5(hi)
    else if g == 6 then GroupRow6(hi)
    else GroupRow7(hi)
  }


  /** The (F, A) pair daaTab holds for flag group g (C | N << 1 | H << 2) and accumulator a. */
  function DaaPair(g: bv8, a: bv8): Pair
    requires g < 8
  {
    PairAt(TableRow((g << 4) | (a >> 4)), a & 15)
  }

  /**
   * Byte i of the 0x1000-byte array daaTab: F (even i) or A (odd i) of pair (i >> 1) & 0xff
   * of group i >> 9.
   */
  function DaaByte(i: bv16): bv8
    requires i < 0x1000
  {
    var p := DaaPair((i >> 9) as bv8, ((i >> 1) & 0xff) as bv8);
    if i & 1 == 0 then p.f else p.a
  }
  lemma Row0Q0()
    ensures forall lo: bv8 :: lo < 4 ==> PairAt(R0, lo) == DaaOut(0x00 | lo, false, false, false)
  {
    forall lo: bv8 | lo < 4 ensures PairAt(R0, lo) == DaaOut(0x00 | lo, false, false, false) {
      assert lo == 0 || lo == 1 || lo == 2 || lo == 3;
    }
  }

  lemma Row0Q1()
    ensures forall lo: bv8 :: 4 <= lo < 8 ==> PairAt(R0, lo) == DaaOut(0x00 | lo, false, false, false)
  {
    forall lo: bv8 | 4 <= lo < 8 ensures PairAt(R0, lo) == DaaOut(0x00 | lo, false, false, false) {
      assert lo == 4 || lo == 5 || lo == 6 || lo == 7;
    }
  }

  lemma Row0Q2()
    ensures forall lo: bv8 :: 8 <= lo < 12 ==> PairAt(R0, lo) == DaaOut(0x00 | lo, false, false, false)
  {
    forall lo: bv8 | 8 <= lo < 12 ensures PairAt(R0, lo) == DaaOut(0x00 | lo, false, false, false) {
      assert lo == 8 || lo == 9 || lo == 10 || lo == 11;
    }
  }

  lemma Row0Q3()
    ensures forall lo: bv8 :: 12 <= lo < 16 ==> PairAt(R0, lo) == DaaOut(0x00 | lo, false, false, false)
  {
    forall lo: bv8 | 12 <= lo < 16 ensures PairAt(R0, lo) == DaaOut(0x00 | lo, false, false, false) {
      assert lo == 12 || lo == 13 || lo == 14 || lo == 15;
    }
  }

  lemma Row1Q0()
    ensures forall lo: bv8 :: lo < 4 ==> PairAt(R1, lo) == DaaOut(0x10 | lo, false, false, false)
  {
    forall lo: bv8 | lo < 4 ensures PairAt(R1, lo) == DaaOut(0x10 | lo, false, false, false) {
      assert lo == 0 || lo == 1 || lo == 2 || lo == 3;
    }
  }

  lemma Row1Q1()
    ensures forall lo: bv8 :: 4 <= lo < 8 ==> PairAt(R1, lo) == DaaOut(0x10 | lo, false, false, false)
  {
    forall lo: bv8 | 4 <= lo < 8 ensures PairAt(R1, lo) == DaaOut(0x10 | lo, false, false, false) {
      assert lo == 4 || lo == 5 || lo == 6 || lo == 7;
    }
  }

  lemma Row1Q2()
    ensures forall lo: bv8 :: 8 <= lo < 12 ==> PairAt(R1, lo) == DaaOut(0x10 | lo, false, false, false)
  {
    forall lo: bv8 | 8 <= lo < 12 ensures PairAt(R1, lo) == DaaOut(0x10 | lo, false, false, false) {
      assert lo == 8 || lo == 9 || lo == 10 || lo == 11;
    }
  }

  lemma Row1Q3()
    ensures forall lo: bv8 :: 12 <= lo < 16 ==> PairAt(R1, lo) == DaaOut(0x10 | lo, false, false, false)
  {
    forall lo: bv8 | 12 <= lo < 16 ensures PairAt(R1, lo) == DaaOut(0x10 | lo, false, false, false) {
      assert lo == 12 || lo == 13 || lo == 14 || lo == 15;
    }
  }

  lemma Row2Q0()
    ensures forall lo: bv8 :: lo < 4 ==> PairAt(R2, lo) == DaaOut(0x20 | lo, false, false, false)
  {
    forall lo: bv8 | lo < 4 ensures PairAt(R2, lo) == DaaOut(0x20 | lo, false, false, false) {
      assert lo == 0 || lo == 1 || lo == 2 || lo == 3;
    }
  }

  lemma Row2Q1()
    ensures forall lo: bv8 :: 4 <= lo < 8 ==> PairAt(R2, lo) == DaaOut(0x20 | lo, false, false, false)
  {
    forall lo: bv8 | 4 <= lo < 8 ensures PairAt(R2, lo) == DaaOut(0x20 | lo, false, false, false) {
      assert lo == 4 || lo == 5 || lo == 6 || lo == 7;
    }
  }

  lemma Row2Q2()
    ensures forall lo: bv8 :: 8 <= lo < 12 ==> PairAt(R2, lo) == DaaOut(0x20 | lo, false, false, false)
  {
    forall lo: bv8 | 8 <= lo < 12 ensures PairAt(R2, lo) == DaaOut(0x20 | lo, false, false, false) {
      assert lo == 8 || lo == 9 || lo == 10 || lo == 11;
    }
  }

  lemma Row2Q3()
    ensures forall lo: bv8 :: 12 <= lo < 16 ==> PairAt(R2, lo) == DaaOut(0x20 | lo, false, false, false)
  {
    forall lo: bv8 | 12 <= lo < 16 ensures PairAt(R2, lo) == DaaOut(0x20 | lo, false, false, false) {
      assert lo == 12 || lo == 13 || lo == 14 || lo == 15;
    }
  }

  lemma Row3Q0()
    ensures forall lo: bv8 :: lo < 4 ==> PairAt(R3, lo) == DaaOut(0x30 | lo, false, false, false)
  {
    forall lo: bv8 | lo < 4 ensures PairAt(R3, lo) == DaaOut(0x30 | lo, false, false, false) {
      assert lo == 0 || lo == 1 || lo == 2 || lo == 3;
    }
  }

  lemma Row3Q1()
    ensures forall lo: bv8 :: 4 <= lo < 8 ==> PairAt(R3, lo) == DaaOut(0x30 | lo, false, false, false)
  {
    forall lo: bv8 | 4 <= lo < 8 ensures PairAt(R3, lo) == DaaOut(0x30 | lo, false, false, false) {
      assert lo == 4 || lo == 5 || lo == 6 || lo == 7;
    }
  }

  lemma Row3Q2()
    ensures forall lo: bv8 :: 8 <= lo < 12 ==> PairAt(R3, lo) == DaaOut(0x30 | lo, false, false, false)
  {
    forall lo: bv8 | 8 <= lo < 12 ensures PairAt(R3, lo) == DaaOut(0x30 | lo, false, false, false) {
      assert lo == 8 || lo == 9 || lo == 10 || lo == 11;
    }
  }

  lemma Row3Q3()
    ensures forall lo: bv8 :: 12 <= lo < 16 ==> PairAt(R3, lo) == DaaOut(0x30 | lo, false, false, false)
  {
    forall lo: bv8 | 12 <= lo < 16 ensures PairAt(R3, lo) == DaaOut(0x30 | lo, false, false, false) {
      assert lo == 12 || lo == 13 || lo == 14 || lo == 15;
    }
  }

  lemma Row4Q0()
    ensures forall lo: bv8 :: lo < 4 ==> PairAt(R4, lo) == DaaOut(0x40 | lo, false, false, false)
  {
    forall lo: bv8 | lo < 4 ensures PairAt(R4, lo) == DaaOut(0x40 | lo, false, false, false) {
      assert lo == 0 || lo == 1 || lo == 2 || lo == 3;
    }
  }

  lemma Row4Q1()
    ensures forall lo: bv8 :: 4 <= lo < 8 ==> PairAt(R4, lo) == DaaOut(0x40 | lo, false, false, false)
  {
    forall lo: bv8 | 4 <= lo < 8 ensures PairAt(R4, lo) == DaaOut(0x40 | lo, false, false, false) {
      assert lo == 4 || lo == 5 || lo == 6 || lo == 7;
    }
  }

  lemma Row4Q2()
    ensures forall lo: bv8 :: 8 <= lo < 12 ==> PairAt(R4, lo) == DaaOut(0x40 | lo, false, false, false)
  {
    forall lo: bv8 | 8 <= lo < 12 ensures PairAt(R4, lo) == DaaOut(0x40 | lo, false, false, false) {
      assert lo == 8 || lo == 9 || lo == 10 || lo == 11;
    }
  }

  lemma Row4Q3()
    ensures forall lo: bv8 :: 12 <= lo < 16 ==> PairAt(R4, lo) == DaaOut(0x40 | lo, false, false, false)
  {
    forall lo: bv8 | 12 <= lo < 16 ensures PairAt(R4, lo) == DaaOut(0x40 | lo, false, false, false) {
      assert lo == 12 || lo == 13 || lo == 14 || lo == 15;
    }
  }

  lemma Row5Q0()
    ensures forall lo: bv8 :: lo < 4 ==> PairAt(R5, lo) == DaaOut(0x50 | lo, false, false, false)
  {
    forall lo: bv8 | lo < 4 ensures PairAt(R5, lo) == DaaOut(0x50 | lo, false, false, false) {
      assert lo == 0 || lo == 1 || lo == 2 || lo == 3;
    }
  }

  lemma Row5Q1()
    ensures forall lo: bv8 :: 4 <= lo < 8 ==> PairAt(R5, lo) == DaaOut(0x50 | lo, false, false, false)
  {
    forall lo: bv8 | 4 <= lo < 8 ensures PairAt(R5, lo) == DaaOut(0x50 | lo, false, false, false) {
      assert lo == 4 || lo == 5 || lo == 6 || lo == 7;
    }
  }

  lemma Row5Q2()
    ensures forall lo: bv8 :: 8 <= lo < 12 ==> PairAt(R5, lo) == DaaOut(0x50 | lo, false, false, false)
  {
    forall lo: bv8 | 8 <= lo < 12 ensures PairAt(R5, lo) == DaaOut(0x50 | lo, false, false, false) {
      assert lo == 8 || lo == 9 || lo == 10 || lo == 11;
    }
  }

  lemma Row5Q3()
    ensures forall lo: bv8 :: 12 <= lo < 16 ==> PairAt(R5, lo) == DaaOut(0x50 | lo, false, false, false)
  {
    forall lo: bv8 | 12 <= lo < 16 ensures PairAt(R5, lo) == DaaOut(0x50 | lo, false, false, false) {
      assert lo == 12 || lo == 13 || lo == 14 || lo == 15;
    }
  }

  lemma Row6Q0()
    ensures forall lo: bv8 :: lo < 4 ==> PairAt(R6, lo) == DaaOut(0x60 | lo, false, false, false)
  {
    forall lo: bv8 | lo < 4 ensures PairAt(R6, lo) == DaaOut(0x60 | lo, false, false, false) {
      assert lo == 0 || lo == 1 || lo == 2 || lo == 3;
    }
  }

  lemma Row6Q1()
    ensures forall lo: bv8 :: 4 <= lo < 8 ==> PairAt(R6, lo) == DaaOut(0x60 | lo, false, false, false)
  {
    forall lo: bv8 | 4 <= lo < 8 ensures PairAt(R6, lo) == DaaOut(0x60 | lo, false, false, false) {
      assert lo == 4 || lo == 5 || lo == 6 || lo == 7;
    }
  }

  lemma Row6Q2()
    ensures forall lo: bv8 :: 8 <= lo < 12 ==> PairAt(R6, lo) == DaaOut(0x60 | lo, false, false, false)
  {
    forall lo: bv8 | 8 <= lo < 12 ensures PairAt(R6, lo) == DaaOut(0x60 | lo, false, false, false) {
      assert lo == 8 || lo == 9 || lo == 10 || lo == 11;
    }
  }

  lemma Row6Q3()
    ensures forall lo: bv8 :: 12 <= lo < 16 ==> PairAt(R6, lo) == DaaOut(0x60 | lo, false, false, false)
  {
    forall lo: bv8 | 12 <= lo < 16 ensures PairAt(R6, lo) == DaaOut(0x60 | lo, false, false, false) {
      assert lo == 12 || lo == 13 || lo == 14 || lo == 15;
    }
  }

  lemma Row7Q0()
    ensures forall lo: bv8 :: lo < 4 ==> PairAt(R7, lo) == DaaOut(0x70 | lo, false, false, false)
  {
    forall lo: bv8 | lo < 4 ensures PairAt(R7, lo) == DaaOut(0x70 | lo, false, false, false) {
      assert lo == 0 || lo == 1 || lo == 2 || lo == 3;
    }
  }

  lemma Row7Q1()
    ensures forall lo: bv8 :: 4 <= lo < 8 ==> PairAt(R7, lo) == DaaOut(0x70 | lo, false, false, false)
  {
    forall lo: bv8 | 4 <= lo < 8 ensures PairAt(R7, lo) == DaaOut(0x70 | lo, false, false, false) {
      assert lo == 4 || lo == 5 || lo == 6 || lo == 7;
    }
  }

  lemma Row7Q2()
    ensures forall lo: bv8 :: 8 <= lo < 12 ==> PairAt(R7, lo) == DaaOut(0x70 | lo, false, false, false)
  {
    forall lo: bv8 | 8 <= lo < 12 ensures PairAt(R7, lo) == DaaOut(0x70 | lo, false, false, false) {
      assert lo == 8 || lo == 9 || lo == 10 || lo == 11;
    }
  }

  lemma Row7Q3()
    ensures forall lo: bv8 :: 12 <= lo < 16 ==> PairAt(R7, lo) == DaaOut(0x70 | lo, false, false, false)
  {
    forall lo: bv8 | 12 <= lo < 16 ensures PairAt(R7, lo) == DaaOut(0x70 | lo, false, false, false) {
      assert lo == 12 || lo == 13 || lo == 14 || lo == 15;
    }
  }

  lemma Row8Q0()
    ensures forall lo: bv8 :: lo < 4 ==> PairAt(R8, lo) == DaaOut(0x80 | lo, false, false, false)
  {
    forall lo: bv8 | lo < 4 ensures PairAt(R8, lo) == DaaOut(0x80 | lo, false, false, false) {
      assert lo == 0 || lo == 1 || lo == 2 || lo == 3;
    }
  }

  lemma Row8Q1()
    ensures forall lo: bv8 :: 4 <= lo < 8 ==> PairAt(R8, lo) == DaaOut(0x80 | lo, false, false, false)
  {
    forall lo: bv8 | 4 <= lo < 8 ensures PairAt(R8, lo) == DaaOut(0x80 | lo, false, false, false) {
      assert lo == 4 || lo == 5 || lo == 6 || lo == 7;
    }
  }

  lemma Row8Q2()
    ensures forall lo: bv8 :: 8 <= lo < 12 ==> PairAt(R8, lo) == DaaOut(0x80 | lo, false, false, false)
  {
    forall lo: bv8 | 8 <= lo < 12 ensures PairAt(R8, lo) == DaaOut(0x80 | lo, false, false, false) {
      assert lo == 8 || lo == 9 || lo == 10 || lo == 11;
    }
  }

  lemma Row8Q3()
    ensures forall lo: bv8 :: 12 <= lo < 16 ==> PairAt(R8, lo) == DaaOut(0x80 | lo, false, false, false)
  {
    forall lo: bv8 | 12 <= lo < 16 ensures PairAt(R8, lo) == DaaOut(0x80 | lo, false, false, false) {
      assert lo == 12 || lo == 13 || lo == 14 || lo == 15;
    }
  }

  lemma Row9Q0()
    ensures forall lo: bv8 :: lo < 4 ==> PairAt(R9, lo) == DaaOut(0x90 | lo, false, false, false)
  {
    forall lo: bv8 | lo < 4 ensures PairAt(R9, lo) == DaaOut(0x90 | lo, false, false, false) {
      assert lo == 0 || lo == 1 || lo == 2 || lo == 3;
    }
  }

  lemma Row9Q1()
    ensures forall lo: bv8 :: 4 <= lo < 8 ==> PairAt(R9, lo) == DaaOut(0x90 | lo, false, false, false)
  {
    forall lo: bv8 | 4 <= lo < 8 ensures PairAt(R9, lo) == DaaOut(0x90 | lo, false, false, false) {
      assert lo == 4 || lo == 5 || lo == 6 || lo == 7;
    }
  }

  lemma Row9Q2()
    ensures forall lo: bv8 :: 8 <= lo < 12 ==> PairAt(R9, lo) == DaaOut(0x90 | lo, false, false, false)
  {
    forall lo: bv8 | 8 <= lo < 12 ensures PairAt(R9, lo) == DaaOut(0x90 | lo, false, false, false) {
      assert lo == 8 || lo == 9 || lo == 10 || lo == 11;
    }
  }

  lemma Row9Q3()
    ensures forall lo: bv8 :: 12 <= lo < 16 ==> PairAt(R9, lo) == DaaOut(0x90 | lo, false, false, false)
  {
    forall lo: bv8 | 12 <= lo < 16 ensures PairAt(R9, lo) == DaaOut(0x90 | lo, false, false, false) {
      assert lo == 12 || lo == 13 || lo == 14 || lo == 15;
    }
  }

  lemma Row10Q0()
    ensures forall lo: bv8 :: lo < 4 ==> PairAt(R10, lo) == DaaOut(0xa0 | lo, false, false, false)
  {
    forall lo: bv8 | lo < 4 ensures PairAt(R10, lo) == DaaOut(0xa0 | lo, false, false, false) {
      assert lo == 0 || lo == 1 || lo == 2 || lo == 3;
    }
  }

  lemma Row10Q1()
    ensures forall lo: bv8 :: 4 <= lo < 8 ==> PairAt(R10, lo) == DaaOut(0xa0 | lo, false, false, false)
  {
    forall lo: bv8 | 4 <= lo < 8 ensures PairAt(R10, lo) == DaaOut(0xa0 | lo, false, false, false) {
      assert lo == 4 || lo == 5 || lo == 6 || lo == 7;
    }
  }

  lemma Row10Q2()
    ensures forall lo: bv8 :: 8 <= lo < 12 ==> PairAt(R10, lo) == DaaOut(0xa0 | lo, false, false, false)
  {
    forall lo: bv8 | 8 <= lo < 12 ensures PairAt(R10, lo) == DaaOut(0xa0 | lo, false, false, false) {
      assert lo == 8 || lo == 9 || lo == 10 || lo == 11;
    }
  }

  lemma Row10Q3()
    ensures forall lo: bv8 :: 12 <= lo < 16 ==> PairAt(R10, lo) == DaaOut(0xa0 | lo, false, false, false)
  {
    forall lo: bv8 | 12 <= lo < 16 ensures PairAt(R10, lo) == DaaOut(0xa0 | lo, false, false, false) {
      assert lo == 12 || lo == 13 || lo == 14 || lo == 15;
    }
  }

  lemma Row11Q0()
    ensures forall lo: bv8 :: lo < 4 ==> PairAt(R11, lo) == DaaOut(0xb0 | lo, false, false, false)
  {
    forall lo: bv8 | lo < 4 ensures PairAt(R11, lo) == DaaOut(0xb0 | lo, false, false, false) {
      assert lo == 0 || lo == 1 || lo == 2 || lo == 3;
    }
  }

  lemma Row11Q1()
    ensures forall lo: bv8 :: 4 <= lo < 8 ==> PairAt(R11, lo) == DaaOut(0xb0 | lo, false, false, false)
  {
    forall lo: bv8 | 4 <= lo < 8 ensures PairAt(R11, lo) == DaaOut(0xb0 | lo, false, false, false) {
      assert lo == 4 || lo == 5 || lo == 6 || lo == 7;
    }
  }

  lemma Row11Q2()
    ensures forall lo: bv8 :: 8 <= lo < 12 ==> PairAt(R11, lo) == DaaOut(0xb0 | lo, false, false, false)
  {
    forall lo: bv8 | 8 <= lo < 12 ensures PairAt(R11, lo) == DaaOut(0xb0 | lo, false, false, false) {
      assert lo == 8 || lo == 9 || lo == 10 || lo == 11;
    }
  }

  lemma Row11Q3()
    ensures forall lo: bv8 :: 12 <= lo < 16 ==> PairAt(R11, lo) == DaaOut(0xb0 | lo, false, false, false)
  {
    forall lo: bv8 | 12 <= lo < 16 ensures PairAt(R11, lo) == DaaOut(0xb0 | lo, false, false, false) {
      assert lo == 12 || lo == 13 || lo == 14 || lo == 15;
    }
  }

  lemma Row12Q0()
    ensures forall lo: bv8 :: lo < 4 ==> PairAt(R12, lo) == DaaOut(0xc0 | lo, false, false, false)
  {
    forall lo: bv8 | lo < 4 ensures PairAt(R12, lo) == DaaOut(0xc0 | lo, false, false, false) {
      assert lo == 0 || lo == 1 || lo == 2 || lo == 3;
    }
  }

  lemma Row12Q1()
    ensures forall lo: bv8 :: 4 <= lo < 8 ==> PairAt(R12, lo) == DaaOut(0xc0 | lo, false, false, false)
  {
    forall lo: bv8 | 4 <= lo < 8 ensures PairAt(R12, lo) == DaaOut(0xc0 | lo, false, false, false) {
      assert lo == 4 || lo == 5 || lo == 6 || lo == 7;
    }
  }

  lemma Row12Q2()
    ensures forall lo: bv8 :: 8 <= lo < 12 ==> PairAt(R12, lo) == DaaOut(0xc0 | lo, false, false, false)
  {
    forall lo: bv8 | 8 <= lo < 12 ensures PairAt(R12, lo) == DaaOut(0xc0 | lo, false, false, false) {
      assert lo == 8 || lo == 9 || lo == 10 || lo == 11;
    }
  }

  lemma Row12Q3()
    ensures forall lo: bv8 :: 12 <= lo < 16 ==> PairAt(R12, lo) == DaaOut(0xc0 | lo, false, false, false)
  {
    forall lo: bv8 | 12 <= lo < 16 ensures PairAt(R12, lo) == DaaOut(0xc0 | lo, false, false, false) {
      assert lo == 12 || lo == 13 || lo == 14 || lo == 15;
    }
  }

  lemma Row13Q0()
    ensures forall lo: bv8 :: lo < 4 ==> PairAt(R13, lo) == DaaOut(0xd0 | lo, false, false, false)
  {
    forall lo: bv8 | lo < 4 ensures PairAt(R13, lo) == DaaOut(0xd0 | lo, false, false, false) {
      assert lo == 0 || lo == 1 || lo == 2 || lo == 3;
    }
  }

  lemma Row13Q1()
    ensures forall lo: bv8 :: 4 <= lo < 8 ==> PairAt(R13, lo) == DaaOut(0xd0 | lo, false, false, false)
  {
    forall lo: bv8 | 4 <= lo < 8 ensures PairAt(R13, lo) == DaaOut(0xd0 | lo, false, false, false) {
      assert lo == 4 || lo == 5 || lo == 6 || lo == 7;
    }
  }

  lemma Row13Q2()
    ensures forall lo: bv8 :: 8 <= lo < 12 ==> PairAt(R13, lo) == DaaOut(0xd0 | lo, false, false, false)
  {
    forall lo: bv8 | 8 <= lo < 12 ensures PairAt(R13, lo) == DaaOut(0xd0 | lo, false, false, false) {
      assert lo == 8 || lo == 9 || lo == 10 || lo == 11;
    }
  }

  lemma Row13Q3()
    ensures forall lo: bv8 :: 12 <= lo < 16 ==> PairAt(R13, lo) == DaaOut(0xd0 | lo, false, false, false)
  {
    forall lo: bv8 | 12 <= lo < 16 ensures PairAt(R13, lo) == DaaOut(0xd0 | lo, false, false, false) {
      assert lo == 12 || lo == 13 || lo == 14 || lo == 15;
    }
  }

  lemma Row14Q0()
    ensures forall lo: bv8 :: lo < 4 ==> PairAt(R14, lo) == DaaOut(0xe0 | lo, false, false, false)
  {
    forall lo: bv8 | lo < 4 ensures PairAt(R14, lo) == DaaOut(0xe0 | lo, false, false, false) {
      assert lo == 0 || lo == 1 || lo == 2 || lo == 3;
    }
  }

  lemma Row14Q1()
    ensures forall lo: bv8 :: 4 <= lo < 8 ==> PairAt(R14, lo) == DaaOut(0xe0 | lo, false, false, false)
  {
    forall lo: bv8 | 4 <= lo < 8 ensures PairAt(R14, lo) == DaaOut(0xe0 | lo, false, false, false) {
      assert lo == 4 || lo == 5 || lo == 6 || lo == 7;
    }
  }

  lemma Row14Q2()
    ensures forall lo: bv8 :: 8 <= lo < 12 ==> PairAt(R14, lo) == DaaOut(0xe0 | lo, false, false, false)
  {
    forall lo: bv8 | 8 <= lo < 12 ensures PairAt(R14, lo) == DaaOut(0xe0 | lo, false, false, false) {
      assert lo == 8 || lo == 9 || lo == 10 || lo == 11;
    }
  }

  lemma Row14Q3()
    ensures forall lo: bv8 :: 12 <= lo < 16 ==> PairAt(R14, lo) == DaaOut(0xe0 | lo, false, false, false)
  {
    forall lo: bv8 | 12 <= lo < 16 ensures PairAt(R14, lo) == DaaOut(0xe0 | lo, false, false, false) {
      assert lo == 12 || lo == 13 || lo == 14 || lo == 15;
    }
  }

  lemma Row15Q0()
    ensures forall lo: bv8 :: lo < 4 ==> PairAt(R15, lo) == DaaOut(0xf0 | lo, false, false, false)
  {
    forall lo: bv8 | lo < 4 ensures PairAt(R15, lo) == DaaOut(0xf0 | lo, false, false, false) {
      assert lo == 0 || lo == 1 || lo == 2 || lo == 3;
    }
  }

  lemma Row15Q1()
    ensures forall lo: bv8 :: 4 <= lo < 8 ==> PairAt(R15, lo) == DaaOut(0xf0 | lo, false, false, false)
  {
    forall lo: bv8 | 4 <= lo < 8 ensures PairAt(R15, lo) == DaaOut(0xf0 | lo, false, false, false) {
      assert lo == 4 || lo == 5 || lo == 6 || lo == 7;
    }
  }

  lemma Row15Q2()
    ensures forall lo: bv8 :: 8 <= lo < 12 ==> PairAt(R15, lo) == DaaOut(0xf0 | lo, false, false, false)
  {
    forall lo: bv8 | 8 <= lo < 12 ensures PairAt(R15, lo) == DaaOut(0xf0 | lo, false, false, false) {
      assert lo == 8 || lo == 9 || lo == 10 || lo == 11;
    }
  }

  lemma Row15Q3()
    ensures forall lo: bv8 :: 12 <= lo < 16 ==> PairAt(R15, lo) == DaaOut(0xf0 | lo, false, false, false)
  {
    forall lo: bv8 | 12 <= lo < 16 ensures PairAt(R15, lo) == DaaOut(0xf0 | lo, false, false, false) {
      assert lo == 12 || lo == 13 || lo == 14 || lo == 15;
    }
  }

  lemma Row16Q0()
    ensures forall lo: bv8 :: lo < 4 ==> PairAt(R16, lo) == DaaOut(0x00 | lo, true, false, false)
  {
    forall lo: bv8 | lo < 4 ensures PairAt(R16, lo) == DaaOut(0x00 | lo, true, false, false) {
      assert lo == 0 || lo == 1 || lo == 2 || lo == 3;
    }
  }

  lemma Row16Q1()
    ensures forall lo: bv8 :: 4 <= lo < 8 ==> PairAt(R16, lo) == DaaOut(0x00 | lo, true, false, false)
  {
    forall lo: bv8 | 4 <= lo < 8 ensures PairAt(R16, lo) == DaaOut(0x00 | lo, true, false, false) {
      assert lo == 4 || lo == 5 || lo == 6 || lo == 7;
    }
  }

  lemma Row16Q2()
    ensures forall lo: bv8 :: 8 <= lo < 12 ==> PairAt(R16, lo) == DaaOut(0x00 | lo, true, false, false)
  {
    forall lo: bv8 | 8 <= lo < 12 ensures PairAt(R16, lo) == DaaOut(0x00 | lo, true, false, false) {
      assert lo == 8 || lo == 9 || lo == 10 || lo == 11;
    }
  }

  lemma Row16Q3()
    ensures forall lo: bv8 :: 12 <= lo < 16 ==> PairAt(R16, lo) == DaaOut(0x00 | lo, true, false, false)
  {
    forall lo: bv8 | 12 <= lo < 16 ensures PairAt(R16, lo) == DaaOut(0x00 | lo, true, false, false) {
      assert lo == 12 || lo == 13 || lo == 14 || lo == 15;
    }
  }

  lemma Row17Q0()
    ensures forall lo: bv8 :: lo < 4 ==> PairAt(R17, lo) == DaaOut(0x10 | lo, true, false, false)
  {
    forall lo: bv8 | lo < 4 ensures PairAt(R17, lo) == DaaOut(0x10 | lo, true, false, false) {
      assert lo == 0 || lo == 1 || lo == 2 || lo == 3;
    }
  }

  lemma Row17Q1()
    ensures forall lo: bv8 :: 4 <= lo < 8 ==> PairAt(R17, lo) == DaaOut(0x10 | lo, true, false, false)
  {
    forall lo: bv8 | 4 <= lo < 8 ensures PairAt(R17, lo) == DaaOut(0x10 | lo, true, false, false) {
      assert lo == 4 || lo == 5 || lo == 6 || lo == 7;
    }
  }

  lemma Row17Q2()
    ensures forall lo: bv8 :: 8 <= lo < 12 ==> PairAt(R17, lo) == DaaOut(0x10 | lo, true, false, false)
  {
    forall lo: bv8 | 8 <= lo < 12 ensures PairAt(R17, lo) == DaaOut(0x10 | lo, true, false, false) {
      assert lo == 8 || lo == 9 || lo == 10 || lo == 11;
    }
  }

  lemma Row17Q3()
    ensures forall lo: bv8 :: 12 <= lo < 16 ==> PairAt(R17, lo) == DaaOut(0x10 | lo, true, false, false)
  {
    forall lo: bv8 | 12 <= lo < 16 ensures PairAt(R17, lo) == DaaOut(0x10 | lo, true, false, false) {
      assert lo == 12 || lo == 13 || lo == 14 || lo == 15;
    }
  }

  lemma Row18Q0()
    ensures forall lo: bv8 :: lo < 4 ==> PairAt(R18, lo) == DaaOut(0x20 | lo, true, false, false)
  {
    forall lo: bv8 | lo < 4 ensures PairAt(R18, lo) == DaaOut(0x20 | lo, true, false, false) {
      assert lo == 0 || lo == 1 || lo == 2 || lo == 3;
    }
  }

  lemma Row18Q1()
    ensures forall lo: bv8 :: 4 <= lo < 8 ==> PairAt(R18, lo) == DaaOut(0x20 | lo, true, false, false)
  {
    forall lo: bv8 | 4 <= lo < 8 ensures PairAt(R18, lo) == DaaOut(0x20 | lo, true, false, false) {
      assert lo == 4 || lo == 5 || lo == 6 || lo == 7;
    }
  }

  lemma Row18Q2()
    ensures forall lo: bv8 :: 8 <= lo < 12 ==> PairAt(R18, lo) == DaaOut(0x20 | lo, true, false, false)
  {
    forall lo: bv8 | 8 <= lo < 12 ensures PairAt(R18, lo) == DaaOut(0x20 | lo, true, false, false) {
      assert lo == 8 || lo == 9 || lo == 10 || lo == 11;
    }
  }

  lemma Row18Q3()
    ensures forall lo: bv8 :: 12 <= lo < 16 ==> PairAt(R18, lo) == DaaOut(0x20 | lo, true, false, false)
  {
    forall lo: bv8 | 12 <= lo < 16 ensures PairAt(R18, lo) == DaaOut(0x20 | lo, true, false, false) {
      assert lo == 12 || lo == 13 || lo == 14 || lo == 15;
    }
  }

  lemma Row19Q0()
    ensures forall lo: bv8 :: lo < 4 ==> PairAt(R19, lo) == DaaOut(0x30 | lo, true, false, false)
  {
    forall lo: bv8 | lo < 4 ensures PairAt(R19, lo) == DaaOut(0x30 | lo, true, false, false) {
      assert lo == 0 || lo == 1 || lo == 2 || lo == 3;
    }
  }

  lemma Row19Q1()
    ensures forall lo: bv8 :: 4 <= lo < 8 ==> PairAt(R19, lo) == DaaOut(0x30 | lo, true, false, false)
  {
    forall lo: bv8 | 4 <= lo < 8 ensures PairAt(R19, lo) == DaaOut(0x30 | lo, true, false, false) {
      assert lo == 4 || lo == 5 || lo == 6 || lo == 7;
    }
  }

  lemma Row19Q2()
    ensures forall lo: bv8 :: 8 <= lo < 12 ==> PairAt(R19, lo) == DaaOut(0x30 | lo, true, false, false)
  {
    forall lo: bv8 | 8 <= lo < 12 ensures PairAt(R19, lo) == DaaOut(0x30 | lo, true, false, false) {
      assert lo == 8 || lo == 9 || lo == 10 || lo == 11;
    }
  }

  lemma Row19Q3()
    ensures forall lo: bv8 :: 12 <= lo < 16 ==> PairAt(R19, lo) == DaaOut(0x30 | lo, true, false, false)
  {
    forall lo: bv8 | 12 <= lo < 16 ensures PairAt(R19, lo) == DaaOut(0x30 | lo, true, false, false) {
      assert lo == 12 || lo == 13 || lo == 14 || lo == 15;
    }
  }

  lemma Row20Q0()
    ensures forall lo: bv8 :: lo < 4 ==> PairAt(R20, lo) == DaaOut(0x40 | lo, true, false, false)
  {
    forall lo: bv8 | lo < 4 ensures PairAt(R20, lo) == DaaOut(0x40 | lo, true, false, false) {
      assert lo == 0 || lo == 1 || lo == 2 || lo == 3;
    }
  }

  lemma Row20Q1()
    ensures forall lo: bv8 :: 4 <= lo < 8 ==> PairAt(R20, lo) == DaaOut(0x40 | lo, true, false, false)
  {
    forall lo: bv8 | 4 <= lo < 8 ensures PairAt(R20, lo) == DaaOut(0x40 | lo, true, false, false) {
      assert lo == 4 || lo == 5 || lo == 6 || lo == 7;
    }
  }

  lemma Row20Q2()
    ensures forall lo: bv8 :: 8 <= lo < 12 ==> PairAt(R20, lo) == DaaOut(0x40 | lo, true, false, false)
  {
    forall lo: bv8 | 8 <= lo < 12 ensures PairAt(R20, lo) == DaaOut(0x40 | lo, true, false, false) {
      assert lo == 8 || lo == 9 || lo == 10 || lo == 11;
    }
  }

  lemma Row20Q3()
    ensures forall lo: bv8 :: 12 <= lo < 16 ==> PairAt(R20, lo) == DaaOut(0x40 | lo, true, false, false)
  {
    forall lo: bv8 | 12 <= lo < 16 ensures PairAt(R20, lo) == DaaOut(0x40 | lo, true, false, false) {
      assert lo == 12 || lo == 13 || lo == 14 || lo == 15;
    }
  }

  lemma Row21Q0()
    ensures forall lo: bv8 :: lo < 4 ==> PairAt(R21, lo) == DaaOut(0x50 | lo, true, false, false)
  {
    forall lo: bv8 | lo < 4 ensures PairAt(R21, lo) == DaaOut(0x50 | lo, true, false, false) {
      assert lo == 0 || lo == 1 || lo == 2 || lo == 3;
    }
  }

  lemma Row21Q1()
    ensures forall lo: bv8 :: 4 <= lo < 8 ==> PairAt(R21, lo) == DaaOut(0x50 | lo, true, false, false)
  {
    forall lo: bv8 | 4 <= lo < 8 ensures PairAt(R21, lo) == DaaOut(0x50 | lo, true, false, false) {
      assert lo == 4 || lo == 5 || lo == 6 || lo == 7;
    }
  }

  lemma Row21Q2()
    ensures forall lo: bv8 :: 8 <= lo < 12 ==> PairAt(R21, lo) == DaaOut(0x50 | lo, true, false, false)
  {
    forall lo: bv8 | 8 <= lo < 12 ensures PairAt(R21, lo) == DaaOut(0x50 | lo, true, false, false) {
      assert lo == 8 || lo == 9 || lo == 10 || lo == 11;
    }
  }

  lemma Row21Q3()
    ensures forall lo: bv8 :: 12 <= lo < 16 ==> PairAt(R21, lo) == DaaOut(0x50 | lo, true, false, false)
  {
    forall lo: bv8 | 12 <= lo < 16 ensures PairAt(R21, lo) == DaaOut(0x50 | lo, true, false, false) {
      assert lo == 12 || lo == 13 || lo == 14 || lo == 15;
    }
  }

  lemma Row22Q0()
    ensures forall lo: bv8 :: lo < 4 ==> PairAt(R22, lo) == DaaOut(0x60 | lo, true, false, false)
  {
    forall lo: bv8 | lo < 4 ensures PairAt(R22, lo) == DaaOut(0x60 | lo, true, false, false) {
      assert lo == 0 || lo == 1 || lo == 2 || lo == 3;
    }
  }

  lemma Row22Q1()
    ensures forall lo: bv8 :: 4 <= lo < 8 ==> PairAt(R22, lo) == DaaOut(0x60 | lo, true, false, false)
  {
    forall lo: bv8 | 4 <= lo < 8 ensures PairAt(R22, lo) == DaaOut(0x60 | lo, true, false, false) {
      assert lo == 4 || lo == 5 || lo == 6 || lo == 7;
    }
  }

  lemma Row22Q2()
    ensures forall lo: bv8 :: 8 <= lo < 12 ==> PairAt(R22, lo) == DaaOut(0x60 | lo, true, false, false)
  {
    forall lo: bv8 | 8 <= lo < 12 ensures PairAt(R22, lo) == DaaOut(0x60 | lo, true, false, false) {
      assert lo == 8 || lo == 9 || lo == 10 || lo == 11;
    }
  }

  lemma Row22Q3()
    ensures forall lo: bv8 :: 12 <= lo < 16 ==> PairAt(R22, lo) == DaaOut(0x60 | lo, true, false, false)
  {
    forall lo: bv8 | 12 <= lo < 16 ensures PairAt(R22, lo) == DaaOut(0x60 | lo, true, false, false) {
      assert lo == 12 || lo == 13 || lo == 14 || lo == 15;
    }
  }

  lemma Row23Q0()
    ensures forall lo: bv8 :: lo < 4 ==> PairAt(R23, lo) == DaaOut(0x70 | lo, true, false, false)
  {
    forall lo: bv8 | lo < 4 ensures PairAt(R23, lo) == DaaOut(0x70 | lo, true, false, false) {
      assert lo == 0 || lo == 1 || lo == 2 || lo == 3;
    }
  }

  lemma Row23Q1()
    ensures forall lo: bv8 :: 4 <= lo < 8 ==> PairAt(R23, lo) == DaaOut(0x70 | lo, true, false, false)
  {
    forall lo: bv8 | 4 <= lo < 8 ensures PairAt(R23, lo) == DaaOut(0x70 | lo, true, false, false) {
      assert lo == 4 || lo == 5 || lo == 6 || lo == 7;
    }
  }

  lemma Row23Q2()
    ensures forall lo: bv8 :: 8 <= lo < 12 ==> PairAt(R23, lo) == DaaOut(0x70 | lo, true, false, false)
  {
    forall lo: bv8 | 8 <= lo < 12 ensures PairAt(R23, lo) == DaaOut(0x70 | lo, true, false, false) {
      assert lo == 8 || lo == 9 || lo == 10 || lo == 11;
    }
  }

  lemma Row23Q3()
    ensures forall lo: bv8 :: 12 <= lo < 16 ==> PairAt(R23, lo) == DaaOut(0x70 | lo, true, false, false)
  {
    forall lo: bv8 | 12 <= lo < 16 ensures PairAt(R23, lo) == DaaOut(0x70 | lo, true, false, false) {
      assert lo == 12 || lo == 13 || lo == 14 || lo == 15;
    }
  }

  lemma Row24Q0()
    ensures forall lo: bv8 :: lo < 4 ==> PairAt(R24, lo) == DaaOut(0x80 | lo, true, false, false)
  {
    forall lo: bv8 | lo < 4 ensures PairAt(R24, lo) == DaaOut(0x80 | lo, true, false, false) {
      assert lo == 0 || lo == 1 || lo == 2 || lo == 3;
    }
  }

  lemma Row24Q1()
    ensures forall lo: bv8 :: 4 <= lo < 8 ==> PairAt(R24, lo) == DaaOut(0x80 | lo, true, false, false)
  {
    forall lo: bv8 | 4 <= lo < 8 ensures PairAt(R24, lo) == DaaOut(0x80 | lo, true, false, false) {
      assert lo == 4 || lo == 5 || lo == 6 || lo == 7;
    }
  }

  lemma Row24Q2()
    ensures forall lo: bv8 :: 8 <= lo < 12 ==> PairAt(R24, lo) == DaaOut(0x80 | lo, true, false, false)
  {
    forall lo: bv8 | 8 <= lo < 12 ensures PairAt(R24, lo) == DaaOut(0x80 | lo, true, false, false) {
      assert lo == 8 || lo == 9 || lo == 10 || lo == 11;
    }
  }

  lemma Row24Q3()
    ensures forall lo: bv8 :: 12 <= lo < 16 ==> PairAt(R24, lo) == DaaOut(0x80 | lo, true, false, false)
  {
    forall lo: bv8 | 12 <= lo < 16 ensures PairAt(R24, lo) == DaaOut(0x80 | lo, true, false, false) {
      assert lo == 12 || lo == 13 || lo == 14 || lo == 15;
    }
  }

  lemma Row25Q0()
    ensures forall lo: bv8 :: lo < 4 ==> PairAt(R25, lo) == DaaOut(0x90 | lo, true, false, false)
  {
    forall lo: bv8 | lo < 4 ensures PairAt(R25, lo) == DaaOut(0x90 | lo, true, false, false) {
      assert lo == 0 || lo == 1 || lo == 2 || lo == 3;
    }
  }

  lemma Row25Q1()
    ensures forall lo: bv8 :: 4 <= lo < 8 ==> PairAt(R25, lo) == DaaOut(0x90 | lo, true, false, false)
  {
    forall lo: bv8 | 4 <= lo < 8 ensures PairAt(R25, lo) == DaaOut(0x90 | lo, true, false, false) {
      assert lo == 4 || lo == 5 || lo == 6 || lo == 7;
    }
  }

  lemma Row25Q2()
    ensures forall lo: bv8 :: 8 <= lo < 12 ==> PairAt(R25, lo) == DaaOut(0x90 | lo, true, false, false)
  {
    forall lo: bv8 | 8 <= lo < 12 ensures PairAt(R25, lo) == DaaOut(0x90 | lo, true, false, false) {
      assert lo == 8 || lo == 9 || lo == 10 || lo == 11;
    }
  }

  lemma Row25Q3()
    ensures forall lo: bv8 :: 12 <= lo < 16 ==> PairAt(R25, lo) == DaaOut(0x90 | lo, true, false, false)
  {
    forall lo: bv8 | 12 <= lo < 16 ensures PairAt(R25, lo) == DaaOut(0x90 | lo, true, false, false) {
      assert lo == 12 || lo == 13 || lo == 14 || lo == 15;
    }
  }

  lemma Row26Q0()
    ensures forall lo: bv8 :: lo < 4 ==> PairAt(R26, lo) == DaaOut(0xa0 | lo, true, false, false)
  {
    forall lo: bv8 | lo < 4 ensures PairAt(R26, lo) == DaaOut(0xa0 | lo, true, false, false) {
      assert lo == 0 || lo == 1 || lo == 2 || lo == 3;
    }
  }

  lemma Row26Q1()
    ensures forall lo: bv8 :: 4 <= lo < 8 ==> PairAt(R26, lo) == DaaOut(0xa0 | lo, true, false, false)
  {
    forall lo: bv8 | 4 <= lo < 8 ensures PairAt(R26, lo) == DaaOut(0xa0 | lo, true, false, false) {
      assert lo == 4 || lo == 5 || lo == 6 || lo == 7;
    }
  }

  lemma Row26Q2()
    ensures forall lo: bv8 :: 8 <= lo < 12 ==> PairAt(R26, lo) == DaaOut(0xa0 | lo, true, false, false)
  {
    forall lo: bv8 | 8 <= lo < 12 ensures PairAt(R26, lo) == DaaOut(0xa0 | lo, true, false, false) {
      assert lo == 8 || lo == 9 || lo == 10 || lo == 11;
    }
  }

  lemma Row26Q3()
    ensures forall lo: bv8 :: 12 <= lo < 16 ==> PairAt(R26, lo) == DaaOut(0xa0 | lo, true, false, false)
  {
    forall lo: bv8 | 12 <= lo < 16 ensures PairAt(R26, lo) == DaaOut(0xa0 | lo, true, false, false) {
      assert lo == 12 || lo == 13 || lo == 14 || lo == 15;
    }
  }

  lemma Row27Q0()
    ensures forall lo: bv8 :: lo < 4 ==> PairAt(R27, lo) == DaaOut(0xb0 | lo, true, false, false)
  {
    forall lo: bv8 | lo < 4 ensures PairAt(R27, lo) == DaaOut(0xb0 | lo, true, false, false) {
      assert lo == 0 || lo == 1 || lo == 2 || lo == 3;
    }
  }

  lemma Row27Q1()
    ensures forall lo: bv8 :: 4 <= lo < 8 ==> PairAt(R27, lo) == DaaOut(0xb0 | lo, true, false, false)
  {
    forall lo: bv8 | 4 <= lo < 8 ensures PairAt(R27, lo) == DaaOut(0xb0 | lo, true, false, false) {
      assert lo == 4 || lo == 5 || lo == 6 || lo == 7;
    }
  }

  lemma Row27Q2()
    ensures forall lo: bv8 :: 8 <= lo < 12 ==> PairAt(R27, lo) == DaaOut(0xb0 | lo, true, false, false)
  {
    forall lo: bv8 | 8 <= lo < 12 ensures PairAt(R27, lo) == DaaOut(0xb0 | lo, true, false, false) {
      assert lo == 8 || lo == 9 || lo == 10 || lo == 11;
    }
  }

  lemma Row27Q3()
    ensures forall lo: bv8 :: 12 <= lo < 16 ==> PairAt(R27, lo) == DaaOut(0xb0 | lo, true, false, false)
  {
    forall lo: bv8 | 12 <= lo < 16 ensures PairAt(R27, lo) == DaaOut(0xb0 | lo, true, false, false) {
      assert lo == 12 || lo == 13 || lo == 14 || lo == 15;
    }
  }

  lemma Row28Q0()
    ensures forall lo: bv8 :: lo < 4 ==> PairAt(R28, lo) == DaaOut(0xc0 | lo, true, false, false)
  {
    forall lo: bv8 | lo < 4 ensures PairAt(R28, lo) == DaaOut(0xc0 | lo, true, false, false) {
      assert lo == 0 || lo == 1 || lo == 2 || lo == 3;
    }
  }

  lemma Row28Q1()
    ensures forall lo: bv8 :: 4 <= lo < 8 ==> PairAt(R28, lo) == DaaOut(0xc0 | lo, true, false, false)
  {
    forall lo: bv8 | 4 <= lo < 8 ensures PairAt(R28, lo) == DaaOut(0xc0 | lo, true, false, false) {
      assert lo == 4 || lo == 5 || lo == 6 || lo == 7;
    }
  }

  lemma Row28Q2()
    ensures forall lo: bv8 :: 8 <= lo < 12 ==> PairAt(R28, lo) == DaaOut(0xc0 | lo, true, false, false)
  {
    forall lo: bv8 | 8 <= lo < 12 ensures PairAt(R28, lo) == DaaOut(0xc0 | lo, true, false, false) {
      assert lo == 8 || lo == 9 || lo == 10 || lo == 11;
    }
  }

  lemma Row28Q3()
    ensures forall lo: bv8 :: 12 <= lo < 16 ==> PairAt(R28, lo) == DaaOut(0xc0 | lo, true, false, false)
  {
    forall lo: bv8 | 12 <= lo < 16 ensures PairAt(R28, lo) == DaaOut(0xc0 | lo, true, false, false) {
      assert lo == 12 || lo == 13 || lo == 14 || lo == 15;
    }
  }

  lemma Row29Q0()
    ensures forall lo: bv8 :: lo < 4 ==> PairAt(R29, lo) == DaaOut(0xd0 | lo, true, false, false)
  {
    forall lo: bv8 | lo < 4 ensures PairAt(R29, lo) == DaaOut(0xd0 | lo, true, false, false) {
      assert lo == 0 || lo == 1 || lo == 2 || lo == 3;
    }
  }

  lemma Row29Q1()
    ensures forall lo: bv8 :: 4 <= lo < 8 ==> PairAt(R29, lo) == DaaOut(0xd0 | lo, true, false, false)
  {
    forall lo: bv8 | 4 <= lo < 8 ensures PairAt(R29, lo) == DaaOut(0xd0 | lo, true, false, false) {
      assert lo == 4 || lo == 5 || lo == 6 || lo == 7;
    }
  }

  lemma Row29Q2()
    ensures forall lo: bv8 :: 8 <= lo < 12 ==> PairAt(R29, lo) == DaaOut(0xd0 | lo, true, false, false)
  {
    forall lo: bv8 | 8 <= lo < 12 ensures PairAt(R29, lo) == DaaOut(0xd0 | lo, true, false, false) {
      assert lo == 8 || lo == 9 || lo == 10 || lo == 11;
    }
  }

  lemma Row29Q3()
    ensures forall lo: bv8 :: 12 <= lo < 16 ==> PairAt(R29, lo) == DaaOut(0xd0 | lo, true, false, false)
  {
    forall lo: bv8 | 12 <= lo < 16 ensures PairAt(R29, lo) == DaaOut(0xd0 | lo, true, false, false) {
      assert lo == 12 || lo == 13 || lo == 14 || lo == 15;
    }
  }

  lemma Row30Q0()
    ensures forall lo: bv8 :: lo < 4 ==> PairAt(R30, lo) == DaaOut(0xe0 | lo, true, false, false)
  {
    forall lo: bv8 | lo < 4 ensures PairAt(R30, lo) == DaaOut(0xe0 | lo, true, false, false) {
      assert lo == 0 || lo == 1 || lo == 2 || lo == 3;
    }
  }

  lemma Row30Q1()
    ensures forall lo: bv8 :: 4 <= lo < 8 ==> PairAt(R30, lo) == DaaOut(0xe0 | lo, true, false, false)
  {
    forall lo: bv8 | 4 <= lo < 8 ensures PairAt(R30, lo) == DaaOut(0xe0 | lo, true, false, false) {
      assert lo == 4 || lo == 5 || lo == 6 || lo == 7;
    }
  }

  lemma Row30Q2()
    ensures forall lo: bv8 :: 8 <= lo < 12 ==> PairAt(R30, lo) == DaaOut(0xe0 | lo, true, false, false)
  {
    forall lo: bv8 | 8 <= lo < 12 ensures PairAt(R30, lo) == DaaOut(0xe0 | lo, true, false, false) {
      assert lo == 8 || lo == 9 || lo == 10 || lo == 11;
    }
  }

  lemma Row30Q3()
    ensures forall lo: bv8 :: 12 <= lo < 16 ==> PairAt(R30, lo) == DaaOut(0xe0 | lo, true, false, false)
  {
    forall lo: bv8 | 12 <= lo < 16 ensures PairAt(R30, lo) == DaaOut(0xe0 | lo, true, false, false) {
      assert lo == 12 || lo == 13 || lo == 14 || lo == 15;
    }
  }

  lemma Row31Q0()
    ensures forall lo: bv8 :: lo < 4 ==> PairAt(R31, lo) == DaaOut(0xf0 | lo, true, false, false)
  {
    forall lo: bv8 | lo < 4 ensures PairAt(R31, lo) == DaaOut(0xf0 | lo, true, false, false) {
      assert lo == 0 || lo == 1 || lo == 2 || lo == 3;
    }
  }

  lemma Row31Q1()
    ensures forall lo: bv8 :: 4 <= lo < 8 ==> PairAt(R31, lo) == DaaOut(0xf0 | lo, true, false, false)
  {
    forall lo: bv8 | 4 <= lo < 8 ensures PairAt(R31, lo) == DaaOut(0xf0 | lo, true, false, false) {
      assert lo == 4 || lo == 5 || lo == 6 || lo == 7;
    }
  }

  lemma Row31Q2()
    ensures forall lo: bv8 :: 8 <= lo < 12 ==> PairAt(R31, lo) == DaaOut(0xf0 | lo, true, false, false)
  {
    forall lo: bv8 | 8 <= lo < 12 ensures PairAt(R31, lo) == DaaOut(0xf0 | lo, true, false, false) {
      assert lo == 8 || lo == 9 || lo == 10 || lo == 11;
    }
  }

  lemma Row31Q3()
    ensures forall lo: bv8 :: 12 <= lo < 16 ==> PairAt(R31, lo) == DaaOut(0xf0 | lo, true, false, false)
  {
    forall lo: bv8 | 12 <= lo < 16 ensures PairAt(R31, lo) == DaaOut(0xf0 | lo, true, false, false) {
      assert lo == 12 || lo == 13 || lo == 14 || lo == 15;
    }
  }

  lemma Row32Q0()
    ensures forall lo: bv8 :: lo < 4 ==> PairAt(R32, lo) == DaaOut(0x00 | lo, false, true, false)
  {
    forall lo: bv8 | lo < 4 ensures PairAt(R32, lo) == DaaOut(0x00 | lo, false, true, false) {
      assert lo == 0 || lo == 1 || lo == 2 || lo == 3;
    }
  }

  lemma Row32Q1()
    ensures forall lo: bv8 :: 4 <= lo < 8 ==> PairAt(R32, lo) == DaaOut(0x00 | lo, false, true, false)
  {
    forall lo: bv8 | 4 <= lo < 8 ensures PairAt(R32, lo) == DaaOut(0x00 | lo, false, true, false) {
      assert lo == 4 || lo == 5 || lo == 6 || lo == 7;
    }
  }

  lemma Row32Q2()
    ensures forall lo: bv8 :: 8 <= lo < 12 ==> PairAt(R32, lo) == DaaOut(0x00 | lo, false, true, false)
  {
    forall lo: bv8 | 8 <= lo < 12 ensures PairAt(R32, lo) == DaaOut(0x00 | lo, false, true, false) {
      assert lo == 8 || lo == 9 || lo == 10 || lo == 11;
    }
  }

  lemma Row32Q3()
    ensures forall lo: bv8 :: 12 <= lo < 16 ==> PairAt(R32, lo) == DaaOut(0x00 | lo, false, true, false)
  {
    forall lo: bv8 | 12 <= lo < 16 ensures PairAt(R32, lo) == DaaOut(0x00 | lo, false, true, false) {
      assert lo == 12 || lo == 13 || lo == 14 || lo == 15;
    }
  }

  lemma Row33Q0()
    ensures forall lo: bv8 :: lo < 4 ==> PairAt(R33, lo) == DaaOut(0x10 | lo, false, true, false)
  {
    forall lo: bv8 | lo < 4 ensures PairAt(R33, lo) == DaaOut(0x10 | lo, false, true, false) {
      assert lo == 0 || lo == 1 || lo == 2 || lo == 3;
    }
  }

  lemma Row33Q1()
    ensures forall lo: bv8 :: 4 <= lo < 8 ==> PairAt(R33, lo) == DaaOut(0x10 | lo, false, true, false)
  {
    forall lo: bv8 | 4 <= lo < 8 ensures PairAt(R33, lo) == DaaOut(0x10 | lo, false, true, false) {
      assert lo == 4 || lo == 5 || lo == 6 || lo == 7;
    }
  }

  lemma Row33Q2()
    ensures forall lo: bv8 :: 8 <= lo < 12 ==> PairAt(R33, lo) == DaaOut(0x10 | lo, false, true, false)
  {
    forall lo: bv8 | 8 <= lo < 12 ensures PairAt(R33, lo) == DaaOut(0x10 | lo, false, true, false) {
      assert lo == 8 || lo == 9 || lo == 10 || lo == 11;
    }
  }

  lemma Row33Q3()
    ensures forall lo: bv8 :: 12 <= lo < 16 ==> PairAt(R33, lo) == DaaOut(0x10 | lo, false, true, false)
  {
    forall lo: bv8 | 12 <= lo < 16 ensures PairAt(R33, lo) == DaaOut(0x10 | lo, false, true, false) {
      assert lo == 12 || lo == 13 || lo == 14 || lo == 15;
    }
  }

  lemma Row34Q0()
    ensures forall lo: bv8 :: lo < 4 ==> PairAt(R34, lo) == DaaOut(0x20 | lo, false, true, false)
  {
    forall lo: bv8 | lo < 4 ensures PairAt(R34, lo) == DaaOut(0x20 | lo, false, true, false) {
      assert lo == 0 || lo == 1 || lo == 2 || lo == 3;
    }
  }

  lemma Row34Q1()
    ensures forall lo: bv8 :: 4 <= lo < 8 ==> PairAt(R34, lo) == DaaOut(0x20 | lo, false, true, false)
  {
    forall lo: bv8 | 4 <= lo < 8 ensures PairAt(R34, lo) == DaaOut(0x20 | lo, false, true, false) {
      assert lo == 4 || lo == 5 || lo == 6 || lo == 7;
    }
  }

  lemma Row34Q2()
    ensures forall lo: bv8 :: 8 <= lo < 12 ==> PairAt(R34, lo) == DaaOut(0x20 | lo, false, true, false)
  {
    forall lo: bv8 | 8 <= lo < 12 ensures PairAt(R34, lo) == DaaOut(0x20 | lo, false, true, false) {
      assert lo == 8 || lo == 9 || lo == 10 || lo == 11;
    }
  }

  lemma Row34Q3()
    ensures forall lo: bv8 :: 12 <= lo < 16 ==> PairAt(R34, lo) == DaaOut(0x20 | lo, false, true, false)
  {
    forall lo: bv8 | 12 <= lo < 16 ensures PairAt(R34, lo) == DaaOut(0x20 | lo, false, true, false) {
      assert lo == 12 || lo == 13 || lo == 14 || lo == 15;
    }
  }

  lemma Row35Q0()
    ensures forall lo: bv8 :: lo < 4 ==> PairAt(R35, lo) == DaaOut(0x30 | lo, false, true, false)
  {
    forall lo: bv8 | lo < 4 ensures PairAt(R35, lo) == DaaOut(0x30 | lo, false, true, false) {
      assert lo == 0 || lo == 1 || lo == 2 || lo == 3;
    }
  }

  lemma Row35Q1()
    ensures forall lo: bv8 :: 4 <= lo < 8 ==> PairAt(R35, lo) == DaaOut(0x30 | lo, false, true, false)
  {
    forall lo: bv8 | 4 <= lo < 8 ensures PairAt(R35, lo) == DaaOut(0x30 | lo, false, true, false) {
      assert lo == 4 || lo == 5 || lo == 6 || lo == 7;
    }
  }

  lemma Row35Q2()
    ensures forall lo: bv8 :: 8 <= lo < 12 ==> PairAt(R35, lo) == DaaOut(0x30 | lo, false, true, false)
  {
    forall lo: bv8 | 8 <= lo < 12 ensures PairAt(R35, lo) == DaaOut(0x30 | lo, false, true, false) {
      assert lo == 8 || lo == 9 || lo == 10 || lo == 11;
    }
  }

  lemma Row35Q3()
    ensures forall lo: bv8 :: 12 <= lo < 16 ==> PairAt(R35, lo) == DaaOut(0x30 | lo, false, true, false)
  {
    forall lo: bv8 | 12 <= lo < 16 ensures PairAt(R35, lo) == DaaOut(0x30 | lo, false, true, false) {
      assert lo == 12 || lo == 13 || lo == 14 || lo == 15;
    }
  }

  lemma Row36Q0()
    ensures forall lo: bv8 :: lo < 4 ==> PairAt(R36, lo) == DaaOut(0x40 | lo, false, true, false)
  {
    forall lo: bv8 | lo < 4 ensures PairAt(R36, lo) == DaaOut(0x40 | lo, false, true, false) {
      assert lo == 0 || lo == 1 || lo == 2 || lo == 3;
    }
  }

  lemma Row36Q1()
    ensures forall lo: bv8 :: 4 <= lo < 8 ==> PairAt(R36, lo) == DaaOut(0x40 | lo, false, true, false)
  {
    forall lo: bv8 | 4 <= lo < 8 ensures PairAt(R36, lo) == DaaOut(0x40 | lo, false, true, false) {
      assert lo == 4 || lo == 5 || lo == 6 || lo == 7;
    }
  }

  lemma Row36Q2()
    ensures forall lo: bv8 :: 8 <= lo < 12 ==> PairAt(R36, lo) == DaaOut(0x40 | lo, false, true, false)
  {
    forall lo: bv8 | 8 <= lo < 12 ensures PairAt(R36, lo) == DaaOut(0x40 | lo, false, true, false) {
      assert lo == 8 || lo == 9 || lo == 10 || lo == 11;
    }
  }

  lemma Row36Q3()
    ensures forall lo: bv8 :: 12 <= lo < 16 ==> PairAt(R36, lo) == DaaOut(0x40 | lo, false, true, false)
  {
    forall lo: bv8 | 12 <= lo < 16 ensures PairAt(R36, lo) == DaaOut(0x40 | lo, false, true, false) {
      assert lo == 12 || lo == 13 || lo == 14 || lo == 15;
    }
  }

  lemma Row37Q0()
    ensures forall lo: bv8 :: lo < 4 ==> PairAt(R37, lo) == DaaOut(0x50 | lo, false, true, false)
  {
    forall lo: bv8 | lo < 4 ensures PairAt(R37, lo) == DaaOut(0x50 | lo, false, true, false) {
      assert lo == 0 || lo == 1 || lo == 2 || lo == 3;
    }
  }

  lemma Row37Q1()
    ensures forall lo: bv8 :: 4 <= lo < 8 ==> PairAt(R37, lo) == DaaOut(0x50 | lo, false, true, false)
  {
    forall lo: bv8 | 4 <= lo < 8 ensures PairAt(R37, lo) == DaaOut(0x50 | lo, false, true, false) {
      assert lo == 4 || lo == 5 || lo == 6 || lo == 7;
    }
  }

  lemma Row37Q2()
    ensures forall lo: bv8 :: 8 <= lo < 12 ==> PairAt(R37, lo) == DaaOut(0x50 | lo, false, true, false)
  {
    forall lo: bv8 | 8 <= lo < 12 ensures PairAt(R37, lo) == DaaOut(0x50 | lo, false, true, false) {
      assert lo == 8 || lo == 9 || lo == 10 || lo == 11;
    }
  }

  lemma Row37Q3()
    ensures forall lo: bv8 :: 12 <= lo < 16 ==> PairAt(R37, lo) == DaaOut(0x50 | lo, false, true, false)
  {
    forall lo: bv8 | 12 <= lo < 16 ensures PairAt(R37, lo) == DaaOut(0x50 | lo, false, true, false) {
      assert lo == 12 || lo == 13 || lo == 14 || lo == 15;
    }
  }

  lemma Row38Q0()
    ensures forall lo: bv8 :: lo < 4 ==> PairAt(R38, lo) == DaaOut(0x60 | lo, false, true, false)
  {
    forall lo: bv8 | lo < 4 ensures PairAt(R38, lo) == DaaOut(0x60 | lo, false, true, false) {
      assert lo == 0 || lo == 1 || lo == 2 || lo == 3;
    }
  }

  lemma Row38Q1()
    ensures forall lo: bv8 :: 4 <= lo < 8 ==> PairAt(R38, lo) == DaaOut(0x60 | lo, false, true, false)
  {
    forall lo: bv8 | 4 <= lo < 8 ensures PairAt(R38, lo) == DaaOut(0x60 | lo, false, true, false) {
      assert lo == 4 || lo == 5 || lo == 6 || lo == 7;
    }
  }

  lemma Row38Q2()
    ensures forall lo: bv8 :: 8 <= lo < 12 ==> PairAt(R38, lo) == DaaOut(0x60 | lo, false, true, false)
  {
    forall lo: bv8 | 8 <= lo < 12 ensures PairAt(R38, lo) == DaaOut(0x60 | lo, false, true, false) {
      assert lo == 8 || lo == 9 || lo == 10 || lo == 11;
    }
  }

  lemma Row38Q3()
    ensures forall lo: bv8 :: 12 <= lo < 16 ==> PairAt(R38, lo) == DaaOut(0x60 | lo, false, true, false)
  {
    forall lo: bv8 | 12 <= lo < 16 ensures PairAt(R38, lo) == DaaOut(0x60 | lo, false, true, false) {
      assert lo == 12 || lo == 13 || lo == 14 || lo == 15;
    }
  }

  lemma Row39Q0()
    ensures forall lo: bv8 :: lo < 4 ==> PairAt(R39, lo) == DaaOut(0x70 | lo, false, true, false)
  {
    forall lo: bv8 | lo < 4 ensures PairAt(R39, lo) == DaaOut(0x70 | lo, false, true, false) {
      assert lo == 0 || lo == 1 || lo == 2 || lo == 3;
    }
  }

  lemma Row39Q1()
    ensures forall lo: bv8 :: 4 <= lo < 8 ==> PairAt(R39, lo) == DaaOut(0x70 | lo, false, true, false)
  {
    forall lo: bv8 | 4 <= lo < 8 ensures PairAt(R39, lo) == DaaOut(0x70 | lo, false, true, false) {
      assert lo == 4 || lo == 5 || lo == 6 || lo == 7;
    }
  }

  lemma Row39Q2()
    ensures forall lo: bv8 :: 8 <= lo < 12 ==> PairAt(R39, lo) == DaaOut(0x70 | lo, false, true, false)
  {
    forall lo: bv8 | 8 <= lo < 12 ensures PairAt(R39, lo) == DaaOut(0x70 | lo, false, true, false) {
      assert lo == 8 || lo == 9 || lo == 10 || lo == 11;
    }
  }

  lemma Row39Q3()
    ensures forall lo: bv8 :: 12 <= lo < 16 ==> PairAt(R39, lo) == DaaOut(0x70 | lo, false, true, false)
  {
    forall lo: bv8 | 12 <= lo < 16 ensures PairAt(R39, lo) == DaaOut(0x70 | lo, false, true, false) {
      assert lo == 12 || lo == 13 || lo == 14 || lo == 15;
    }
  }

  lemma Row40Q0()
    ensures forall lo: bv8 :: lo < 4 ==> PairAt(R40, lo) == DaaOut(0x80 | lo, false, true, false)
  {
    forall lo: bv8 | lo < 4 ensures PairAt(R40, lo) == DaaOut(0x80 | lo, false, true, false) {
      assert lo == 0 || lo == 1 || lo == 2 || lo == 3;
    }
  }

  lemma Row40Q1()
    ensures forall lo: bv8 :: 4 <= lo < 8 ==> PairAt(R40, lo) == DaaOut(0x80 | lo, false, true, false)
  {
    forall lo: bv8 | 4 <= lo < 8 ensures PairAt(R40, lo) == DaaOut(0x80 | lo, false, true, false) {
      assert lo == 4 || lo == 5 || lo == 6 || lo == 7;
    }
  }

  lemma Row40Q2()
    ensures forall lo: bv8 :: 8 <= lo < 12 ==> PairAt(R40, lo) == DaaOut(0x80 | lo, false, true, false)
  {
    forall lo: bv8 | 8 <= lo < 12 ensures PairAt(R40, lo) == DaaOut(0x80 | lo, false, true, false) {
      assert lo == 8 || lo == 9 || lo == 10 || lo == 11;
    }
  }

  lemma Row40Q3()
    ensures forall lo: bv8 :: 12 <= lo < 16 ==> PairAt(R40, lo) == DaaOut(0x80 | lo, false, true, false)
  {
    forall lo: bv8 | 12 <= lo < 16 ensures PairAt(R40, lo) == DaaOut(0x80 | lo, false, true, false) {
      assert lo == 12 || lo == 13 || lo == 14 || lo == 15;
    }
  }

  lemma Row41Q0()
    ensures forall lo: bv8 :: lo < 4 ==> PairAt(R41, lo) == DaaOut(0x90 | lo, false, true, false)
  {
    forall lo: bv8 | lo < 4 ensures PairAt(R41, lo) == DaaOut(0x90 | lo, false, true, false) {
      assert lo == 0 || lo == 1 || lo == 2 || lo == 3;
    }
  }

  lemma Row41Q1()
    ensures forall lo: bv8 :: 4 <= lo < 8 ==> PairAt(R41, lo) == DaaOut(0x90 | lo, false, true, false)
  {
    forall lo: bv8 | 4 <= lo < 8 ensures PairAt(R41, lo) == DaaOut(0x90 | lo, false, true, false) {
      assert lo == 4 || lo == 5 || lo == 6 || lo == 7;
    }
  }

  lemma Row41Q2()
    ensures forall lo: bv8 :: 8 <= lo < 12 ==> PairAt(R41, lo) == DaaOut(0x90 | lo, false, true, false)
  {
    forall lo: bv8 | 8 <= lo < 12 ensures PairAt(R41, lo) == DaaOut(0x90 | lo, false, true, false) {
      assert lo == 8 || lo == 9 || lo == 10 || lo == 11;
    }
  }

  lemma Row41Q3()
    ensures forall lo: bv8 :: 12 <= lo < 16 ==> PairAt(R41, lo) == DaaOut(0x90 | lo, false, true, false)
  {
    forall lo: bv8 | 12 <= lo < 16 ensures PairAt(R41, lo) == DaaOut(0x90 | lo, false, true, false) {
      assert lo == 12 || lo == 13 || lo == 14 || lo == 15;
    }
  }

  lemma Row42Q0()
    ensures forall lo: bv8 :: lo < 4 ==> PairAt(R42, lo) == DaaOut(0xa0 | lo, false, true, false)
  {
    forall lo: bv8 | lo < 4 ensures PairAt(R42, lo) == DaaOut(0xa0 | lo, false, true, false) {
      assert lo == 0 || lo == 1 || lo == 2 || lo == 3;
    }
  }

  lemma Row42Q1()
    ensures forall lo: bv8 :: 4 <= lo < 8 ==> PairAt(R42, lo) == DaaOut(0xa0 | lo, false, true, false)
  {
    forall lo: bv8 | 4 <= lo < 8 ensures PairAt(R42, lo) == DaaOut(0xa0 | lo, false, true, false) {
      assert lo == 4 || lo == 5 || lo == 6 || lo == 7;
    }
  }

  lemma Row42Q2()
    ensures forall lo: bv8 :: 8 <= lo < 12 ==> PairAt(R42, lo) == DaaOut(0xa0 | lo, false, true, false)
  {
    forall lo: bv8 | 8 <= lo < 12 ensures PairAt(R42, lo) == DaaOut(0xa0 | lo, false, true, false) {
      assert lo == 8 || lo == 9 || lo == 10 || lo == 11;
    }
  }

  lemma Row42Q3()
    ensures forall lo: bv8 :: 12 <= lo < 16 ==> PairAt(R42, lo) == DaaOut(0xa0 | lo, false, true, false)
  {
    forall lo: bv8 | 12 <= lo < 16 ensures PairAt(R42, lo) == DaaOut(0xa0 | lo, false, true, false) {
      assert lo == 12 || lo == 13 || lo == 14 || lo == 15;
    }
  }

  lemma Row43Q0()
    ensures forall lo: bv8 :: lo < 4 ==> PairAt(R43, lo) == DaaOut(0xb0 | lo, false, true, false)
  {
    forall lo: bv8 | lo < 4 ensures PairAt(R43, lo) == DaaOut(0xb0 | lo, false, true, false) {
      assert lo == 0 || lo == 1 || lo == 2 || lo == 3;
    }
  }

  lemma Row43Q1()
    ensures forall lo: bv8 :: 4 <= lo < 8 ==> PairAt(R43, lo) == DaaOut(0xb0 | lo, false, true, false)
  {
    forall lo: bv8 | 4 <= lo < 8 ensures PairAt(R43, lo) == DaaOut(0xb0 | lo, false, true, false) {
      assert lo == 4 || lo == 5 || lo == 6 || lo == 7;
    }
  }

  lemma Row43Q2()
    ensures forall lo: bv8 :: 8 <= lo < 12 ==> PairAt(R43, lo) == DaaOut(0xb0 | lo, false, true, false)
  {
    forall lo: bv8 | 8 <= lo < 12 ensures PairAt(R43, lo) == DaaOut(0xb0 | lo, false, true, false) {
      assert lo == 8 || lo == 9 || lo == 10 || lo == 11;
    }
  }

  lemma Row43Q3()
    ensures forall lo: bv8 :: 12 <= lo < 16 ==> PairAt(R43, lo) == DaaOut(0xb0 | lo, false, true, false)
  {
    forall lo: bv8 | 12 <= lo < 16 ensures PairAt(R43, lo) == DaaOut(0xb0 | lo, false, true, false) {
      assert lo == 12 || lo == 13 || lo == 14 || lo == 15;
    }
  }

  lemma Row44Q0()
    ensures forall lo: bv8 :: lo < 4 ==> PairAt(R44, lo) == DaaOut(0xc0 | lo, false, true, false)
  {
    forall lo: bv8 | lo < 4 ensures PairAt(R44, lo) == DaaOut(0xc0 | lo, false, true, false) {
      assert lo == 0 || lo == 1 || lo == 2 || lo == 3;
    }
  }

  lemma Row44Q1()
    ensures forall lo: bv8 :: 4 <= lo < 8 ==> PairAt(R44, lo) == DaaOut(0xc0 | lo, false, true, false)
  {
    forall lo: bv8 | 4 <= lo < 8 ensures PairAt(R44, lo) == DaaOut(0xc0 | lo, false, true, false) {
      assert lo == 4 || lo == 5 || lo == 6 || lo == 7;
    }
  }

  lemma Row44Q2()
    ensures forall lo: bv8 :: 8 <= lo < 12 ==> PairAt(R44, lo) == DaaOut(0xc0 | lo, false, true, false)
  {
    forall lo: bv8 | 8 <= lo < 12 ensures PairAt(R44, lo) == DaaOut(0xc0 | lo, false, true, false) {
      assert lo == 8 || lo == 9 || lo == 10 || lo == 11;
    }
  }

  lemma Row44Q3()
    ensures forall lo: bv8 :: 12 <= lo < 16 ==> PairAt(R44, lo) == DaaOut(0xc0 | lo, false, true, false)
  {
    forall lo: bv8 | 12 <= lo < 16 ensures PairAt(R44, lo) == DaaOut(0xc0 | lo, false, true, false) {
      assert lo == 12 || lo == 13 || lo == 14 || lo == 15;
    }
  }

  lemma Row45Q0()
    ensures forall lo: bv8 :: lo < 4 ==> PairAt(R45, lo) == DaaOut(0xd0 | lo, false, true, false)
  {
    forall lo: bv8 | lo < 4 ensures PairAt(R45, lo) == DaaOut(0xd0 | lo, false, true, false) {
      assert lo == 0 || lo == 1 || lo == 2 || lo == 3;
    }
  }

  lemma Row45Q1()
    ensures forall lo: bv8 :: 4 <= lo < 8 ==> PairAt(R45, lo) == DaaOut(0xd0 | lo, false, true, false)
  {
    forall lo: bv8 | 4 <= lo < 8 ensures PairAt(R45, lo) == DaaOut(0xd0 | lo, false, true, false) {
      assert lo == 4 || lo == 5 || lo == 6 || lo == 7;
    }
  }

  lemma Row45Q2()
    ensures forall lo: bv8 :: 8 <= lo < 12 ==> PairAt(R45, lo) == DaaOut(0xd0 | lo, false, true, false)
  {
    forall lo: bv8 | 8 <= lo < 12 ensures PairAt(R45, lo) == DaaOut(0xd0 | lo, false, true, false) {
      assert lo == 8 || lo == 9 || lo == 10 || lo == 11;
    }
  }

  lemma Row45Q3()
    ensures forall lo: bv8 :: 12 <= lo < 16 ==> PairAt(R45, lo) == DaaOut(0xd0 | lo, false, true, false)
  {
    forall lo: bv8 | 12 <= lo < 16 ensures PairAt(R45, lo) == DaaOut(0xd0 | lo, false, true, false) {
      assert lo == 12 || lo == 13 || lo == 14 || lo == 15;
    }
  }

  lemma Row46Q0()
    ensures forall lo: bv8 :: lo < 4 ==> PairAt(R46, lo) == DaaOut(0xe0 | lo, false, true, false)
  {
    forall lo: bv8 | lo < 4 ensures PairAt(R46, lo) == DaaOut(0xe0 | lo, false, true, false) {
      assert lo == 0 || lo == 1 || lo == 2 || lo == 3;
    }
  }

  lemma Row46Q1()
    ensures forall lo: bv8 :: 4 <= lo < 8 ==> PairAt(R46, lo) == DaaOut(0xe0 | lo, false, true, false)
  {
    forall lo: bv8 | 4 <= lo < 8 ensures PairAt(R46, lo) == DaaOut(0xe0 | lo, false, true, false) {
      assert lo == 4 || lo == 5 || lo == 6 || lo == 7;
    }
  }

  lemma Row46Q2()
    ensures forall lo: bv8 :: 8 <= lo < 12 ==> PairAt(R46, lo) == DaaOut(0xe0 | lo, false, true, false)
  {
    forall lo: bv8 | 8 <= lo < 12 ensures PairAt(R46, lo) == DaaOut(0xe0 | lo, false, true, false) {
      assert lo == 8 || lo == 9 || lo == 10 || lo == 11;
    }
  }

  lemma Row46Q3()
    ensures forall lo: bv8 :: 12 <= lo < 16 ==> PairAt(R46, lo) == DaaOut(0xe0 | lo, false, true, false)
  {
    forall lo: bv8 | 12 <= lo < 16 ensures PairAt(R46, lo) == DaaOut(0xe0 | lo, false, true, false) {
      assert lo == 12 || lo == 13 || lo == 14 || lo == 15;
    }
  }

  lemma Row47Q0()
    ensures forall lo: bv8 :: lo < 4 ==> PairAt(R47, lo) == DaaOut(0xf0 | lo, false, true, false)
  {
    forall lo: bv8 | lo < 4 ensures PairAt(R47, lo) == DaaOut(0xf0 | lo, false, true, false) {
      assert lo == 0 || lo == 1 || lo == 2 || lo == 3;
    }
  }

  lemma Row47Q1()
    ensures forall lo: bv8 :: 4 <= lo < 8 ==> PairAt(R47, lo) == DaaOut(0xf0 | lo, false, true, false)
  {
    forall lo: bv8 | 4 <= lo < 8 ensures PairAt(R47, lo) == DaaOut(0xf0 | lo, false, true, false) {
      assert lo == 4 || lo == 5 || lo == 6 || lo == 7;
    }
  }

  lemma Row47Q2()
    ensures forall lo: bv8 :: 8 <= lo < 12 ==> PairAt(R47, lo) == DaaOut(0xf0 | lo, false, true, false)
  {
    forall lo: bv8 | 8 <= lo < 12 ensures PairAt(R47, lo) == DaaOut(0xf0 | lo, false, true, false) {
      assert lo == 8 || lo == 9 || lo == 10 || lo == 11;
    }
  }

  lemma Row47Q3()
    ensures forall lo: bv8 :: 12 <= lo < 16 ==> PairAt(R47, lo) == DaaOut(0xf0 | lo, false, true, false)
  {
    forall lo: bv8 | 12 <= lo < 16 ensures PairAt(R47, lo) == DaaOut(0xf0 | lo, false, true, false) {
      assert lo == 12 || lo == 13 || lo == 14 || lo == 15;
    }
  }

  lemma Row48Q0()
    ensures forall lo: bv8 :: lo < 4 ==> PairAt(R48, lo) == DaaOut(0x00 | lo, true, true, false)
  {
    forall lo: bv8 | lo < 4 ensures PairAt(R48, lo) == DaaOut(0x00 | lo, true, true, false) {
      assert lo == 0 || lo == 1 || lo == 2 || lo == 3;
    }
  }

  lemma Row48Q1()
    ensures forall lo: bv8 :: 4 <= lo < 8 ==> PairAt(R48, lo) == DaaOut(0x00 | lo, true, true, false)
  {
    forall lo: bv8 | 4 <= lo < 8 ensures PairAt(R48, lo) == DaaOut(0x00 | lo, true, true, false) {
      assert lo == 4 || lo == 5 || lo == 6 || lo == 7;
    }
  }

  lemma Row48Q2()
    ensures forall lo: bv8 :: 8 <= lo < 12 ==> PairAt(R48, lo) == DaaOut(0x00 | lo, true, true, false)
  {
    forall lo: bv8 | 8 <= lo < 12 ensures PairAt(R48, lo) == DaaOut(0x00 | lo, true, true, false) {
      assert lo == 8 || lo == 9 || lo == 10 || lo == 11;
    }
  }

  lemma Row48Q3()
    ensures forall lo: bv8 :: 12 <= lo < 16 ==> PairAt(R48, lo) == DaaOut(0x00 | lo, true, true, false)
  {
    forall lo: bv8 | 12 <= lo < 16 ensures PairAt(R48, lo) == DaaOut(0x00 | lo, true, true, false) {
      assert lo == 12 || lo == 13 || lo == 14 || lo == 15;
    }
  }

  lemma Row49Q0()
    ensures forall lo: bv8 :: lo < 4 ==> PairAt(R49, lo) == DaaOut(0x10 | lo, true, true, false)
  {
    forall lo: bv8 | lo < 4 ensures PairAt(R49, lo) == DaaOut(0x10 | lo, true, true, false) {
      assert lo == 0 || lo == 1 || lo == 2 || lo == 3;
    }
  }

  lemma Row49Q1()
    ensures forall lo: bv8 :: 4 <= lo < 8 ==> PairAt(R49, lo) == DaaOut(0x10 | lo, true, true, false)
  {
    forall lo: bv8 | 4 <= lo < 8 ensures PairAt(R49, lo) == DaaOut(0x10 | lo, true, true, false) {
      assert lo == 4 || lo == 5 || lo == 6 || lo == 7;
    }
  }

  lemma Row49Q2()
    ensures forall lo: bv8 :: 8 <= lo < 12 ==> PairAt(R49, lo) == DaaOut(0x10 | lo, true, true, false)
  {
    forall lo: bv8 | 8 <= lo < 12 ensures PairAt(R49, lo) == DaaOut(0x10 | lo, true, true, false) {
      assert lo == 8 || lo == 9 || lo == 10 || lo == 11;
    }
  }

  lemma Row49Q3()
    ensures forall lo: bv8 :: 12 <= lo < 16 ==> PairAt(R49, lo) == DaaOut(0x10 | lo, true, true, false)
  {
    forall lo: bv8 | 12 <= lo < 16 ensures PairAt(R49, lo) == DaaOut(0x10 | lo, true, true, false) {
      assert lo == 12 || lo == 13 || lo == 14 || lo == 15;
    }
  }

  lemma Row50Q0()
    ensures forall lo: bv8 :: lo < 4 ==> PairAt(R50, lo) == DaaOut(0x20 | lo, true, true, false)
  {
    forall lo: bv8 | lo < 4 ensures PairAt(R50, lo) == DaaOut(0x20 | lo, true, true, false) {
      assert lo == 0 || lo == 1 || lo == 2 || lo == 3;
    }
  }

  lemma Row50Q1()
    ensures forall lo: bv8 :: 4 <= lo < 8 ==> PairAt(R50, lo) == DaaOut(0x20 | lo, true, true, false)
  {
    forall lo: bv8 | 4 <= lo < 8 ensures PairAt(R50, lo) == DaaOut(0x20 | lo, true, true, false) {
      assert lo == 4 || lo == 5 || lo == 6 || lo == 7;
    }
  }

  lemma Row50Q2()
    ensures forall lo: bv8 :: 8 <= lo < 12 ==> PairAt(R50, lo) == DaaOut(0x20 | lo, true, true, false)
  {
    forall lo: bv8 | 8 <= lo < 12 ensures PairAt(R50, lo) == DaaOut(0x20 | lo, true, true, false) {
      assert lo == 8 || lo == 9 || lo == 10 || lo == 11;
    }
  }

  lemma Row50Q3()
    ensures forall lo: bv8 :: 12 <= lo < 16 ==> PairAt(R50, lo) == DaaOut(0x20 | lo, true, true, false)
  {
    forall lo: bv8 | 12 <= lo < 16 ensures PairAt(R50, lo) == DaaOut(0x20 | lo, true, true, false) {
      assert lo == 12 || lo == 13 || lo == 14 || lo == 15;
    }
  }

  lemma Row51Q0()
    ensures forall lo: bv8 :: lo < 4 ==> PairAt(R51, lo) == DaaOut(0x30 | lo, true, true, false)
  {
    forall lo: bv8 | lo < 4 ensures PairAt(R51, lo) == DaaOut(0x30 | lo, true, true, false) {
      assert lo == 0 || lo == 1 || lo == 2 || lo == 3;
    }
  }

  lemma Row51Q1()
    ensures forall lo: bv8 :: 4 <= lo < 8 ==> PairAt(R51, lo) == DaaOut(0x30 | lo, true, true, false)
  {
    forall lo: bv8 | 4 <= lo < 8 ensures PairAt(R51, lo) == DaaOut(0x30 | lo, true, true, false) {
      assert lo == 4 || lo == 5 || lo == 6 || lo == 7;
    }
  }

  lemma Row51Q2()
    ensures forall lo: bv8 :: 8 <= lo < 12 ==> PairAt(R51, lo) == DaaOut(0x30 | lo, true, true, false)
  {
    forall lo: bv8 | 8 <= lo < 12 ensures PairAt(R51, lo) == DaaOut(0x30 | lo, true, true, false) {
      assert lo == 8 || lo == 9 || lo == 10 || lo == 11;
    }
  }

  lemma Row51Q3()
    ensures forall lo: bv8 :: 12 <= lo < 16 ==> PairAt(R51, lo) == DaaOut(0x30 | lo, true, true, false)
  {
    forall lo: bv8 | 12 <= lo < 16 ensures PairAt(R51, lo) == DaaOut(0x30 | lo, true, true, false) {
      assert lo == 12 || lo == 13 || lo == 14 || lo == 15;
    }
  }

  lemma Row52Q0()
    ensures forall lo: bv8 :: lo < 4 ==> PairAt(R52, lo) == DaaOut(0x40 | lo, true, true, false)
  {
    forall lo: bv8 | lo < 4 ensures PairAt(R52, lo) == DaaOut(0x40 | lo, true, true, false) {
      assert lo == 0 || lo == 1 || lo == 2 || lo == 3;
    }
  }

  lemma Row52Q1()
    ensures forall lo: bv8 :: 4 <= lo < 8 ==> PairAt(R52, lo) == DaaOut(0x40 | lo, true, true, false)
  {
    forall lo: bv8 | 4 <= lo < 8 ensures PairAt(R52, lo) == DaaOut(0x40 | lo, true, true, false) {
      assert lo == 4 || lo == 5 || lo == 6 || lo == 7;
    }
  }

  lemma Row52Q2()
    ensures forall lo: bv8 :: 8 <= lo < 12 ==> PairAt(R52, lo) == DaaOut(0x40 | lo, true, true, false)
  {
    forall lo: bv8 | 8 <= lo < 12 ensures PairAt(R52, lo) == DaaOut(0x40 | lo, true, true, false) {
      assert lo == 8 || lo == 9 || lo == 10 || lo == 11;
    }
  }

  lemma Row52Q3()
    ensures forall lo: bv8 :: 12 <= lo < 16 ==> PairAt(R52, lo) == DaaOut(0x40 | lo, true, true, false)
  {
    forall lo: bv8 | 12 <= lo < 16 ensures PairAt(R52, lo) == DaaOut(0x40 | lo, true, true, false) {
      assert lo == 12 || lo == 13 || lo == 14 || lo == 15;
    }
  }

  lemma Row53Q0()
    ensures forall lo: bv8 :: lo < 4 ==> PairAt(R53, lo) == DaaOut(0x50 | lo, true, true, false)
  {
    forall lo: bv8 | lo < 4 ensures PairAt(R53, lo) == DaaOut(0x50 | lo, true, true, false) {
      assert lo == 0 || lo == 1 || lo == 2 || lo == 3;
    }
  }

  lemma Row53Q1()
    ensures forall lo: bv8 :: 4 <= lo < 8 ==> PairAt(R53, lo) == DaaOut(0x50 | lo, true, true, false)
  {
    forall lo: bv8 | 4 <= lo < 8 ensures PairAt(R53, lo) == DaaOut(0x50 | lo, true, true, false) {
      assert lo == 4 || lo == 5 || lo == 6 || lo == 7;
    }
  }

  lemma Row53Q2()
    ensures forall lo: bv8 :: 8 <= lo < 12 ==> PairAt(R53, lo) == DaaOut(0x50 | lo, true, true, false)
  {
    forall lo: bv8 | 8 <= lo < 12 ensures PairAt(R53, lo) == DaaOut(0x50 | lo, true, true, false) {
      assert lo == 8 || lo == 9 || lo == 10 || lo == 11;
    }
  }

  lemma Row53Q3()
    ensures forall lo: bv8 :: 12 <= lo < 16 ==> PairAt(R53, lo) == DaaOut(0x50 | lo, true, true, false)
  {
    forall lo: bv8 | 12 <= lo < 16 ensures PairAt(R53, lo) == DaaOut(0x50 | lo, true, true, false) {
      assert lo == 12 || lo == 13 || lo == 14 || lo == 15;
    }
  }

  lemma Row54Q0()
    ensures forall lo: bv8 :: lo < 4 ==> PairAt(R54, lo) == DaaOut(0x60 | lo, true, true, false)
  {
    forall lo: bv8 | lo < 4 ensures PairAt(R54, lo) == DaaOut(0x60 | lo, true, true, false) {
      assert lo == 0 || lo == 1 || lo == 2 || lo == 3;
    }
  }

  lemma Row54Q1()
    ensures forall lo: bv8 :: 4 <= lo < 8 ==> PairAt(R54, lo) == DaaOut(0x60 | lo, true, true, false)
  {
    forall lo: bv8 | 4 <= lo < 8 ensures PairAt(R54, lo) == DaaOut(0x60 | lo, true, true, false) {
      assert lo == 4 || lo == 5 || lo == 6 || lo == 7;
    }
  }

  lemma Row54Q2()
    ensures forall lo: bv8 :: 8 <= lo < 12 ==> PairAt(R54, lo) == DaaOut(0x60 | lo, true, true, false)
  {
    forall lo: bv8 | 8 <= lo < 12 ensures PairAt(R54, lo) == DaaOut(0x60 | lo, true, true, false) {
      assert lo == 8 || lo == 9 || lo == 10 || lo == 11;
    }
  }

  lemma Row54Q3()
    ensures forall lo: bv8 :: 12 <= lo < 16 ==> PairAt(R54, lo) == DaaOut(0x60 | lo, true, true, false)
  {
    forall lo: bv8 | 12 <= lo < 16 ensures PairAt(R54, lo) == DaaOut(0x60 | lo, true, true, false) {
      assert lo == 12 || lo == 13 || lo == 14 || lo == 15;
    }
  }

  lemma Row55Q0()
    ensures forall lo: bv8 :: lo < 4 ==> PairAt(R55, lo) == DaaOut(0x70 | lo, true, true, false)
  {
    forall lo: bv8 | lo < 4 ensures PairAt(R55, lo) == DaaOut(0x70 | lo, true, true, false) {
      assert lo == 0 || lo == 1 || lo == 2 || lo == 3;
    }
  }

  lemma Row55Q1()
    ensures forall lo: bv8 :: 4 <= lo < 8 ==> PairAt(R55, lo) == DaaOut(0x70 | lo, true, true, false)
  {
    forall lo: bv8 | 4 <= lo < 8 ensures PairAt(R55, lo) == DaaOut(0x70 | lo, true, true, false) {
      assert lo == 4 || lo == 5 || lo == 6 || lo == 7;
    }
  }

  lemma Row55Q2()
    ensures forall lo: bv8 :: 8 <= lo < 12 ==> PairAt(R55, lo) == DaaOut(0x70 | lo, true, true, false)
  {
    forall lo: bv8 | 8 <= lo < 12 ensures PairAt(R55, lo) == DaaOut(0x70 | lo, true, true, false) {
      assert lo == 8 || lo == 9 || lo == 10 || lo == 11;
    }
  }

  lemma Row55Q3()
    ensures forall lo: bv8 :: 12 <= lo < 16 ==> PairAt(R55, lo) == DaaOut(0x70 | lo, true, true, false)
  {
    forall lo: bv8 | 12 <= lo < 16 ensures PairAt(R55, lo) == DaaOut(0x70 | lo, true, true, false) {
      assert lo == 12 || lo == 13 || lo == 14 || lo == 15;
    }
  }

  lemma Row56Q0()
    ensures forall lo: bv8 :: lo < 4 ==> PairAt(R56, lo) == DaaOut(0x80 | lo, true, true, false)
  {
    forall lo: bv8 | lo < 4 ensures PairAt(R56, lo) == DaaOut(0x80 | lo, true, true, false) {
      assert lo == 0 || lo == 1 || lo == 2 || lo == 3;
    }
  }

  lemma Row56Q1()
    ensures forall lo: bv8 :: 4 <= lo < 8 ==> PairAt(R56, lo) == DaaOut(0x80 | lo, true, true, false)
  {
    forall lo: bv8 | 4 <= lo < 8 ensures PairAt(R56, lo) == DaaOut(0x80 | lo, true, true, false) {
      assert lo == 4 || lo == 5 || lo == 6 || lo == 7;
    }
  }

  lemma Row56Q2()
    ensures forall lo: bv8 :: 8 <= lo < 12 ==> PairAt(R56, lo) == DaaOut(0x80 | lo, true, true, false)
  {
    forall lo: bv8 | 8 <= lo < 12 ensures PairAt(R56, lo) == DaaOut(0x80 | lo, true, true, false) {
      assert lo == 8 || lo == 9 || lo == 10 || lo == 11;
    }
  }

  lemma Row56Q3()
    ensures forall lo: bv8 :: 12 <= lo < 16 ==> PairAt(R56, lo) == DaaOut(0x80 | lo, true, true, false)
  {
    forall lo: bv8 | 12 <= lo < 16 ensures PairAt(R56, lo) == DaaOut(0x80 | lo, true, true, false) {
      assert lo == 12 || lo == 13 || lo == 14 || lo == 15;
    }
  }

  lemma Row57Q0()
    ensures forall lo: bv8 :: lo < 4 ==> PairAt(R57, lo) == DaaOut(0x90 | lo, true, true, false)
  {
    forall lo: bv8 | lo < 4 ensures PairAt(R57, lo) == DaaOut(0x90 | lo, true, true, false) {
      assert lo == 0 || lo == 1 || lo == 2 || lo == 3;
    }
  }

  lemma Row57Q1()
    ensures forall lo: bv8 :: 4 <= lo < 8 ==> PairAt(R57, lo) == DaaOut(0x90 | lo, true, true, false)
  {
    forall lo: bv8 | 4 <= lo < 8 ensures PairAt(R57, lo) == DaaOut(0x90 | lo, true, true, false) {
      assert lo == 4 || lo == 5 || lo == 6 || lo == 7;
    }
  }

  lemma Row57Q2()
    ensures forall lo: bv8 :: 8 <= lo < 12 ==> PairAt(R57, lo) == DaaOut(0x90 | lo, true, true, false)
  {
    forall lo: bv8 | 8 <= lo < 12 ensures PairAt(R57, lo) == DaaOut(0x90 | lo, true, true, false) {
      assert lo == 8 || lo == 9 || lo == 10 || lo == 11;
    }
  }

  lemma Row57Q3()
    ensures forall lo: bv8 :: 12 <= lo < 16 ==> PairAt(R57, lo) == DaaOut(0x90 | lo, true, true, false)
  {
    forall lo: bv8 | 12 <= lo < 16 ensures PairAt(R57, lo) == DaaOut(0x90 | lo, true, true, false) {
      assert lo == 12 || lo == 13 || lo == 14 || lo == 15;
    }
  }

  lemma Row58Q0()
    ensures forall lo: bv8 :: lo < 4 ==> PairAt(R58, lo) == DaaOut(0xa0 | lo, true, true, false)
  {
    forall lo: bv8 | lo < 4 ensures PairAt(R58, lo) == DaaOut(0xa0 | lo, true, true, false) {
      assert lo == 0 || lo == 1 || lo == 2 || lo == 3;
    }
  }

  lemma Row58Q1()
    ensures forall lo: bv8 :: 4 <= lo < 8 ==> PairAt(R58, lo) == DaaOut(0xa0 | lo, true, true, false)
  {
    forall lo: bv8 | 4 <= lo < 8 ensures PairAt(R58, lo) == DaaOut(0xa0 | lo, true, true, false) {
      assert lo == 4 || lo == 5 || lo == 6 || lo == 7;
    }
  }

  lemma Row58Q2()
    ensures forall lo: bv8 :: 8 <= lo < 12 ==> PairAt(R58, lo) == DaaOut(0xa0 | lo, true, true, false)
  {
    forall lo: bv8 | 8 <= lo < 12 ensures PairAt(R58, lo) == DaaOut(0xa0 | lo, true, true, false) {
      assert lo == 8 || lo == 9 || lo == 10 || lo == 11;
    }
  }

  lemma Row58Q3()
    ensures forall lo: bv8 :: 12 <= lo < 16 ==> PairAt(R58, lo) == DaaOut(0xa0 | lo, true, true, false)
  {
    forall lo: bv8 | 12 <= lo < 16 ensures PairAt(R58, lo) == DaaOut(0xa0 | lo, true, true, false) {
      assert lo == 12 || lo == 13 || lo == 14 || lo == 15;
    }
  }

  lemma Row59Q0()
    ensures forall lo: bv8 :: lo < 4 ==> PairAt(R59, lo) == DaaOut(0xb0 | lo, true, true, false)
  {
    forall lo: bv8 | lo < 4 ensures PairAt(R59, lo) == DaaOut(0xb0 | lo, true, true, false) {
      assert lo == 0 || lo == 1 || lo == 2 || lo == 3;
    }
  }

  lemma Row59Q1()
    ensures forall lo: bv8 :: 4 <= lo < 8 ==> PairAt(R59, lo) == DaaOut(0xb0 | lo, true, true, false)
  {
    forall lo: bv8 | 4 <= lo < 8 ensures PairAt(R59, lo) == DaaOut(0xb0 | lo, true, true, false) {
      assert lo == 4 || lo == 5 || lo == 6 || lo == 7;
    }
  }

  lemma Row59Q2()
    ensures forall lo: bv8 :: 8 <= lo < 12 ==> PairAt(R59, lo) == DaaOut(0xb0 | lo, true, true, false)
  {
    forall lo: bv8 | 8 <= lo < 12 ensures PairAt(R59, lo) == DaaOut(0xb0 | lo, true, true, false) {
      assert lo == 8 || lo == 9 || lo == 10 || lo == 11;
    }
  }

  lemma Row59Q3()
    ensures forall lo: bv8 :: 12 <= lo < 16 ==> PairAt(R59, lo) == DaaOut(0xb0 | lo, true, true, false)
  {
    forall lo: bv8 | 12 <= lo < 16 ensures PairAt(R59, lo) == DaaOut(0xb0 | lo, true, true, false) {
      assert lo == 12 || lo == 13 || lo == 14 || lo == 15;
    }
  }

  lemma Row60Q0()
    ensures forall lo: bv8 :: lo < 4 ==> PairAt(R60, lo) == DaaOut(0xc0 | lo, true, true, false)
  {
    forall lo: bv8 | lo < 4 ensures PairAt(R60, lo) == DaaOut(0xc0 | lo, true, true, false) {
      assert lo == 0 || lo == 1 || lo == 2 || lo == 3;
    }
  }

  lemma Row60Q1()
    ensures forall lo: bv8 :: 4 <= lo < 8 ==> PairAt(R60, lo) == DaaOut(0xc0 | lo, true, true, false)
  {
    forall lo: bv8 | 4 <= lo < 8 ensures PairAt(R60, lo) == DaaOut(0xc0 | lo, true, true, false) {
      assert lo == 4 || lo == 5 || lo == 6 || lo == 7;
    }
  }

  lemma Row60Q2()
    ensures forall lo: bv8 :: 8 <= lo < 12 ==> PairAt(R60, lo) == DaaOut(0xc0 | lo, true, true, false)
  {
    forall lo: bv8 | 8 <= lo < 12 ensures PairAt(R60, lo) == DaaOut(0xc0 | lo, true, true, false) {
      assert lo == 8 || lo == 9 || lo == 10 || lo == 11;
    }
  }

  lemma Row60Q3()
    ensures forall lo: bv8 :: 12 <= lo < 16 ==> PairAt(R60, lo) == DaaOut(0xc0 | lo, true, true, false)
  {
    forall lo: bv8 | 12 <= lo < 16 ensures PairAt(R60, lo) == DaaOut(0xc0 | lo, true, true, false) {
      assert lo == 12 || lo == 13 || lo == 14 || lo == 15;
    }
  }

  lemma Row61Q0()
    ensures forall lo: bv8 :: lo < 4 ==> PairAt(R61, lo) == DaaOut(0xd0 | lo, true, true, false)
  {
    forall lo: bv8 | lo < 4 ensures PairAt(R61, lo) == DaaOut(0xd0 | lo, true, true, false) {
      assert lo == 0 || lo == 1 || lo == 2 || lo == 3;
    }
  }

  lemma Row61Q1()
    ensures forall lo: bv8 :: 4 <= lo < 8 ==> PairAt(R61, lo) == DaaOut(0xd0 | lo, true, true, false)
  {
    forall lo: bv8 | 4 <= lo < 8 ensures PairAt(R61, lo) == DaaOut(0xd0 | lo, true, true, false) {
      assert lo == 4 || lo == 5 || lo == 6 || lo == 7;
    }
  }

  lemma Row61Q2()
    ensures forall lo: bv8 :: 8 <= lo < 12 ==> PairAt(R61, lo) == DaaOut(0xd0 | lo, true, true, false)
  {
    forall lo: bv8 | 8 <= lo < 12 ensures PairAt(R61, lo) == DaaOut(0xd0 | lo, true, true, false) {
      assert lo == 8 || lo == 9 || lo == 10 || lo == 11;
    }
  }

  lemma Row61Q3()
    ensures forall lo: bv8 :: 12 <= lo < 16 ==> PairAt(R61, lo) == DaaOut(0xd0 | lo, true, true, false)
  {
    forall lo: bv8 | 12 <= lo < 16 ensures PairAt(R61, lo) == DaaOut(0xd0 | lo, true, true, false) {
      assert lo == 12 || lo == 13 || lo == 14 || lo == 15;
    }
  }

  lemma Row62Q0()
    ensures forall lo: bv8 :: lo < 4 ==> PairAt(R62, lo) == DaaOut(0xe0 | lo, true, true, false)
  {
    forall lo: bv8 | lo < 4 ensures PairAt(R62, lo) == DaaOut(0xe0 | lo, true, true, false) {
      assert lo == 0 || lo == 1 || lo == 2 || lo == 3;
    }
  }

  lemma Row62Q1()
    ensures forall lo: bv8 :: 4 <= lo < 8 ==> PairAt(R62, lo) == DaaOut(0xe0 | lo, true, true, false)
  {
    forall lo: bv8 | 4 <= lo < 8 ensures PairAt(R62, lo) == DaaOut(0xe0 | lo, true, true, false) {
      assert lo == 4 || lo == 5 || lo == 6 || lo == 7;
    }
  }

  lemma Row62Q2()
    ensures forall lo: bv8 :: 8 <= lo < 12 ==> PairAt(R62, lo) == DaaOut(0xe0 | lo, true, true, false)
  {
    forall lo: bv8 | 8 <= lo < 12 ensures PairAt(R62, lo) == DaaOut(0xe0 | lo, true, true, false) {
      assert lo == 8 || lo == 9 || lo == 10 || lo == 11;
    }
  }

  lemma Row62Q3()
    ensures forall lo: bv8 :: 12 <= lo < 16 ==> PairAt(R62, lo) == DaaOut(0xe0 | lo, true, true, false)
  {
    forall lo: bv8 | 12 <= lo < 16 ensures PairAt(R62, lo) == DaaOut(0xe0 | lo, true, true, false) {
      assert lo == 12 || lo == 13 || lo == 14 || lo == 15;
    }
  }

  lemma Row63Q0()
    ensures forall lo: bv8 :: lo < 4 ==> PairAt(R63, lo) == DaaOut(0xf0 | lo, true, true, false)
  {
    forall lo: bv8 | lo < 4 ensures PairAt(R63, lo) == DaaOut(0xf0 | lo, true, true, false) {
      assert lo == 0 || lo == 1 || lo == 2 || lo == 3;
    }
  }

  lemma Row63Q1()
    ensures forall lo: bv8 :: 4 <= lo < 8 ==> PairAt(R63, lo) == DaaOut(0xf0 | lo, true, true, false)
  {
    forall lo: bv8 | 4 <= lo < 8 ensures PairAt(R63, lo) == DaaOut(0xf0 | lo, true, true, false) {
      assert lo == 4 || lo == 5 || lo == 6 || lo == 7;
    }
  }

  lemma Row63Q2()
    ensures forall lo: bv8 :: 8 <= lo < 12 ==> PairAt(R63, lo) == DaaOut(0xf0 | lo, true, true, false)
  {
    forall lo: bv8 | 8 <= lo < 12 ensures PairAt(R63, lo) == DaaOut(0xf0 | lo, true, true, false) {
      assert lo == 8 || lo == 9 || lo == 10 || lo == 11;
    }
  }

  lemma Row63Q3()
    ensures forall lo: bv8 :: 12 <= lo < 16 ==> PairAt(R63, lo) == DaaOut(0xf0 | lo, true, true, false)
  {
    forall lo: bv8 | 12 <= lo < 16 ensures PairAt(R63, lo) == DaaOut(0xf0 | lo, true, true, false) {
      assert lo == 12 || lo == 13 || lo == 14 || lo == 15;
    }
  }

  lemma Row64Q0()
    ensures forall lo: bv8 :: lo < 4 ==> PairAt(R64, lo) == DaaOut(0x00 | lo, false, false, true)
  {
    forall lo: bv8 | lo < 4 ensures PairAt(R64, lo) == DaaOut(0x00 | lo, false, false, true) {
      assert lo == 0 || lo == 1 || lo == 2 || lo == 3;
    }
  }

  lemma Row64Q1()
    ensures forall lo: bv8 :: 4 <= lo < 8 ==> PairAt(R64, lo) == DaaOut(0x00 | lo, false, false, true)
  {
    forall lo: bv8 | 4 <= lo < 8 ensures PairAt(R64, lo) == DaaOut(0x00 | lo, false, false, true) {
      assert lo == 4 || lo == 5 || lo == 6 || lo == 7;
    }
  }

  lemma Row64Q2()
    ensures forall lo: bv8 :: 8 <= lo < 12 ==> PairAt(R64, lo) == DaaOut(0x00 | lo, false, false, true)
  {
    forall lo: bv8 | 8 <= lo < 12 ensures PairAt(R64, lo) == DaaOut(0x00 | lo, false, false, true) {
      assert lo == 8 || lo == 9 || lo == 10 || lo == 11;
    }
  }

  lemma Row64Q3()
    ensures forall lo: bv8 :: 12 <= lo < 16 ==> PairAt(R64, lo) == DaaOut(0x00 | lo, false, false, true)
  {
    forall lo: bv8 | 12 <= lo < 16 ensures PairAt(R64, lo) == DaaOut(0x00 | lo, false, false, true) {
      assert lo == 12 || lo == 13 || lo == 14 || lo == 15;
    }
  }

  lemma Row65Q0()
    ensures forall lo: bv8 :: lo < 4 ==> PairAt(R65, lo) == DaaOut(0x10 | lo, false, false, true)
  {
    forall lo: bv8 | lo < 4 ensures PairAt(R65, lo) == DaaOut(0x10 | lo, false, false, true) {
      assert lo == 0 || lo == 1 || lo == 2 || lo == 3;
    }
  }

  lemma Row65Q1()
    ensures forall lo: bv8 :: 4 <= lo < 8 ==> PairAt(R65, lo) == DaaOut(0x10 | lo, false, false, true)
  {
    forall lo: bv8 | 4 <= lo < 8 ensures PairAt(R65, lo) == DaaOut(0x10 | lo, false, false, true) {
      assert lo == 4 || lo == 5 || lo == 6 || lo == 7;
    }
  }

  lemma Row65Q2()
    ensures forall lo: bv8 :: 8 <= lo < 12 ==> PairAt(R65, lo) == DaaOut(0x10 | lo, false, false, true)
  {
    forall lo: bv8 | 8 <= lo < 12 ensures PairAt(R65, lo) == DaaOut(0x10 | lo, false, false, true) {
      assert lo == 8 || lo == 9 || lo == 10 || lo == 11;
    }
  }

  lemma Row65Q3()
    ensures forall lo: bv8 :: 12 <= lo < 16 ==> PairAt(R65, lo) == DaaOut(0x10 | lo, false, false, true)
  {
    forall lo: bv8 | 12 <= lo < 16 ensures PairAt(R65, lo) == DaaOut(0x10 | lo, false, false, true) {
      assert lo == 12 || lo == 13 || lo == 14 || lo == 15;
    }
  }

  lemma Row66Q0()
    ensures forall lo: bv8 :: lo < 4 ==> PairAt(R66, lo) == DaaOut(0x20 | lo, false, false, true)
  {
    forall lo: bv8 | lo < 4 ensures PairAt(R66, lo) == DaaOut(0x20 | lo, false, false, true) {
      assert lo == 0 || lo == 1 || lo == 2 || lo == 3;
    }
  }

  lemma Row66Q1()
    ensures forall lo: bv8 :: 4 <= lo < 8 ==> PairAt(R66, lo) == DaaOut(0x20 | lo, false, false, true)
  {
    forall lo: bv8 | 4 <= lo < 8 ensures PairAt(R66, lo) == DaaOut(0x20 | lo, false, false, true) {
      assert lo == 4 || lo == 5 || lo == 6 || lo == 7;
    }
  }

  lemma Row66Q2()
    ensures forall lo: bv8 :: 8 <= lo < 12 ==> PairAt(R66, lo) == DaaOut(0x20 | lo, false, false, true)
  {
    forall lo: bv8 | 8 <= lo < 12 ensures PairAt(R66, lo) == DaaOut(0x20 | lo, false, false, true) {
      assert lo == 8 || lo == 9 || lo == 10 || lo == 11;
    }
  }

  lemma Row66Q3()
    ensures forall lo: bv8 :: 12 <= lo < 16 ==> PairAt(R66, lo) == DaaOut(0x20 | lo, false, false, true)
  {
    forall lo: bv8 | 12 <= lo < 16 ensures PairAt(R66, lo) == DaaOut(0x20 | lo, false, false, true) {
      assert lo == 12 || lo == 13 || lo == 14 || lo == 15;
    }
  }

  lemma Row67Q0()
    ensures forall lo: bv8 :: lo < 4 ==> PairAt(R67, lo) == DaaOut(0x30 | lo, false, false, true)
  {
    forall lo: bv8 | lo < 4 ensures PairAt(R67, lo) == DaaOut(0x30 | lo, false, false, true) {
      assert lo == 0 || lo == 1 || lo == 2 || lo == 3;
    }
  }

  lemma Row67Q1()
    ensures forall lo: bv8 :: 4 <= lo < 8 ==> PairAt(R67, lo) == DaaOut(0x30 | lo, false, false, true)
  {
    forall lo: bv8 | 4 <= lo < 8 ensures PairAt(R67, lo) == DaaOut(0x30 | lo, false, false, true) {
      assert lo == 4 || lo == 5 || lo == 6 || lo == 7;
    }
  }

  lemma Row67Q2()
    ensures forall lo: bv8 :: 8 <= lo < 12 ==> PairAt(R67, lo) == DaaOut(0x30 | lo, false, false, true)
  {
    forall lo: bv8 | 8 <= lo < 12 ensures PairAt(R67, lo) == DaaOut(0x30 | lo, false, false, true) {
      assert lo == 8 || lo == 9 || lo == 10 || lo == 11;
    }
  }

  lemma Row67Q3()
    ensures forall lo: bv8 :: 12 <= lo < 16 ==> PairAt(R67, lo) == DaaOut(0x30 | lo, false, false, true)
  {
    forall lo: bv8 | 12 <= lo < 16 ensures PairAt(R67, lo) == DaaOut(0x30 | lo, false, false, true) {
      assert lo == 12 || lo == 13 || lo == 14 || lo == 15;
    }
  }

  lemma Row68Q0()
    ensures forall lo: bv8 :: lo < 4 ==> PairAt(R68, lo) == DaaOut(0x40 | lo, false, false, true)
  {
    forall lo: bv8 | lo < 4 ensures PairAt(R68, lo) == DaaOut(0x40 | lo, false, false, true) {
      assert lo == 0 || lo == 1 || lo == 2 || lo == 3;
    }
  }

  lemma Row68Q1()
    ensures forall lo: bv8 :: 4 <= lo < 8 ==> PairAt(R68, lo) == DaaOut(0x40 | lo, false, false, true)
  {
    forall lo: bv8 | 4 <= lo < 8 ensures PairAt(R68, lo) == DaaOut(0x40 | lo, false, false, true) {
      assert lo == 4 || lo == 5 || lo == 6 || lo == 7;
    }
  }

  lemma Row68Q2()
    ensures forall lo: bv8 :: 8 <= lo < 12 ==> PairAt(R68, lo) == DaaOut(0x40 | lo, false, false, true)
  {
    forall lo: bv8 | 8 <= lo < 12 ensures PairAt(R68, lo) == DaaOut(0x40 | lo, false, false, true) {
      assert lo == 8 || lo == 9 || lo == 10 || lo == 11;
    }
  }

  lemma Row68Q3()
    ensures forall lo: bv8 :: 12 <= lo < 16 ==> PairAt(R68, lo) == DaaOut(0x40 | lo, false, false, true)
  {
    forall lo: bv8 | 12 <= lo < 16 ensures PairAt(R68, lo) == DaaOut(0x40 | lo, false, false, true) {
      assert lo == 12 || lo == 13 || lo == 14 || lo == 15;
    }
  }

  lemma Row69Q0()
    ensures forall lo: bv8 :: lo < 4 ==> PairAt(R69, lo) == DaaOut(0x50 | lo, false, false, true)
  {
    forall lo: bv8 | lo < 4 ensures PairAt(R69, lo) == DaaOut(0x50 | lo, false, false, true) {
      assert lo == 0 || lo == 1 || lo == 2 || lo == 3;
    }
  }

  lemma Row69Q1()
    ensures forall lo: bv8 :: 4 <= lo < 8 ==> PairAt(R69, lo) == DaaOut(0x50 | lo, false, false, true)
  {
    forall lo: bv8 | 4 <= lo < 8 ensures PairAt(R69, lo) == DaaOut(0x50 | lo, false, false, true) {
      assert lo == 4 || lo == 5 || lo == 6 || lo == 7;
    }
  }

  lemma Row69Q2()
    ensures forall lo: bv8 :: 8 <= lo < 12 ==> PairAt(R69, lo) == DaaOut(0x50 | lo, false, false, true)
  {
    forall lo: bv8 | 8 <= lo < 12 ensures PairAt(R69, lo) == DaaOut(0x50 | lo, false, false, true) {
      assert lo == 8 || lo == 9 || lo == 10 || lo == 11;
    }
  }

  lemma Row69Q3()
    ensures forall lo: bv8 :: 12 <= lo < 16 ==> PairAt(R69, lo) == DaaOut(0x50 | lo, false, false, true)
  {
    forall lo: bv8 | 12 <= lo < 16 ensures PairAt(R69, lo) == DaaOut(0x50 | lo, false, false, true) {
      assert lo == 12 || lo == 13 || lo == 14 || lo == 15;
    }
  }

  lemma Row70Q0()
    ensures forall lo: bv8 :: lo < 4 ==> PairAt(R70, lo) == DaaOut(0x60 | lo, false, false, true)
  {
    forall lo: bv8 | lo < 4 ensures PairAt(R70, lo) == DaaOut(0x60 | lo, false, false, true) {
      assert lo == 0 || lo == 1 || lo == 2 || lo == 3;
    }
  }

  lemma Row70Q1()
    ensures forall lo: bv8 :: 4 <= lo < 8 ==> PairAt(R70, lo) == DaaOut(0x60 | lo, false, false, true)
  {
    forall lo: bv8 | 4 <= lo < 8 ensures PairAt(R70, lo) == DaaOut(0x60 | lo, false, false, true) {
      assert lo == 4 || lo == 5 || lo == 6 || lo == 7;
    }
  }

  lemma Row70Q2()
    ensures forall lo: bv8 :: 8 <= lo < 12 ==> PairAt(R70, lo) == DaaOut(0x60 | lo, false, false, true)
  {
    forall lo: bv8 | 8 <= lo < 12 ensures PairAt(R70, lo) == DaaOut(0x60 | lo, false, false, true) {
      assert lo == 8 || lo == 9 || lo == 10 || lo == 11;
    }
  }

  lemma Row70Q3()
    ensures forall lo: bv8 :: 12 <= lo < 16 ==> PairAt(R70, lo) == DaaOut(0x60 | lo, false, false, true)
  {
    forall lo: bv8 | 12 <= lo < 16 ensures PairAt(R70, lo) == DaaOut(0x60 | lo, false, false, true) {
      assert lo == 12 || lo == 13 || lo == 14 || lo == 15;
    }
  }

  lemma Row71Q0()
    ensures forall lo: bv8 :: lo < 4 ==> PairAt(R71, lo) == DaaOut(0x70 | lo, false, false, true)
  {
    forall lo: bv8 | lo < 4 ensures PairAt(R71, lo) == DaaOut(0x70 | lo, false, false, true) {
      assert lo == 0 || lo == 1 || lo == 2 || lo == 3;
    }
  }

  lemma Row71Q1()
    ensures forall lo: bv8 :: 4 <= lo < 8 ==> PairAt(R71, lo) == DaaOut(0x70 | lo, false, false, true)
  {
    forall lo: bv8 | 4 <= lo < 8 ensures PairAt(R71, lo) == DaaOut(0x70 | lo, false, false, true) {
      assert lo == 4 || lo == 5 || lo == 6 || lo == 7;
    }
  }

  lemma Row71Q2()
    ensures forall lo: bv8 :: 8 <= lo < 12 ==> PairAt(R71, lo) == DaaOut(0x70 | lo, false, false, true)
  {
    forall lo: bv8 | 8 <= lo < 12 ensures PairAt(R71, lo) == DaaOut(0x70 | lo, false, false, true) {
      assert lo == 8 || lo == 9 || lo == 10 || lo == 11;
    }
  }

  lemma Row71Q3()
    ensures forall lo: bv8 :: 12 <= lo < 16 ==> PairAt(R71, lo) == DaaOut(0x70 | lo, false, false, true)
  {
    forall lo: bv8 | 12 <= lo < 16 ensures PairAt(R71, lo) == DaaOut(0x70 | lo, false, false, true) {
      assert lo == 12 || lo == 13 || lo == 14 || lo == 15;
    }
  }

  lemma Row72Q0()
    ensures forall lo: bv8 :: lo < 4 ==> PairAt(R72, lo) == DaaOut(0x80 | lo, false, false, true)
  {
    forall lo: bv8 | lo < 4 ensures PairAt(R72, lo) == DaaOut(0x80 | lo, false, false, true) {
      assert lo == 0 || lo == 1 || lo == 2 || lo == 3;
    }
  }

  lemma Row72Q1()
    ensures forall lo: bv8 :: 4 <= lo < 8 ==> PairAt(R72, lo) == DaaOut(0x80 | lo, false, false, true)
  {
    forall lo: bv8 | 4 <= lo < 8 ensures PairAt(R72, lo) == DaaOut(0x80 | lo, false, false, true) {
      assert lo == 4 || lo == 5 || lo == 6 || lo == 7;
    }
  }

  lemma Row72Q2()
    ensures forall lo: bv8 :: 8 <= lo < 12 ==> PairAt(R72, lo) == DaaOut(0x80 | lo, false, false, true)
  {
    forall lo: bv8 | 8 <= lo < 12 ensures PairAt(R72, lo) == DaaOut(0x80 | lo, false, false, true) {
      assert lo == 8 || lo == 9 || lo == 10 || lo == 11;
    }
  }

  lemma Row72Q3()
    ensures forall lo: bv8 :: 12 <= lo < 16 ==> PairAt(R72, lo) == DaaOut(0x80 | lo, false, false, true)
  {
    forall lo: bv8 | 12 <= lo < 16 ensures PairAt(R72, lo) == DaaOut(0x80 | lo, false, false, true) {
      assert lo == 12 || lo == 13 || lo == 14 || lo == 15;
    }
  }

  lemma Row73Q0()
    ensures forall lo: bv8 :: lo < 4 ==> PairAt(R73, lo) == DaaOut(0x90 | lo, false, false, true)
  {
    forall lo: bv8 | lo < 4 ensures PairAt(R73, lo) == DaaOut(0x90 | lo, false, false, true) {
      assert lo == 0 || lo == 1 || lo == 2 || lo == 3;
    }
  }

  lemma Row73Q1()
    ensures forall lo: bv8 :: 4 <= lo < 8 ==> PairAt(R73, lo) == DaaOut(0x90 | lo, false, false, true)
  {
    forall lo: bv8 | 4 <= lo < 8 ensures PairAt(R73, lo) == DaaOut(0x90 | lo, false, false, true) {
      assert lo == 4 || lo == 5 || lo == 6 || lo == 7;
    }
  }

  lemma Row73Q2()
    ensures forall lo: bv8 :: 8 <= lo < 12 ==> PairAt(R73, lo) == DaaOut(0x90 | lo, false, false, true)
  {
    forall lo: bv8 | 8 <= lo < 12 ensures PairAt(R73, lo) == DaaOut(0x90 | lo, false, false, true) {
      assert lo == 8 || lo == 9 || lo == 10 || lo == 11;
    }
  }

  lemma Row73Q3()
    ensures forall lo: bv8 :: 12 <= lo < 16 ==> PairAt(R73, lo) == DaaOut(0x90 | lo, false, false, true)
  {
    forall lo: bv8 | 12 <= lo < 16 ensures PairAt(R73, lo) == DaaOut(0x90 | lo, false, false, true) {
      assert lo == 12 || lo == 13 || lo == 14 || lo == 15;
    }
  }

  lemma Row74Q0()
    ensures forall lo: bv8 :: lo < 4 ==> PairAt(R74, lo) == DaaOut(0xa0 | lo, false, false, true)
  {
    forall lo: bv8 | lo < 4 ensures PairAt(R74, lo) == DaaOut(0xa0 | lo, false, false, true) {
      assert lo == 0 || lo == 1 || lo == 2 || lo == 3;
    }
  }

  lemma Row74Q1()
    ensures forall lo: bv8 :: 4 <= lo < 8 ==> PairAt(R74, lo) == DaaOut(0xa0 | lo, false, false, true)
  {
    forall lo: bv8 | 4 <= lo < 8 ensures PairAt(R74, lo) == DaaOut(0xa0 | lo, false, false, true) {
      assert lo == 4 || lo == 5 || lo == 6 || lo == 7;
    }
  }

  lemma Row74Q2()
    ensures forall lo: bv8 :: 8 <= lo < 12 ==> PairAt(R74, lo) == DaaOut(0xa0 | lo, false, false, true)
  {
    forall lo: bv8 | 8 <= lo < 12 ensures PairAt(R74, lo) == DaaOut(0xa0 | lo, false, false, true) {
      assert lo == 8 || lo == 9 || lo == 10 || lo == 11;
    }
  }

  lemma Row74Q3()
    ensures forall lo: bv8 :: 12 <= lo < 16 ==> PairAt(R74, lo) == DaaOut(0xa0 | lo, false, false, true)
  {
    forall lo: bv8 | 12 <= lo < 16 ensures PairAt(R74, lo) == DaaOut(0xa0 | lo, false, false, true) {
      assert lo == 12 || lo == 13 || lo == 14 || lo == 15;
    }
  }

  lemma Row75Q0()
    ensures forall lo: bv8 :: lo < 4 ==> PairAt(R75, lo) == DaaOut(0xb0 | lo, false, false, true)
  {
    forall lo: bv8 | lo < 4 ensures PairAt(R75, lo) == DaaOut(0xb0 | lo, false, false, true) {
      assert lo == 0 || lo == 1 || lo == 2 || lo == 3;
    }
  }

  lemma Row75Q1()
    ensures forall lo: bv8 :: 4 <= lo < 8 ==> PairAt(R75, lo) == DaaOut(0xb0 | lo, false, false, true)
  {
    forall lo: bv8 | 4 <= lo < 8 ensures PairAt(R75, lo) == DaaOut(0xb0 | lo, false, false, true) {
      assert lo == 4 || lo == 5 || lo == 6 || lo == 7;
    }
  }

  lemma Row75Q2()
    ensures forall lo: bv8 :: 8 <= lo < 12 ==> PairAt(R75, lo) == DaaOut(0xb0 | lo, false, false, true)
  {
    forall lo: bv8 | 8 <= lo < 12 ensures PairAt(R75, lo) == DaaOut(0xb0 | lo, false, false, true) {
      assert lo == 8 || lo == 9 || lo == 10 || lo == 11;
    }
  }

  lemma Row75Q3()
    ensures forall lo: bv8 :: 12 <= lo < 16 ==> PairAt(R75, lo) == DaaOut(0xb0 | lo, false, false, true)
  {
    forall lo: bv8 | 12 <= lo < 16 ensures PairAt(R75, lo) == DaaOut(0xb0 | lo, false, false, true) {
      assert lo == 12 || lo == 13 || lo == 14 || lo == 15;
    }
  }

  lemma Row76Q0()
    ensures forall lo: bv8 :: lo < 4 ==> PairAt(R76, lo) == DaaOut(0xc0 | lo, false, false, true)
  {
    forall lo: bv8 | lo < 4 ensures PairAt(R76, lo) == DaaOut(0xc0 | lo, false, false, true) {
      assert lo == 0 || lo == 1 || lo == 2 || lo == 3;
    }
  }

  lemma Row76Q1()
    ensures forall lo: bv8 :: 4 <= lo < 8 ==> PairAt(R76, lo) == DaaOut(0xc0 | lo, false, false, true)
  {
    forall lo: bv8 | 4 <= lo < 8 ensures PairAt(R76, lo) == DaaOut(0xc0 | lo, false, false, true) {
      assert lo == 4 || lo == 5 || lo == 6 || lo == 7;
    }
  }

  lemma Row76Q2()
    ensures forall lo: bv8 :: 8 <= lo < 12 ==> PairAt(R76, lo) == DaaOut(0xc0 | lo, false, false, true)
  {
    forall lo: bv8 | 8 <= lo < 12 ensures PairAt(R76, lo) == DaaOut(0xc0 | lo, false, false, true) {
      assert lo == 8 || lo == 9 || lo == 10 || lo == 11;
    }
  }

  lemma Row76Q3()
    ensures forall lo: bv8 :: 12 <= lo < 16 ==> PairAt(R76, lo) == DaaOut(0xc0 | lo, false, false, true)
  {
    forall lo: bv8 | 12 <= lo < 16 ensures PairAt(R76, lo) == DaaOut(0xc0 | lo, false, false, true) {
      assert lo == 12 || lo == 13 || lo == 14 || lo == 15;
    }
  }

  lemma Row77Q0()
    ensures forall lo: bv8 :: lo < 4 ==> PairAt(R77, lo) == DaaOut(0xd0 | lo, false, false, true)
  {
    forall lo: bv8 | lo < 4 ensures PairAt(R77, lo) == DaaOut(0xd0 | lo, false, false, true) {
      assert lo == 0 || lo == 1 || lo == 2 || lo == 3;
    }
  }

  lemma Row77Q1()
    ensures forall lo: bv8 :: 4 <= lo < 8 ==> PairAt(R77, lo) == DaaOut(0xd0 | lo, false, false, true)
  {
    forall lo: bv8 | 4 <= lo < 8 ensures PairAt(R77, lo) == DaaOut(0xd0 | lo, false, false, true) {
      assert lo == 4 || lo == 5 || lo == 6 || lo == 7;
    }
  }

  lemma Row77Q2()
    ensures forall lo: bv8 :: 8 <= lo < 12 ==> PairAt(R77, lo) == DaaOut(0xd0 | lo, false, false, true)
  {
    forall lo: bv8 | 8 <= lo < 12 ensures PairAt(R77, lo) == DaaOut(0xd0 | lo, false, false, true) {
      assert lo == 8 || lo == 9 || lo == 10 || lo == 11;
    }
  }

  lemma Row77Q3()
    ensures forall lo: bv8 :: 12 <= lo < 16 ==> PairAt(R77, lo) == DaaOut(0xd0 | lo, false, false, true)
  {
    forall lo: bv8 | 12 <= lo < 16 ensures PairAt(R77, lo) == DaaOut(0xd0 | lo, false, false, true) {
      assert lo == 12 || lo == 13 || lo == 14 || lo == 15;
    }
  }

  lemma Row78Q0()
    ensures forall lo: bv8 :: lo < 4 ==> PairAt(R78, lo) == DaaOut(0xe0 | lo, false, false, true)
  {
    forall lo: bv8 | lo < 4 ensures PairAt(R78, lo) == DaaOut(0xe0 | lo, false, false, true) {
      assert lo == 0 || lo == 1 || lo == 2 || lo == 3;
    }
  }

  lemma Row78Q1()
    ensures forall lo: bv8 :: 4 <= lo < 8 ==> PairAt(R78, lo) == DaaOut(0xe0 | lo, false, false, true)
  {
    forall lo: bv8 | 4 <= lo < 8 ensures PairAt(R78, lo) == DaaOut(0xe0 | lo, false, false, true) {
      assert lo == 4 || lo == 5 || lo == 6 || lo == 7;
    }
  }

  lemma Row78Q2()
    ensures forall lo: bv8 :: 8 <= lo < 12 ==> PairAt(R78, lo) == DaaOut(0xe0 | lo, false, false, true)
  {
    forall lo: bv8 | 8 <= lo < 12 ensures PairAt(R78, lo) == DaaOut(0xe0 | lo, false, false, true) {
      assert lo == 8 || lo == 9 || lo == 10 || lo == 11;
    }
  }

  lemma Row78Q3()
    ensures forall lo: bv8 :: 12 <= lo < 16 ==> PairAt(R78, lo) == DaaOut(0xe0 | lo, false, false, true)
  {
    forall lo: bv8 | 12 <= lo < 16 ensures PairAt(R78, lo) == DaaOut(0xe0 | lo, false, false, true) {
      assert lo == 12 || lo == 13 || lo == 14 || lo == 15;
    }
  }

  lemma Row79Q0()
    ensures forall lo: bv8 :: lo < 4 ==> PairAt(R79, lo) == DaaOut(0xf0 | lo, false, false, true)
  {
    forall lo: bv8 | lo < 4 ensures PairAt(R79, lo) == DaaOut(0xf0 | lo, false, false, true) {
      assert lo == 0 || lo == 1 || lo == 2 || lo == 3;
    }
  }

  lemma Row79Q1()
    ensures forall lo: bv8 :: 4 <= lo < 8 ==> PairAt(R79, lo) == DaaOut(0xf0 | lo, false, false, true)
  {
    forall lo: bv8 | 4 <= lo < 8 ensures PairAt(R79, lo) == DaaOut(0xf0 | lo, false, false, true) {
      assert lo == 4 || lo == 5 || lo == 6 || lo == 7;
    }
  }

  lemma Row79Q2()
    ensures forall lo: bv8 :: 8 <= lo < 12 ==> PairAt(R79, lo) == DaaOut(0xf0 | lo, false, false, true)
  {
    forall lo: bv8 | 8 <= lo < 12 ensures PairAt(R79, lo) == DaaOut(0xf0 | lo, false, false, true) {
      assert lo == 8 || lo == 9 || lo == 10 || lo == 11;
    }
  }

  lemma Row79Q3()
    ensures forall lo: bv8 :: 12 <= lo < 16 ==> PairAt(R79, lo) == DaaOut(0xf0 | lo, false, false, true)
  {
    forall lo: bv8 | 12 <= lo < 16 ensures PairAt(R79, lo) == DaaOut(0xf0 | lo, false, false, true) {
      assert lo == 12 || lo == 13 || lo == 14 || lo == 15;
    }
  }

  lemma Row80Q0()
    ensures forall lo: bv8 :: lo < 4 ==> PairAt(R80, lo) == DaaOut(0x00 | lo, true, false, true)
  {
    forall lo: bv8 | lo < 4 ensures PairAt(R80, lo) == DaaOut(0x00 | lo, true, false, true) {
      assert lo == 0 || lo == 1 || lo == 2 || lo == 3;
    }
  }

  lemma Row80Q1()
    ensures forall lo: bv8 :: 4 <= lo < 8 ==> PairAt(R80, lo) == DaaOut(0x00 | lo, true, false, true)
  {
    forall lo: bv8 | 4 <= lo < 8 ensures PairAt(R80, lo) == DaaOut(0x00 | lo, true, false, true) {
      assert lo == 4 || lo == 5 || lo == 6 || lo == 7;
    }
  }

  lemma Row80Q2()
    ensures forall lo: bv8 :: 8 <= lo < 12 ==> PairAt(R80, lo) == DaaOut(0x00 | lo, true, false, true)
  {
    forall lo: bv8 | 8 <= lo < 12 ensures PairAt(R80, lo) == DaaOut(0x00 | lo, true, false, true) {
      assert lo == 8 || lo == 9 || lo == 10 || lo == 11;
    }
  }

  lemma Row80Q3()
    ensures forall lo: bv8 :: 12 <= lo < 16 ==> PairAt(R80, lo) == DaaOut(0x00 | lo, true, false, true)
  {
    forall lo: bv8 | 12 <= lo < 16 ensures PairAt(R80, lo) == DaaOut(0x00 | lo, true, false, true) {
      assert lo == 12 || lo == 13 || lo == 14 || lo == 15;
    }
  }

  lemma Row81Q0()
    ensures forall lo: bv8 :: lo < 4 ==> PairAt(R81, lo) == DaaOut(0x10 | lo, true, false, true)
  {
    forall lo: bv8 | lo < 4 ensures PairAt(R81, lo) == DaaOut(0x10 | lo, true, false, true) {
      assert lo == 0 || lo == 1 || lo == 2 || lo == 3;
    }
  }

  lemma Row81Q1()
    ensures forall lo: bv8 :: 4 <= lo < 8 ==> PairAt(R81, lo) == DaaOut(0x10 | lo, true, false, true)
  {
    forall lo: bv8 | 4 <= lo < 8 ensures PairAt(R81, lo) == DaaOut(0x10 | lo, true, false, true) {
      assert lo == 4 || lo == 5 || lo == 6 || lo == 7;
    }
  }

  lemma Row81Q2()
    ensures forall lo: bv8 :: 8 <= lo < 12 ==> PairAt(R81, lo) == DaaOut(0x10 | lo, true, false, true)
  {
    forall lo: bv8 | 8 <= lo < 12 ensures PairAt(R81, lo) == DaaOut(0x10 | lo, true, false, true) {
      assert lo == 8 || lo == 9 || lo == 10 || lo == 11;
    }
  }

  lemma Row81Q3()
    ensures forall lo: bv8 :: 12 <= lo < 16 ==> PairAt(R81, lo) == DaaOut(0x10 | lo, true, false, true)
  {
    forall lo: bv8 | 12 <= lo < 16 ensures PairAt(R81, lo) == DaaOut(0x10 | lo, true, false, true) {
      assert lo == 12 || lo == 13 || lo == 14 || lo == 15;
    }
  }

  lemma Row82Q0()
    ensures forall lo: bv8 :: lo < 4 ==> PairAt(R82, lo) == DaaOut(0x20 | lo, true, false, true)
  {
    forall lo: bv8 | lo < 4 ensures PairAt(R82, lo) == DaaOut(0x20 | lo, true, false, true) {
      assert lo == 0 || lo == 1 || lo == 2 || lo == 3;
    }
  }

  lemma Row82Q1()
    ensures forall lo: bv8 :: 4 <= lo < 8 ==> PairAt(R82, lo) == DaaOut(0x20 | lo, true, false, true)
  {
    forall lo: bv8 | 4 <= lo < 8 ensures PairAt(R82, lo) == DaaOut(0x20 | lo, true, false, true) {
      assert lo == 4 || lo == 5 || lo == 6 || lo == 7;
    }
  }

  lemma Row82Q2()
    ensures forall lo: bv8 :: 8 <= lo < 12 ==> PairAt(R82, lo) == DaaOut(0x20 | lo, true, false, true)
  {
    forall lo: bv8 | 8 <= lo < 12 ensures PairAt(R82, lo) == DaaOut(0x20 | lo, true, false, true) {
      assert lo == 8 || lo == 9 || lo == 10 || lo == 11;
    }
  }

  lemma Row82Q3()
    ensures forall lo: bv8 :: 12 <= lo < 16 ==> PairAt(R82, lo) == DaaOut(0x20 | lo, true, false, true)
  {
    forall lo: bv8 | 12 <= lo < 16 ensures PairAt(R82, lo) == DaaOut(0x20 | lo, true, false, true) {
      assert lo == 12 || lo == 13 || lo == 14 || lo == 15;
    }
  }

  lemma Row83Q0()
    ensures forall lo: bv8 :: lo < 4 ==> PairAt(R83, lo) == DaaOut(0x30 | lo, true, false, true)
  {
    forall lo: bv8 | lo < 4 ensures PairAt(R83, lo) == DaaOut(0x30 | lo, true, false, true) {
      assert lo == 0 || lo == 1 || lo == 2 || lo == 3;
    }
  }

  lemma Row83Q1()
    ensures forall lo: bv8 :: 4 <= lo < 8 ==> PairAt(R83, lo) == DaaOut(0x30 | lo, true, false, true)
  {
    forall lo: bv8 | 4 <= lo < 8 ensures PairAt(R83, lo) == DaaOut(0x30 | lo, true, false, true) {
      assert lo == 4 || lo == 5 || lo == 6 || lo == 7;
    }
  }

  lemma Row83Q2()
    ensures forall lo: bv8 :: 8 <= lo < 12 ==> PairAt(R83, lo) == DaaOut(0x30 | lo, true, false, true)
  {
    forall lo: bv8 | 8 <= lo < 12 ensures PairAt(R83, lo) == DaaOut(0x30 | lo, true, false, true) {
      assert lo == 8 || lo == 9 || lo == 10 || lo == 11;
    }
  }

  lemma Row83Q3()
    ensures forall lo: bv8 :: 12 <= lo < 16 ==> PairAt(R83, lo) == DaaOut(0x30 | lo, true, false, true)
  {
    forall lo: bv8 | 12 <= lo < 16 ensures PairAt(R83, lo) == DaaOut(0x30 | lo, true, false, true) {
      assert lo == 12 || lo == 13 || lo == 14 || lo == 15;
    }
  }

  lemma Row84Q0()
    ensures forall lo: bv8 :: lo < 4 ==> PairAt(R84, lo) == DaaOut(0x40 | lo, true, false, true)
  {
    forall lo: bv8 | lo < 4 ensures PairAt(R84, lo) == DaaOut(0x40 | lo, true, false, true) {
      assert lo == 0 || lo == 1 || lo == 2 || lo == 3;
    }
  }

  lemma Row84Q1()
    ensures forall lo: bv8 :: 4 <= lo < 8 ==> PairAt(R84, lo) == DaaOut(0x40 | lo, true, false, true)
  {
    forall lo: bv8 | 4 <= lo < 8 ensures PairAt(R84, lo) == DaaOut(0x40 | lo, true, false, true) {
      assert lo == 4 || lo == 5 || lo == 6 || lo == 7;
    }
  }

  lemma Row84Q2()
    ensures forall lo: bv8 :: 8 <= lo < 12 ==> PairAt(R84, lo) == DaaOut(0x40 | lo, true, false, true)
  {
    forall lo: bv8 | 8 <= lo < 12 ensures PairAt(R84, lo) == DaaOut(0x40 | lo, true, false, true) {
      assert lo == 8 || lo == 9 || lo == 10 || lo == 11;
    }
  }

  lemma Row84Q3()
    ensures forall lo: bv8 :: 12 <= lo < 16 ==> PairAt(R84, lo) == DaaOut(0x40 | lo, true, false, true)
  {
    forall lo: bv8 | 12 <= lo < 16 ensures PairAt(R84, lo) == DaaOut(0x40 | lo, true, false, true) {
      assert lo == 12 || lo == 13 || lo == 14 || lo == 15;
    }
  }

  lemma Row85Q0()
    ensures forall lo: bv8 :: lo < 4 ==> PairAt(R85, lo) == DaaOut(0x50 | lo, true, false, true)
  {
    forall lo: bv8 | lo < 4 ensures PairAt(R85, lo) == DaaOut(0x50 | lo, true, false, true) {
      assert lo == 0 || lo == 1 || lo == 2 || lo == 3;
    }
  }

  lemma Row85Q1()
    ensures forall lo: bv8 :: 4 <= lo < 8 ==> PairAt(R85, lo) == DaaOut(0x50 | lo, true, false, true)
  {
    forall lo: bv8 | 4 <= lo < 8 ensures PairAt(R85, lo) == DaaOut(0x50 | lo, true, false, true) {
      assert lo == 4 || lo == 5 || lo == 6 || lo == 7;
    }
  }

  lemma Row85Q2()
    ensures forall lo: bv8 :: 8 <= lo < 12 ==> PairAt(R85, lo) == DaaOut(0x50 | lo, true, false, true)
  {
    forall lo: bv8 | 8 <= lo < 12 ensures PairAt(R85, lo) == DaaOut(0x50 | lo, true, false, true) {
      assert lo == 8 || lo == 9 || lo == 10 || lo == 11;
    }
  }

  lemma Row85Q3()
    ensures forall lo: bv8 :: 12 <= lo < 16 ==> PairAt(R85, lo) == DaaOut(0x50 | lo, true, false, true)
  {
    forall lo: bv8 | 12 <= lo < 16 ensures PairAt(R85, lo) == DaaOut(0x50 | lo, true, false, true) {
      assert lo == 12 || lo == 13 || lo == 14 || lo == 15;
    }
  }

  lemma Row86Q0()
    ensures forall lo: bv8 :: lo < 4 ==> PairAt(R86, lo) == DaaOut(0x60 | lo, true, false, true)
  {
    forall lo: bv8 | lo < 4 ensures PairAt(R86, lo) == DaaOut(0x60 | lo, true, false, true) {
      assert lo == 0 || lo == 1 || lo == 2 || lo == 3;
    }
  }

  lemma Row86Q1()
    ensures forall lo: bv8 :: 4 <= lo < 8 ==> PairAt(R86, lo) == DaaOut(0x60 | lo, true, false, true)
  {
    forall lo: bv8 | 4 <= lo < 8 ensures PairAt(R86, lo) == DaaOut(0x60 | lo, true, false, true) {
      assert lo == 4 || lo == 5 || lo == 6 || lo == 7;
    }
  }

  lemma Row86Q2()
    ensures forall lo: bv8 :: 8 <= lo < 12 ==> PairAt(R86, lo) == DaaOut(0x60 | lo, true, false, true)
  {
    forall lo: bv8 | 8 <= lo < 12 ensures PairAt(R86, lo) == DaaOut(0x60 | lo, true, false, true) {
      assert lo == 8 || lo == 9 || lo == 10 || lo == 11;
    }
  }

  lemma Row86Q3()
    ensures forall lo: bv8 :: 12 <= lo < 16 ==> PairAt(R86, lo) == DaaOut(0x60 | lo, true, false, true)
  {
    forall lo: bv8 | 12 <= lo < 16 ensures PairAt(R86, lo) == DaaOut(0x60 | lo, true, false, true) {
      assert lo == 12 || lo == 13 || lo == 14 || lo == 15;
    }
  }

  lemma Row87Q0()
    ensures forall lo: bv8 :: lo < 4 ==> PairAt(R87, lo) == DaaOut(0x70 | lo, true, false, true)
  {
    forall lo: bv8 | lo < 4 ensures PairAt(R87, lo) == DaaOut(0x70 | lo, true, false, true) {
      assert lo == 0 || lo == 1 || lo == 2 || lo == 3;
    }
  }

  lemma Row87Q1()
    ensures forall lo: bv8 :: 4 <= lo < 8 ==> PairAt(R87, lo) == DaaOut(0x70 | lo, true, false, true)
  {
    forall lo: bv8 | 4 <= lo < 8 ensures PairAt(R87, lo) == DaaOut(0x70 | lo, true, false, true) {
      assert lo == 4 || lo == 5 || lo == 6 || lo == 7;
    }
  }

  lemma Row87Q2()
    ensures forall lo: bv8 :: 8 <= lo < 12 ==> PairAt(R87, lo) == DaaOut(0x70 | lo, true, false, true)
  {
    forall lo: bv8 | 8 <= lo < 12 ensures PairAt(R87, lo) == DaaOut(0x70 | lo, true, false, true) {
      assert lo == 8 || lo == 9 || lo == 10 || lo == 11;
    }
  }

  lemma Row87Q3()
    ensures forall lo: bv8 :: 12 <= lo < 16 ==> PairAt(R87, lo) == DaaOut(0x70 | lo, true, false, true)
  {
    forall lo: bv8 | 12 <= lo < 16 ensures PairAt(R87, lo) == DaaOut(0x70 | lo, true, false, true) {
      assert lo == 12 || lo == 13 || lo == 14 || lo == 15;
    }
  }

  lemma Row88Q0()
    ensures forall lo: bv8 :: lo < 4 ==> PairAt(R88, lo) == DaaOut(0x80 | lo, true, false, true)
  {
    forall lo: bv8 | lo < 4 ensures PairAt(R88, lo) == DaaOut(0x80 | lo, true, false, true) {
      assert lo == 0 || lo == 1 || lo == 2 || lo == 3;
    }
  }

  lemma Row88Q1()
    ensures forall lo: bv8 :: 4 <= lo < 8 ==> PairAt(R88, lo) == DaaOut(0x80 | lo, true, false, true)
  {
    forall lo: bv8 | 4 <= lo < 8 ensures PairAt(R88, lo) == DaaOut(0x80 | lo, true, false, true) {
      assert lo == 4 || lo == 5 || lo == 6 || lo == 7;
    }
  }

  lemma Row88Q2()
    ensures forall lo: bv8 :: 8 <= lo < 12 ==> PairAt(R88, lo) == DaaOut(0x80 | lo, true, false, true)
  {
    forall lo: bv8 | 8 <= lo < 12 ensures PairAt(R88, lo) == DaaOut(0x80 | lo, true, false, true) {
      assert lo == 8 || lo == 9 || lo == 10 || lo == 11;
    }
  }

  lemma Row88Q3()
    ensures forall lo: bv8 :: 12 <= lo < 16 ==> PairAt(R88, lo) == DaaOut(0x80 | lo, true, false, true)
  {
    forall lo: bv8 | 12 <= lo < 16 ensures PairAt(R88, lo) == DaaOut(0x80 | lo, true, false, true) {
      assert lo == 12 || lo == 13 || lo == 14 || lo == 15;
    }
  }

  lemma Row89Q0()
    ensures forall lo: bv8 :: lo < 4 ==> PairAt(R89, lo) == DaaOut(0x90 | lo, true, false, true)
  {
    forall lo: bv8 | lo < 4 ensures PairAt(R89, lo) == DaaOut(0x90 | lo, true, false, true) {
      assert lo == 0 || lo == 1 || lo == 2 || lo == 3;
    }
  }

  lemma Row89Q1()
    ensures forall lo: bv8 :: 4 <= lo < 8 ==> PairAt(R89, lo) == DaaOut(0x90 | lo, true, false, true)
  {
    forall lo: bv8 | 4 <= lo < 8 ensures PairAt(R89, lo) == DaaOut(0x90 | lo, true, false, true) {
      assert lo == 4 || lo == 5 || lo == 6 || lo == 7;
    }
  }

  lemma Row89Q2()
    ensures forall lo: bv8 :: 8 <= lo < 12 ==> PairAt(R89, lo) == DaaOut(0x90 | lo, true, false, true)
  {
    forall lo: bv8 | 8 <= lo < 12 ensures PairAt(R89, lo) == DaaOut(0x90 | lo, true, false, true) {
      assert lo == 8 || lo == 9 || lo == 10 || lo == 11;
    }
  }

  lemma Row89Q3()
    ensures forall lo: bv8 :: 12 <= lo < 16 ==> PairAt(R89, lo) == DaaOut(0x90 | lo, true, false, true)
  {
    forall lo: bv8 | 12 <= lo < 16 ensures PairAt(R89, lo) == DaaOut(0x90 | lo, true, false, true) {
      assert lo == 12 || lo == 13 || lo == 14 || lo == 15;
    }
  }

  lemma Row90Q0()
    ensures forall lo: bv8 :: lo < 4 ==> PairAt(R90, lo) == DaaOut(0xa0 | lo, true, false, true)
  {
    forall lo: bv8 | lo < 4 ensures PairAt(R90, lo) == DaaOut(0xa0 | lo, true, false, true) {
      assert lo == 0 || lo == 1 || lo == 2 || lo == 3;
    }
  }

  lemma Row90Q1()
    ensures forall lo: bv8 :: 4 <= lo < 8 ==> PairAt(R90, lo) == DaaOut(0xa0 | lo, true, false, true)
  {
    forall lo: bv8 | 4 <= lo < 8 ensures PairAt(R90, lo) == DaaOut(0xa0 | lo, true, false, true) {
      assert lo == 4 || lo == 5 || lo == 6 || lo == 7;
    }
  }

  lemma Row90Q2()
    ensures forall lo: bv8 :: 8 <= lo < 12 ==> PairAt(R90, lo) == DaaOut(0xa0 | lo, true, false, true)
  {
    forall lo: bv8 | 8 <= lo < 12 ensures PairAt(R90, lo) == DaaOut(0xa0 | lo, true, false, true) {
      assert lo == 8 || lo == 9 || lo == 10 || lo == 11;
    }
  }

  lemma Row90Q3()
    ensures forall lo: bv8 :: 12 <= lo < 16 ==> PairAt(R90, lo) == DaaOut(0xa0 | lo, true, false, true)
  {
    forall lo: bv8 | 12 <= lo < 16 ensures PairAt(R90, lo) == DaaOut(0xa0 | lo, true, false, true) {
      assert lo == 12 || lo == 13 || lo == 14 || lo == 15;
    }
  }

  lemma Row91Q0()
    ensures forall lo: bv8 :: lo < 4 ==> PairAt(R91, lo) == DaaOut(0xb0 | lo, true, false, true)
  {
    forall lo: bv8 | lo < 4 ensures PairAt(R91, lo) == DaaOut(0xb0 | lo, true, false, true) {
      assert lo == 0 || lo == 1 || lo == 2 || lo == 3;
    }
  }

  lemma Row91Q1()
    ensures forall lo: bv8 :: 4 <= lo < 8 ==> PairAt(R91, lo) == DaaOut(0xb0 | lo, true, false, true)
  {
    forall lo: bv8 | 4 <= lo < 8 ensures PairAt(R91, lo) == DaaOut(0xb0 | lo, true, false, true) {
      assert lo == 4 || lo == 5 || lo == 6 || lo == 7;
    }
  }

  lemma Row91Q2()
    ensures forall lo: bv8 :: 8 <= lo < 12 ==> PairAt(R91, lo) == DaaOut(0xb0 | lo, true, false, true)
  {
    forall lo: bv8 | 8 <= lo < 12 ensures PairAt(R91, lo) == DaaOut(0xb0 | lo, true, false, true) {
      assert lo == 8 || lo == 9 || lo == 10 || lo == 11;
    }
  }

  lemma Row91Q3()
    ensures forall lo: bv8 :: 12 <= lo < 16 ==> PairAt(R91, lo) == DaaOut(0xb0 | lo, true, false, true)
  {
    forall lo: bv8 | 12 <= lo < 16 ensures PairAt(R91, lo) == DaaOut(0xb0 | lo, true, false, true) {
      assert lo == 12 || lo == 13 || lo == 14 || lo == 15;
    }
  }

  lemma Row92Q0()
    ensures forall lo: bv8 :: lo < 4 ==> PairAt(R92, lo) == DaaOut(0xc0 | lo, true, false, true)
  {
    forall lo: bv8 | lo < 4 ensures PairAt(R92, lo) == DaaOut(0xc0 | lo, true, false, true) {
      assert lo == 0 || lo == 1 || lo == 2 || lo == 3;
    }
  }

  lemma Row92Q1()
    ensures forall lo: bv8 :: 4 <= lo < 8 ==> PairAt(R92, lo) == DaaOut(0xc0 | lo, true, false, true)
  {
    forall lo: bv8 | 4 <= lo < 8 ensures PairAt(R92, lo) == DaaOut(0xc0 | lo, true, false, true) {
      assert lo == 4 || lo == 5 || lo == 6 || lo == 7;
    }
  }

  lemma Row92Q2()
    ensures forall lo: bv8 :: 8 <= lo < 12 ==> PairAt(R92, lo) == DaaOut(0xc0 | lo, true, false, true)
  {
    forall lo: bv8 | 8 <= lo < 12 ensures PairAt(R92, lo) == DaaOut(0xc0 | lo, true, false, true) {
      assert lo == 8 || lo == 9 || lo == 10 || lo == 11;
    }
  }

  lemma Row92Q3()
    ensures forall lo: bv8 :: 12 <= lo < 16 ==> PairAt(R92, lo) == DaaOut(0xc0 | lo, true, false, true)
  {
    forall lo: bv8 | 12 <= lo < 16 ensures PairAt(R92, lo) == DaaOut(0xc0 | lo, true, false, true) {
      assert lo == 12 || lo == 13 || lo == 14 || lo == 15;
    }
  }

  lemma Row93Q0()
    ensures forall lo: bv8 :: lo < 4 ==> PairAt(R93, lo) == DaaOut(0xd0 | lo, true, false, true)
  {
    forall lo: bv8 | lo < 4 ensures PairAt(R93, lo) == DaaOut(0xd0 | lo, true, false, true) {
      assert lo == 0 || lo == 1 || lo == 2 || lo == 3;
    }
  }

  lemma Row93Q1()
    ensures forall lo: bv8 :: 4 <= lo < 8 ==> PairAt(R93, lo) == DaaOut(0xd0 | lo, true, false, true)
  {
    forall lo: bv8 | 4 <= lo < 8 ensures PairAt(R93, lo) == DaaOut(0xd0 | lo, true, false, true) {
      assert lo == 4 || lo == 5 || lo == 6 || lo == 7;
    }
  }

  lemma Row93Q2()
    ensures forall lo: bv8 :: 8 <= lo < 12 ==> PairAt(R93, lo) == DaaOut(0xd0 | lo, true, false, true)
  {
    forall lo: bv8 | 8 <= lo < 12 ensures PairAt(R93, lo) == DaaOut(0xd0 | lo, true, false, true) {
      assert lo == 8 || lo == 9 || lo == 10 || lo == 11;
    }
  }

  lemma Row93Q3()
    ensures forall lo: bv8 :: 12 <= lo < 16 ==> PairAt(R93, lo) == DaaOut(0xd0 | lo, true, false, true)
  {
    forall lo: bv8 | 12 <= lo < 16 ensures PairAt(R93, lo) == DaaOut(0xd0 | lo, true, false, true) {
      assert lo == 12 || lo == 13 || lo == 14 || lo == 15;
    }
  }

  lemma Row94Q0()
    ensures forall lo: bv8 :: lo < 4 ==> PairAt(R94, lo) == DaaOut(0xe0 | lo, true, false, true)
  {
    forall lo: bv8 | lo < 4 ensures PairAt(R94, lo) == DaaOut(0xe0 | lo, true, false, true) {
      assert lo == 0 || lo == 1 || lo == 2 || lo == 3;
    }
  }

  lemma Row94Q1()
    ensures forall lo: bv8 :: 4 <= lo < 8 ==> PairAt(R94, lo) == DaaOut(0xe0 | lo, true, false, true)
  {
    forall lo: bv8 | 4 <= lo < 8 ensures PairAt(R94, lo) == DaaOut(0xe0 | lo, true, false, true) {
      assert lo == 4 || lo == 5 || lo == 6 || lo == 7;
    }
  }

  lemma Row94Q2()
    ensures forall lo: bv8 :: 8 <= lo < 12 ==> PairAt(R94, lo) == DaaOut(0xe0 | lo, true, false, true)
  {
    forall lo: bv8 | 8 <= lo < 12 ensures PairAt(R94, lo) == DaaOut(0xe0 | lo, true, false, true) {
      assert lo == 8 || lo == 9 || lo == 10 || lo == 11;
    }
  }

  lemma Row94Q3()
    ensures forall lo: bv8 :: 12 <= lo < 16 ==> PairAt(R94, lo) == DaaOut(0xe0 | lo, true, false, true)
  {
    forall lo: bv8 | 12 <= lo < 16 ensures PairAt(R94, lo) == DaaOut(0xe0 | lo, true, false, true) {
      assert lo == 12 || lo == 13 || lo == 14 || lo == 15;
    }
  }

  lemma Row95Q0()
    ensures forall lo: bv8 :: lo < 4 ==> PairAt(R95, lo) == DaaOut(0xf0 | lo, true, false, true)
  {
    forall lo: bv8 | lo < 4 ensures PairAt(R95, lo) == DaaOut(0xf0 | lo, true, false, true) {
      assert lo == 0 || lo == 1 || lo == 2 || lo == 3;
    }
  }

  lemma Row95Q1()
    ensures forall lo: bv8 :: 4 <= lo < 8 ==> PairAt(R95, lo) == DaaOut(0xf0 | lo, true, false, true)
  {
    forall lo: bv8 | 4 <= lo < 8 ensures PairAt(R95, lo) == DaaOut(0xf0 | lo, true, false, true) {
      assert lo == 4 || lo == 5 || lo == 6 || lo == 7;
    }
  }

  lemma Row95Q2()
    ensures forall lo: bv8 :: 8 <= lo < 12 ==> PairAt(R95, lo) == DaaOut(0xf0 | lo, true, false, true)
  {
    forall lo: bv8 | 8 <= lo < 12 ensures PairAt(R95, lo) == DaaOut(0xf0 | lo, true, false, true) {
      assert lo == 8 || lo == 9 || lo == 10 || lo == 11;
    }
  }

  lemma Row95Q3()
    ensures forall lo: bv8 :: 12 <= lo < 16 ==> PairAt(R95, lo) == DaaOut(0xf0 | lo, true, false, true)
  {
    forall lo: bv8 | 12 <= lo < 16 ensures PairAt(R95, lo) == DaaOut(0xf0 | lo, true, false, true) {
      assert lo == 12 || lo == 13 || lo == 14 || lo == 15;
    }
  }

  lemma Row96Q0()
    ensures forall lo: bv8 :: lo < 4 ==> PairAt(R96, lo) == DaaOut(0x00 | lo, false, true, true)
  {
    forall lo: bv8 | lo < 4 ensures PairAt(R96, lo) == DaaOut(0x00 | lo, false, true, true) {
      assert lo == 0 || lo == 1 || lo == 2 || lo == 3;
    }
  }

  lemma Row96Q1()
    ensures forall lo: bv8 :: 4 <= lo < 8 ==> PairAt(R96, lo) == DaaOut(0x00 | lo, false, true, true)
  {
    forall lo: bv8 | 4 <= lo < 8 ensures PairAt(R96, lo) == DaaOut(0x00 | lo, false, true, true) {
      assert lo == 4 || lo == 5 || lo == 6 || lo == 7;
    }
  }

  lemma Row96Q2()
    ensures forall lo: bv8 :: 8 <= lo < 12 ==> PairAt(R96, lo) == DaaOut(0x00 | lo, false, true, true)
  {
    forall lo: bv8 | 8 <= lo < 12 ensures PairAt(R96, lo) == DaaOut(0x00 | lo, false, true, true) {
      assert lo == 8 || lo == 9 || lo == 10 || lo == 11;
    }
  }

  lemma Row96Q3()
    ensures forall lo: bv8 :: 12 <= lo < 16 ==> PairAt(R96, lo) == DaaOut(0x00 | lo, false, true, true)
  {
    forall lo: bv8 | 12 <= lo < 16 ensures PairAt(R96, lo) == DaaOut(0x00 | lo, false, true, true) {
      assert lo == 12 || lo == 13 || lo == 14 || lo == 15;
    }
  }

  lemma Row97Q0()
    ensures forall lo: bv8 :: lo < 4 ==> PairAt(R97, lo) == DaaOut(0x10 | lo, false, true, true)
  {
    forall lo: bv8 | lo < 4 ensures PairAt(R97, lo) == DaaOut(0x10 | lo, false, true, true) {
      assert lo == 0 || lo == 1 || lo == 2 || lo == 3;
    }
  }

  lemma Row97Q1()
    ensures forall lo: bv8 :: 4 <= lo < 8 ==> PairAt(R97, lo) == DaaOut(0x10 | lo, false, true, true)
  {
    forall lo: bv8 | 4 <= lo < 8 ensures PairAt(R97, lo) == DaaOut(0x10 | lo, false, true, true) {
      assert lo == 4 || lo == 5 || lo == 6 || lo == 7;
    }
  }

  lemma Row97Q2()
    ensures forall lo: bv8 :: 8 <= lo < 12 ==> PairAt(R97, lo) == DaaOut(0x10 | lo, false, true, true)
  {
    forall lo: bv8 | 8 <= lo < 12 ensures PairAt(R97, lo) == DaaOut(0x10 | lo, false, true, true) {
      assert lo == 8 || lo == 9 || lo == 10 || lo == 11;
    }
  }

  lemma Row97Q3()
    ensures forall lo: bv8 :: 12 <= lo < 16 ==> PairAt(R97, lo) == DaaOut(0x10 | lo, false, true, true)
  {
    forall lo: bv8 | 12 <= lo < 16 ensures PairAt(R97, lo) == DaaOut(0x10 | lo, false, true, true) {
      assert lo == 12 || lo == 13 || lo == 14 || lo == 15;
    }
  }

  lemma Row98Q0()
    ensures forall lo: bv8 :: lo < 4 ==> PairAt(R98, lo) == DaaOut(0x20 | lo, false, true, true)
  {
    forall lo: bv8 | lo < 4 ensures PairAt(R98, lo) == DaaOut(0x20 | lo, false, true, true) {
      assert lo == 0 || lo == 1 || lo == 2 || lo == 3;
    }
  }

  lemma Row98Q1()
    ensures forall lo: bv8 :: 4 <= lo < 8 ==> PairAt(R98, lo) == DaaOut(0x20 | lo, false, true, true)
  {
    forall lo: bv8 | 4 <= lo < 8 ensures PairAt(R98, lo) == DaaOut(0x20 | lo, false, true, true) {
      assert lo == 4 || lo == 5 || lo == 6 || lo == 7;
    }
  }

  lemma Row98Q2()
    ensures forall lo: bv8 :: 8 <= lo < 12 ==> PairAt(R98, lo) == DaaOut(0x20 | lo, false, true, true)
  {
    forall lo: bv8 | 8 <= lo < 12 ensures PairAt(R98, lo) == DaaOut(0x20 | lo, false, true, true) {
      assert lo == 8 || lo == 9 || lo == 10 || lo == 11;
    }
  }

  lemma Row98Q3()
    ensures forall lo: bv8 :: 12 <= lo < 16 ==> PairAt(R98, lo) == DaaOut(0x20 | lo, false, true, true)
  {
    forall lo: bv8 | 12 <= lo < 16 ensures PairAt(R98, lo) == DaaOut(0x20 | lo, false, true, true) {
      assert lo == 12 || lo == 13 || lo == 14 || lo == 15;
    }
  }

  lemma Row99Q0()
    ensures forall lo: bv8 :: lo < 4 ==> PairAt(R99, lo) == DaaOut(0x30 | lo, false, true, true)
  {
    forall lo: bv8 | lo < 4 ensures PairAt(R99, lo) == DaaOut(0x30 | lo, false, true, true) {
      assert lo == 0 || lo == 1 || lo == 2 || lo == 3;
    }
  }

  lemma Row99Q1()
    ensures forall lo: bv8 :: 4 <= lo < 8 ==> PairAt(R99, lo) == DaaOut(0x30 | lo, false, true, true)
  {
    forall lo: bv8 | 4 <= lo < 8 ensures PairAt(R99, lo) == DaaOut(0x30 | lo, false, true, true) {
      assert lo == 4 || lo == 5 || lo == 6 || lo == 7;
    }
  }

  lemma Row99Q2()
    ensures forall lo: bv8 :: 8 <= lo < 12 ==> PairAt(R99, lo) == DaaOut(0x30 | lo, false, true, true)
  {
    forall lo: bv8 | 8 <= lo < 12 ensures PairAt(R99, lo) == DaaOut(0x30 | lo, false, true, true) {
      assert lo == 8 || lo == 9 || lo == 10 || lo == 11;
    }
  }

  lemma Row99Q3()
    ensures forall lo: bv8 :: 12 <= lo < 16 ==> PairAt(R99, lo) == DaaOut(0x30 | lo, false, true, true)
  {
    forall lo: bv8 | 12 <= lo < 16 ensures PairAt(R99, lo) == DaaOut(0x30 | lo, false, true, true) {
      assert lo == 12 || lo == 13 || lo == 14 || lo == 15;
    }
  }

  lemma Row100Q0()
    ensures forall lo: bv8 :: lo < 4 ==> PairAt(R100, lo) == DaaOut(0x40 | lo, false, true, true)
  {
    forall lo: bv8 | lo < 4 ensures PairAt(R100, lo) == DaaOut(0x40 | lo, false, true, true) {
      assert lo == 0 || lo == 1 || lo == 2 || lo == 3;
    }
  }

  lemma Row100Q1()
    ensures forall lo: bv8 :: 4 <= lo < 8 ==> PairAt(R100, lo) == DaaOut(0x40 | lo, false, true, true)
  {
    forall lo: bv8 | 4 <= lo < 8 ensures PairAt(R100, lo) == DaaOut(0x40 | lo, false, true, true) {
      assert lo == 4 || lo == 5 || lo == 6 || lo == 7;
    }
  }

  lemma Row100Q2()
    ensures forall lo: bv8 :: 8 <= lo < 12 ==> PairAt(R100, lo) == DaaOut(0x40 | lo, false, true, true)
  {
    forall lo: bv8 | 8 <= lo < 12 ensures PairAt(R100, lo) == DaaOut(0x40 | lo, false, true, true) {
      assert lo == 8 || lo == 9 || lo == 10 || lo == 11;
    }
  }

  lemma Row100Q3()
    ensures forall lo: bv8 :: 12 <= lo < 16 ==> PairAt(R100, lo) == DaaOut(0x40 | lo, false, true, true)
  {
    forall lo: bv8 | 12 <= lo < 16 ensures PairAt(R100, lo) == DaaOut(0x40 | lo, false, true, true) {
      assert lo == 12 || lo == 13 || lo == 14 || lo == 15;
    }
  }

  lemma Row101Q0()
    ensures forall lo: bv8 :: lo < 4 ==> PairAt(R101, lo) == DaaOut(0x50 | lo, false, true, true)
  {
    forall lo: bv8 | lo < 4 ensures PairAt(R101, lo) == DaaOut(0x50 | lo, false, true, true) {
      assert lo == 0 || lo == 1 || lo == 2 || lo == 3;
    }
  }

  lemma Row101Q1()
    ensures forall lo: bv8 :: 4 <= lo < 8 ==> PairAt(R101, lo) == DaaOut(0x50 | lo, false, true, true)
  {
    forall lo: bv8 | 4 <= lo < 8 ensures PairAt(R101, lo) == DaaOut(0x50 | lo, false, true, true) {
      assert lo == 4 || lo == 5 || lo == 6 || lo == 7;
    }
  }

  lemma Row101Q2()
    ensures forall lo: bv8 :: 8 <= lo < 12 ==> PairAt(R101, lo) == DaaOut(0x50 | lo, false, true, true)
  {
    forall lo: bv8 | 8 <= lo < 12 ensures PairAt(R101, lo) == DaaOut(0x50 | lo, false, true, true) {
      assert lo == 8 || lo == 9 || lo == 10 || lo == 11;
    }
  }

  lemma Row101Q3()
    ensures forall lo: bv8 :: 12 <= lo < 16 ==> PairAt(R101, lo) == DaaOut(0x50 | lo, false, true, true)
  {
    forall lo: bv8 | 12 <= lo < 16 ensures PairAt(R101, lo) == DaaOut(0x50 | lo, false, true, true) {
      assert lo == 12 || lo == 13 || lo == 14 || lo == 15;
    }
  }

  lemma Row102Q0()
    ensures forall lo: bv8 :: lo < 4 ==> PairAt(R102, lo) == DaaOut(0x60 | lo, false, true, true)
  {
    forall lo: bv8 | lo < 4 ensures PairAt(R102, lo) == DaaOut(0x60 | lo, false, true, true) {
      assert lo == 0 || lo == 1 || lo == 2 || lo == 3;
    }
  }

  lemma Row102Q1()
    ensures forall lo: bv8 :: 4 <= lo < 8 ==> PairAt(R102, lo) == DaaOut(0x60 | lo, false, true, true)
  {
    forall lo: bv8 | 4 <= lo < 8 ensures PairAt(R102, lo) == DaaOut(0x60 | lo, false, true, true) {
      assert lo == 4 || lo == 5 || lo == 6 || lo == 7;
    }
  }

  lemma Row102Q2()
    ensures forall lo: bv8 :: 8 <= lo < 12 ==> PairAt(R102, lo) == DaaOut(0x60 | lo, false, true, true)
  {
    forall lo: bv8 | 8 <= lo < 12 ensures PairAt(R102, lo) == DaaOut(0x60 | lo, false, true, true) {
      assert lo == 8 || lo == 9 || lo == 10 || lo == 11;
    }
  }

  lemma Row102Q3()
    ensures forall lo: bv8 :: 12 <= lo < 16 ==> PairAt(R102, lo) == DaaOut(0x60 | lo, false, true, true)
  {
    forall lo: bv8 | 12 <= lo < 16 ensures PairAt(R102, lo) == DaaOut(0x60 | lo, false, true, true) {
      assert lo == 12 || lo == 13 || lo == 14 || lo == 15;
    }
  }

  lemma Row103Q0()
    ensures forall lo: bv8 :: lo < 4 ==> PairAt(R103, lo) == DaaOut(0x70 | lo, false, true, true)
  {
    forall lo: bv8 | lo < 4 ensures PairAt(R103, lo) == DaaOut(0x70 | lo, false, true, true) {
      assert lo == 0 || lo == 1 || lo == 2 || lo == 3;
    }
  }

  lemma Row103Q1()
    ensures forall lo: bv8 :: 4 <= lo < 8 ==> PairAt(R103, lo) == DaaOut(0x70 | lo, false, true, true)
  {
    forall lo: bv8 | 4 <= lo < 8 ensures PairAt(R103, lo) == DaaOut(0x70 | lo, false, true, true) {
      assert lo == 4 || lo == 5 || lo == 6 || lo == 7;
    }
  }

  lemma Row103Q2()
    ensures forall lo: bv8 :: 8 <= lo < 12 ==> PairAt(R103, lo) == DaaOut(0x70 | lo, false, true, true)
  {
    forall lo: bv8 | 8 <= lo < 12 ensures PairAt(R103, lo) == DaaOut(0x70 | lo, false, true, true) {
      assert lo == 8 || lo == 9 || lo == 10 || lo == 11;
    }
  }

  lemma Row103Q3()
    ensures forall lo: bv8 :: 12 <= lo < 16 ==> PairAt(R103, lo) == DaaOut(0x70 | lo, false, true, true)
  {
    forall lo: bv8 | 12 <= lo < 16 ensures PairAt(R103, lo) == DaaOut(0x70 | lo, false, true, true) {
      assert lo == 12 || lo == 13 || lo == 14 || lo == 15;
    }
  }

  lemma Row104Q0()
    ensures forall lo: bv8 :: lo < 4 ==> PairAt(R104, lo) == DaaOut(0x80 | lo, false, true, true)
  {
    forall lo: bv8 | lo < 4 ensures PairAt(R104, lo) == DaaOut(0x80 | lo, false, true, true) {
      assert lo == 0 || lo == 1 || lo == 2 || lo == 3;
    }
  }

  lemma Row104Q1()
    ensures forall lo: bv8 :: 4 <= lo < 8 ==> PairAt(R104, lo) == DaaOut(0x80 | lo, false, true, true)
  {
    forall lo: bv8 | 4 <= lo < 8 ensures PairAt(R104, lo) == DaaOut(0x80 | lo, false, true, true) {
      assert lo == 4 || lo == 5 || lo == 6 || lo == 7;
    }
  }

  lemma Row104Q2()
    ensures forall lo: bv8 :: 8 <= lo < 12 ==> PairAt(R104, lo) == DaaOut(0x80 | lo, false, true, true)
  {
    forall lo: bv8 | 8 <= lo < 12 ensures PairAt(R104, lo) == DaaOut(0x80 | lo, false, true, true) {
      assert lo == 8 || lo == 9 || lo == 10 || lo == 11;
    }
  }

  lemma Row104Q3()
    ensures forall lo: bv8 :: 12 <= lo < 16 ==> PairAt(R104, lo) == DaaOut(0x80 | lo, false, true, true)
  {
    forall lo: bv8 | 12 <= lo < 16 ensures PairAt(R104, lo) == DaaOut(0x80 | lo, false, true, true) {
      assert lo == 12 || lo == 13 || lo == 14 || lo == 15;
    }
  }

  lemma Row105Q0()
    ensures forall lo: bv8 :: lo < 4 ==> PairAt(R105, lo) == DaaOut(0x90 | lo, false, true, true)
  {
    forall lo: bv8 | lo < 4 ensures PairAt(R105, lo) == DaaOut(0x90 | lo, false, true, true) {
      assert lo == 0 || lo == 1 || lo == 2 || lo == 3;
    }
  }

  lemma Row105Q1()
    ensures forall lo: bv8 :: 4 <= lo < 8 ==> PairAt(R105, lo) == DaaOut(0x90 | lo, false, true, true)
  {
    forall lo: bv8 | 4 <= lo < 8 ensures PairAt(R105, lo) == DaaOut(0x90 | lo, false, true, true) {
      assert lo == 4 || lo == 5 || lo == 6 || lo == 7;
    }
  }

  lemma Row105Q2()
    ensures forall lo: bv8 :: 8 <= lo < 12 ==> PairAt(R105, lo) == DaaOut(0x90 | lo, false, true, true)
  {
    forall lo: bv8 | 8 <= lo < 12 ensures PairAt(R105, lo) == DaaOut(0x90 | lo, false, true, true) {
      assert lo == 8 || lo == 9 || lo == 10 || lo == 11;
    }
  }

  lemma Row105Q3()
    ensures forall lo: bv8 :: 12 <= lo < 16 ==> PairAt(R105, lo) == DaaOut(0x90 | lo, false, true, true)
  {
    forall lo: bv8 | 12 <= lo < 16 ensures PairAt(R105, lo) == DaaOut(0x90 | lo, false, true, true) {
      assert lo == 12 || lo == 13 || lo == 14 || lo == 15;
    }
  }

  lemma Row106Q0()
    ensures forall lo: bv8 :: lo < 4 ==> PairAt(R106, lo) == DaaOut(0xa0 | lo, false, true, true)
  {
    forall lo: bv8 | lo < 4 ensures PairAt(R106, lo) == DaaOut(0xa0 | lo, false, true, true) {
      assert lo == 0 || lo == 1 || lo == 2 || lo == 3;
    }
  }

  lemma Row106Q1()
    ensures forall lo: bv8 :: 4 <= lo < 8 ==> PairAt(R106, lo) == DaaOut(0xa0 | lo, false, true, true)
  {
    forall lo: bv8 | 4 <= lo < 8 ensures PairAt(R106, lo) == DaaOut(0xa0 | lo, false, true, true) {
      assert lo == 4 || lo == 5 || lo == 6 || lo == 7;
    }
  }

  lemma Row106Q2()
    ensures forall lo: bv8 :: 8 <= lo < 12 ==> PairAt(R106, lo) == DaaOut(0xa0 | lo, false, true, true)
  {
    forall lo: bv8 | 8 <= lo < 12 ensures PairAt(R106, lo) == DaaOut(0xa0 | lo, false, true, true) {
      assert lo == 8 || lo == 9 || lo == 10 || lo == 11;
    }
  }

  lemma Row106Q3()
    ensures forall lo: bv8 :: 12 <= lo < 16 ==> PairAt(R106, lo) == DaaOut(0xa0 | lo, false, true, true)
  {
    forall lo: bv8 | 12 <= lo < 16 ensures PairAt(R106, lo) == DaaOut(0xa0 | lo, false, true, true) {
      assert lo == 12 || lo == 13 || lo == 14 || lo == 15;
    }
  }

  lemma Row107Q0()
    ensures forall lo: bv8 :: lo < 4 ==> PairAt(R107, lo) == DaaOut(0xb0 | lo, false, true, true)
  {
    forall lo: bv8 | lo < 4 ensures PairAt(R107, lo) == DaaOut(0xb0 | lo, false, true, true) {
      assert lo == 0 || lo == 1 || lo == 2 || lo == 3;
    }
  }

  lemma Row107Q1()
    ensures forall lo: bv8 :: 4 <= lo < 8 ==> PairAt(R107, lo) == DaaOut(0xb0 | lo, false, true, true)
  {
    forall lo: bv8 | 4 <= lo < 8 ensures PairAt(R107, lo) == DaaOut(0xb0 | lo, false, true, true) {
      assert lo == 4 || lo == 5 || lo == 6 || lo == 7;
    }
  }

  lemma Row107Q2()
    ensures forall lo: bv8 :: 8 <= lo < 12 ==> PairAt(R107, lo) == DaaOut(0xb0 | lo, false, true, true)
  {
    forall lo: bv8 | 8 <= lo < 12 ensures PairAt(R107, lo) == DaaOut(0xb0 | lo, false, true, true) {
      assert lo == 8 || lo == 9 || lo == 10 || lo == 11;
    }
  }

  lemma Row107Q3()
    ensures forall lo: bv8 :: 12 <= lo < 16 ==> PairAt(R107, lo) == DaaOut(0xb0 | lo, false, true, true)
  {
    forall lo: bv8 | 12 <= lo < 16 ensures PairAt(R107, lo) == DaaOut(0xb0 | lo, false, true, true) {
      assert lo == 12 || lo == 13 || lo == 14 || lo == 15;
    }
  }

  lemma Row108Q0()
    ensures forall lo: bv8 :: lo < 4 ==> PairAt(R108, lo) == DaaOut(0xc0 | lo, false, true, true)
  {
    forall lo: bv8 | lo < 4 ensures PairAt(R108, lo) == DaaOut(0xc0 | lo, false, true, true) {
      assert lo == 0 || lo == 1 || lo == 2 || lo == 3;
    }
  }

  lemma Row108Q1()
    ensures forall lo: bv8 :: 4 <= lo < 8 ==> PairAt(R108, lo) == DaaOut(0xc0 | lo, false, true, true)
  {
    forall lo: bv8 | 4 <= lo < 8 ensures PairAt(R108, lo) == DaaOut(0xc0 | lo, false, true, true) {
      assert lo == 4 || lo == 5 || lo == 6 || lo == 7;
    }
  }

  lemma Row108Q2()
    ensures forall lo: bv8 :: 8 <= lo < 12 ==> PairAt(R108, lo) == DaaOut(0xc0 | lo, false, true, true)
  {
    forall lo: bv8 | 8 <= lo < 12 ensures PairAt(R108, lo) == DaaOut(0xc0 | lo, false, true, true) {
      assert lo == 8 || lo == 9 || lo == 10 || lo == 11;
    }
  }

  lemma Row108Q3()
    ensures forall lo: bv8 :: 12 <= lo < 16 ==> PairAt(R108, lo) == DaaOut(0xc0 | lo, false, true, true)
  {
    forall lo: bv8 | 12 <= lo < 16 ensures PairAt(R108, lo) == DaaOut(0xc0 | lo, false, true, true) {
      assert lo == 12 || lo == 13 || lo == 14 || lo == 15;
    }
  }

  lemma Row109Q0()
    ensures forall lo: bv8 :: lo < 4 ==> PairAt(R109, lo) == DaaOut(0xd0 | lo, false, true, true)
  {
    forall lo: bv8 | lo < 4 ensures PairAt(R109, lo) == DaaOut(0xd0 | lo, false, true, true) {
      assert lo == 0 || lo == 1 || lo == 2 || lo == 3;
    }
  }

  lemma Row109Q1()
    ensures forall lo: bv8 :: 4 <= lo < 8 ==> PairAt(R109, lo) == DaaOut(0xd0 | lo, false, true, true)
  {
    forall lo: bv8 | 4 <= lo < 8 ensures PairAt(R109, lo) == DaaOut(0xd0 | lo, false, true, true) {
      assert lo == 4 || lo == 5 || lo == 6 || lo == 7;
    }
  }

  lemma Row109Q2()
    ensures forall lo: bv8 :: 8 <= lo < 12 ==> PairAt(R109, lo) == DaaOut(0xd0 | lo, false, true, true)
  {
    forall lo: bv8 | 8 <= lo < 12 ensures PairAt(R109, lo) == DaaOut(0xd0 | lo, false, true, true) {
      assert lo == 8 || lo == 9 || lo == 10 || lo == 11;
    }
  }

  lemma Row109Q3()
    ensures forall lo: bv8 :: 12 <= lo < 16 ==> PairAt(R109, lo) == DaaOut(0xd0 | lo, false, true, true)
  {
    forall lo: bv8 | 12 <= lo < 16 ensures PairAt(R109, lo) == DaaOut(0xd0 | lo, false, true, true) {
      assert lo == 12 || lo == 13 || lo == 14 || lo == 15;
    }
  }

  lemma Row110Q0()
    ensures forall lo: bv8 :: lo < 4 ==> PairAt(R110, lo) == DaaOut(0xe0 | lo, false, true, true)
  {
    forall lo: bv8 | lo < 4 ensures PairAt(R110, lo) == DaaOut(0xe0 | lo, false, true, true) {
      assert lo == 0 || lo == 1 || lo == 2 || lo == 3;
    }
  }

  lemma Row110Q1()
    ensures forall lo: bv8 :: 4 <= lo < 8 ==> PairAt(R110, lo) == DaaOut(0xe0 | lo, false, true, true)
  {
    forall lo: bv8 | 4 <= lo < 8 ensures PairAt(R110, lo) == DaaOut(0xe0 | lo, false, true, true) {
      assert lo == 4 || lo == 5 || lo == 6 || lo == 7;
    }
  }

  lemma Row110Q2()
    ensures forall lo: bv8 :: 8 <= lo < 12 ==> PairAt(R110, lo) == DaaOut(0xe0 | lo, false, true, true)
  {
    forall lo: bv8 | 8 <= lo < 12 ensures PairAt(R110, lo) == DaaOut(0xe0 | lo, false, true, true) {
      assert lo == 8 || lo == 9 || lo == 10 || lo == 11;
    }
  }

  lemma Row110Q3()
    ensures forall lo: bv8 :: 12 <= lo < 16 ==> PairAt(R110, lo) == DaaOut(0xe0 | lo, false, true, true)
  {
    forall lo: bv8 | 12 <= lo < 16 ensures PairAt(R110, lo) == DaaOut(0xe0 | lo, false, true, true) {
      assert lo == 12 || lo == 13 || lo == 14 || lo == 15;
    }
  }

  lemma Row111Q0()
    ensures forall lo: bv8 :: lo < 4 ==> PairAt(R111, lo) == DaaOut(0xf0 | lo, false, true, true)
  {
    forall lo: bv8 | lo < 4 ensures PairAt(R111, lo) == DaaOut(0xf0 | lo, false, true, true) {
      assert lo == 0 || lo == 1 || lo == 2 || lo == 3;
    }
  }

  lemma Row111Q1()
    ensures forall lo: bv8 :: 4 <= lo < 8 ==> PairAt(R111, lo) == DaaOut(0xf0 | lo, false, true, true)
  {
    forall lo: bv8 | 4 <= lo < 8 ensures PairAt(R111, lo) == DaaOut(0xf0 | lo, false, true, true) {
      assert lo == 4 || lo == 5 || lo == 6 || lo == 7;
    }
  }

  lemma Row111Q2()
    ensures forall lo: bv8 :: 8 <= lo < 12 ==> PairAt(R111, lo) == DaaOut(0xf0 | lo, false, true, true)
  {
    forall lo: bv8 | 8 <= lo < 12 ensures PairAt(R111, lo) == DaaOut(0xf0 | lo, false, true, true) {
      assert lo == 8 || lo == 9 || lo == 10 || lo == 11;
    }
  }

  lemma Row111Q3()
    ensures forall lo: bv8 :: 12 <= lo < 16 ==> PairAt(R111, lo) == DaaOut(0xf0 | lo, false, true, true)
  {
    forall lo: bv8 | 12 <= lo < 16 ensures PairAt(R111, lo) == DaaOut(0xf0 | lo, false, true, true) {
      assert lo == 12 || lo == 13 || lo == 14 || lo == 15;
    }
  }

  lemma Row112Q0()
    ensures forall lo: bv8 :: lo < 4 ==> PairAt(R112, lo) == DaaOut(0x00 | lo, true, true, true)
  {
    forall lo: bv8 | lo < 4 ensures PairAt(R112, lo) == DaaOut(0x00 | lo, true, true, true) {
      assert lo == 0 || lo == 1 || lo == 2 || lo == 3;
    }
  }

  lemma Row112Q1()
    ensures forall lo: bv8 :: 4 <= lo < 8 ==> PairAt(R112, lo) == DaaOut(0x00 | lo, true, true, true)
  {
    forall lo: bv8 | 4 <= lo < 8 ensures PairAt(R112, lo) == DaaOut(0x00 | lo, true, true, true) {
      assert lo == 4 || lo == 5 || lo == 6 || lo == 7;
    }
  }

  lemma Row112Q2()
    ensures forall lo: bv8 :: 8 <= lo < 12 ==> PairAt(R112, lo) == DaaOut(0x00 | lo, true, true, true)
  {
    forall lo: bv8 | 8 <= lo < 12 ensures PairAt(R112, lo) == DaaOut(0x00 | lo, true, true, true) {
      assert lo == 8 || lo == 9 || lo == 10 || lo == 11;
    }
  }

  lemma Row112Q3()
    ensures forall lo: bv8 :: 12 <= lo < 16 ==> PairAt(R112, lo) == DaaOut(0x00 | lo, true, true, true)
  {
    forall lo: bv8 | 12 <= lo < 16 ensures PairAt(R112, lo) == DaaOut(0x00 | lo, true, true, true) {
      assert lo == 12 || lo == 13 || lo == 14 || lo == 15;
    }
  }

  lemma Row113Q0()
    ensures forall lo: bv8 :: lo < 4 ==> PairAt(R113, lo) == DaaOut(0x10 | lo, true, true, true)
  {
    forall lo: bv8 | lo < 4 ensures PairAt(R113, lo) == DaaOut(0x10 | lo, true, true, true) {
      assert lo == 0 || lo == 1 || lo == 2 || lo == 3;
    }
  }

  lemma Row113Q1()
    ensures forall lo: bv8 :: 4 <= lo < 8 ==> PairAt(R113, lo) == DaaOut(0x10 | lo, true, true, true)
  {
    forall lo: bv8 | 4 <= lo < 8 ensures PairAt(R113, lo) == DaaOut(0x10 | lo, true, true, true) {
      assert lo == 4 || lo == 5 || lo == 6 || lo == 7;
    }
  }

  lemma Row113Q2()
    ensures forall lo: bv8 :: 8 <= lo < 12 ==> PairAt(R113, lo) == DaaOut(0x10 | lo, true, true, true)
  {
    forall lo: bv8 | 8 <= lo < 12 ensures PairAt(R113, lo) == DaaOut(0x10 | lo, true, true, true) {
      assert lo == 8 || lo == 9 || lo == 10 || lo == 11;
    }
  }

  lemma Row113Q3()
    ensures forall lo: bv8 :: 12 <= lo < 16 ==> PairAt(R113, lo) == DaaOut(0x10 | lo, true, true, true)
  {
    forall lo: bv8 | 12 <= lo < 16 ensures PairAt(R113, lo) == DaaOut(0x10 | lo, true, true, true) {
      assert lo == 12 || lo == 13 || lo == 14 || lo == 15;
    }
  }

  lemma Row114Q0()
    ensures forall lo: bv8 :: lo < 4 ==> PairAt(R114, lo) == DaaOut(0x20 | lo, true, true, true)
  {
    forall lo: bv8 | lo < 4 ensures PairAt(R114, lo) == DaaOut(0x20 | lo, true, true, true) {
      assert lo == 0 || lo == 1 || lo == 2 || lo == 3;
    }
  }

  lemma Row114Q1()
    ensures forall lo: bv8 :: 4 <= lo < 8 ==> PairAt(R114, lo) == DaaOut(0x20 | lo, true, true, true)
  {
    forall lo: bv8 | 4 <= lo < 8 ensures PairAt(R114, lo) == DaaOut(0x20 | lo, true, true, true) {
      assert lo == 4 || lo == 5 || lo == 6 || lo == 7;
    }
  }

  lemma Row114Q2()
    ensures forall lo: bv8 :: 8 <= lo < 12 ==> PairAt(R114, lo) == DaaOut(0x20 | lo, true, true, true)
  {
    forall lo: bv8 | 8 <= lo < 12 ensures PairAt(R114, lo) == DaaOut(0x20 | lo, true, true, true) {
      assert lo == 8 || lo == 9 || lo == 10 || lo == 11;
    }
  }

  lemma Row114Q3()
    ensures forall lo: bv8 :: 12 <= lo < 16 ==> PairAt(R114, lo) == DaaOut(0x20 | lo, true, true, true)
  {
    forall lo: bv8 | 12 <= lo < 16 ensures PairAt(R114, lo) == DaaOut(0x20 | lo, true, true, true) {
      assert lo == 12 || lo == 13 || lo == 14 || lo == 15;
    }
  }

  lemma Row115Q0()
    ensures forall lo: bv8 :: lo < 4 ==> PairAt(R115, lo) == DaaOut(0x30 | lo, true, true, true)
  {
    forall lo: bv8 | lo < 4 ensures PairAt(R115, lo) == DaaOut(0x30 | lo, true, true, true) {
      assert lo == 0 || lo == 1 || lo == 2 || lo == 3;
    }
  }

  lemma Row115Q1()
    ensures forall lo: bv8 :: 4 <= lo < 8 ==> PairAt(R115, lo) == DaaOut(0x30 | lo, true, true, true)
  {
    forall lo: bv8 | 4 <= lo < 8 ensures PairAt(R115, lo) == DaaOut(0x30 | lo, true, true, true) {
      assert lo == 4 || lo == 5 || lo == 6 || lo == 7;
    }
  }

  lemma Row115Q2()
    ensures forall lo: bv8 :: 8 <= lo < 12 ==> PairAt(R115, lo) == DaaOut(0x30 | lo, true, true, true)
  {
    forall lo: bv8 | 8 <= lo < 12 ensures PairAt(R115, lo) == DaaOut(0x30 | lo, true, true, true) {
      assert lo == 8 || lo == 9 || lo == 10 || lo == 11;
    }
  }

  lemma Row115Q3()
    ensures forall lo: bv8 :: 12 <= lo < 16 ==> PairAt(R115, lo) == DaaOut(0x30 | lo, true, true, true)
  {
    forall lo: bv8 | 12 <= lo < 16 ensures PairAt(R115, lo) == DaaOut(0x30 | lo, true, true, true) {
      assert lo == 12 || lo == 13 || lo == 14 || lo == 15;
    }
  }

  lemma Row116Q0()
    ensures forall lo: bv8 :: lo < 4 ==> PairAt(R116, lo) == DaaOut(0x40 | lo, true, true, true)
  {
    forall lo: bv8 | lo < 4 ensures PairAt(R116, lo) == DaaOut(0x40 | lo, true, true, true) {
      assert lo == 0 || lo == 1 || lo == 2 || lo == 3;
    }
  }

  lemma Row116Q1()
    ensures forall lo: bv8 :: 4 <= lo < 8 ==> PairAt(R116, lo) == DaaOut(0x40 | lo, true, true, true)
  {
    forall lo: bv8 | 4 <= lo < 8 ensures PairAt(R116, lo) == DaaOut(0x40 | lo, true, true, true) {
      assert lo == 4 || lo == 5 || lo == 6 || lo == 7;
    }
  }

  lemma Row116Q2()
    ensures forall lo: bv8 :: 8 <= lo < 12 ==> PairAt(R116, lo) == DaaOut(0x40 | lo, true, true, true)
  {
    forall lo: bv8 | 8 <= lo < 12 ensures PairAt(R116, lo) == DaaOut(0x40 | lo, true, true, true) {
      assert lo == 8 || lo == 9 || lo == 10 || lo == 11;
    }
  }

  lemma Row116Q3()
    ensures forall lo: bv8 :: 12 <= lo < 16 ==> PairAt(R116, lo) == DaaOut(0x40 | lo, true, true, true)
  {
    forall lo: bv8 | 12 <= lo < 16 ensures PairAt(R116, lo) == DaaOut(0x40 | lo, true, true, true) {
      assert lo == 12 || lo == 13 || lo == 14 || lo == 15;
    }
  }

  lemma Row117Q0()
    ensures forall lo: bv8 :: lo < 4 ==> PairAt(R117, lo) == DaaOut(0x50 | lo, true, true, true)
  {
    forall lo: bv8 | lo < 4 ensures PairAt(R117, lo) == DaaOut(0x50 | lo, true, true, true) {
      assert lo == 0 || lo == 1 || lo == 2 || lo == 3;
    }
  }

  lemma Row117Q1()
    ensures forall lo: bv8 :: 4 <= lo < 8 ==> PairAt(R117, lo) == DaaOut(0x50 | lo, true, true, true)
  {
    forall lo: bv8 | 4 <= lo < 8 ensures PairAt(R117, lo) == DaaOut(0x50 | lo, true, true, true) {
      assert lo == 4 || lo == 5 || lo == 6 || lo == 7;
    }
  }

  lemma Row117Q2()
    ensures forall lo: bv8 :: 8 <= lo < 12 ==> PairAt(R117, lo) == DaaOut(0x50 | lo, true, true, true)
  {
    forall lo: bv8 | 8 <= lo < 12 ensures PairAt(R117, lo) == DaaOut(0x50 | lo, true, true, true) {
      assert lo == 8 || lo == 9 || lo == 10 || lo == 11;
    }
  }

  lemma Row117Q3()
    ensures forall lo: bv8 :: 12 <= lo < 16 ==> PairAt(R117, lo) == DaaOut(0x50 | lo, true, true, true)
  {
    forall lo: bv8 | 12 <= lo < 16 ensures PairAt(R117, lo) == DaaOut(0x50 | lo, true, true, true) {
      assert lo == 12 || lo == 13 || lo == 14 || lo == 15;
    }
  }

  lemma Row118Q0()
    ensures forall lo: bv8 :: lo < 4 ==> PairAt(R118, lo) == DaaOut(0x60 | lo, true, true, true)
  {
    forall lo: bv8 | lo < 4 ensures PairAt(R118, lo) == DaaOut(0x60 | lo, true, true, true) {
      assert lo == 0 || lo == 1 || lo == 2 || lo == 3;
    }
  }

  lemma Row118Q1()
    ensures forall lo: bv8 :: 4 <= lo < 8 ==> PairAt(R118, lo) == DaaOut(0x60 | lo, true, true, true)
  {
    forall lo: bv8 | 4 <= lo < 8 ensures PairAt(R118, lo) == DaaOut(0x60 | lo, true, true, true) {
      assert lo == 4 || lo == 5 || lo == 6 || lo == 7;
    }
  }

  lemma Row118Q2()
    ensures forall lo: bv8 :: 8 <= lo < 12 ==> PairAt(R118, lo) == DaaOut(0x60 | lo, true, true, true)
  {
    forall lo: bv8 | 8 <= lo < 12 ensures PairAt(R118, lo) == DaaOut(0x60 | lo, true, true, true) {
      assert lo == 8 || lo == 9 || lo == 10 || lo == 11;
    }
  }

  lemma Row118Q3()
    ensures forall lo: bv8 :: 12 <= lo < 16 ==> PairAt(R118, lo) == DaaOut(0x60 | lo, true, true, true)
  {
    forall lo: bv8 | 12 <= lo < 16 ensures PairAt(R118, lo) == DaaOut(0x60 | lo, true, true, true) {
      assert lo == 12 || lo == 13 || lo == 14 || lo == 15;
    }
  }

  lemma Row119Q0()
    ensures forall lo: bv8 :: lo < 4 ==> PairAt(R119, lo) == DaaOut(0x70 | lo, true, true, true)
  {
    forall lo: bv8 | lo < 4 ensures PairAt(R119, lo) == DaaOut(0x70 | lo, true, true, true) {
      assert lo == 0 || lo == 1 || lo == 2 || lo == 3;
    }
  }

  lemma Row119Q1()
    ensures forall lo: bv8 :: 4 <= lo < 8 ==> PairAt(R119, lo) == DaaOut(0x70 | lo, true, true, true)
  {
    forall lo: bv8 | 4 <= lo < 8 ensures PairAt(R119, lo) == DaaOut(0x70 | lo, true, true, true) {
      assert lo == 4 || lo == 5 || lo == 6 || lo == 7;
    }
  }

  lemma Row119Q2()
    ensures forall lo: bv8 :: 8 <= lo < 12 ==> PairAt(R119, lo) == DaaOut(0x70 | lo, true, true, true)
  {
    forall lo: bv8 | 8 <= lo < 12 ensures PairAt(R119, lo) == DaaOut(0x70 | lo, true, true, true) {
      assert lo == 8 || lo == 9 || lo == 10 || lo == 11;
    }
  }

  lemma Row119Q3()
    ensures forall lo: bv8 :: 12 <= lo < 16 ==> PairAt(R119, lo) == DaaOut(0x70 | lo, true, true, true)
  {
    forall lo: bv8 | 12 <= lo < 16 ensures PairAt(R119, lo) == DaaOut(0x70 | lo, true, true, true) {
      assert lo == 12 || lo == 13 || lo == 14 || lo == 15;
    }
  }

  lemma Row120Q0()
    ensures forall lo: bv8 :: lo < 4 ==> PairAt(R120, lo) == DaaOut(0x80 | lo, true, true, true)
  {
    forall lo: bv8 | lo < 4 ensures PairAt(R120, lo) == DaaOut(0x80 | lo, true, true, true) {
      assert lo == 0 || lo == 1 || lo == 2 || lo == 3;
    }
  }

  lemma Row120Q1()
    ensures forall lo: bv8 :: 4 <= lo < 8 ==> PairAt(R120, lo) == DaaOut(0x80 | lo, true, true, true)
  {
    forall lo: bv8 | 4 <= lo < 8 ensures PairAt(R120, lo) == DaaOut(0x80 | lo, true, true, true) {
      assert lo == 4 || lo == 5 || lo == 6 || lo == 7;
    }
  }

  lemma Row120Q2()
    ensures forall lo: bv8 :: 8 <= lo < 12 ==> PairAt(R120, lo) == DaaOut(0x80 | lo, true, true, true)
  {
    forall lo: bv8 | 8 <= lo < 12 ensures PairAt(R120, lo) == DaaOut(0x80 | lo, true, true, true) {
      assert lo == 8 || lo == 9 || lo == 10 || lo == 11;
    }
  }

  lemma Row120Q3()
    ensures forall lo: bv8 :: 12 <= lo < 16 ==> PairAt(R120, lo) == DaaOut(0x80 | lo, true, true, true)
  {
    forall lo: bv8 | 12 <= lo < 16 ensures PairAt(R120, lo) == DaaOut(0x80 | lo, true, true, true) {
      assert lo == 12 || lo == 13 || lo == 14 || lo == 15;
    }
  }

  lemma Row121Q0()
    ensures forall lo: bv8 :: lo < 4 ==> PairAt(R121, lo) == DaaOut(0x90 | lo, true, true, true)
  {
    forall lo: bv8 | lo < 4 ensures PairAt(R121, lo) == DaaOut(0x90 | lo, true, true, true) {
      assert lo == 0 || lo == 1 || lo == 2 || lo == 3;
    }
  }

  lemma Row121Q1()
    ensures forall lo: bv8 :: 4 <= lo < 8 ==> PairAt(R121, lo) == DaaOut(0x90 | lo, true, true, true)
  {
    forall lo: bv8 | 4 <= lo < 8 ensures PairAt(R121, lo) == DaaOut(0x90 | lo, true, true, true) {
      assert lo == 4 || lo == 5 || lo == 6 || lo == 7;
    }
  }

  lemma Row121Q2()
    ensures forall lo: bv8 :: 8 <= lo < 12 ==> PairAt(R121, lo) == DaaOut(0x90 | lo, true, true, true)
  {
    forall lo: bv8 | 8 <= lo < 12 ensures PairAt(R121, lo) == DaaOut(0x90 | lo, true, true, true) {
      assert lo == 8 || lo == 9 || lo == 10 || lo == 11;
    }
  }

  lemma Row121Q3()
    ensures forall lo: bv8 :: 12 <= lo < 16 ==> PairAt(R121, lo) == DaaOut(0x90 | lo, true, true, true)
  {
    forall lo: bv8 | 12 <= lo < 16 ensures PairAt(R121, lo) == DaaOut(0x90 | lo, true, true, true) {
      assert lo == 12 || lo == 13 || lo == 14 || lo == 15;
    }
  }

  lemma Row122Q0()
    ensures forall lo: bv8 :: lo < 4 ==> PairAt(R122, lo) == DaaOut(0xa0 | lo, true, true, true)
  {
    forall lo: bv8 | lo < 4 ensures PairAt(R122, lo) == DaaOut(0xa0 | lo, true, true, true) {
      assert lo == 0 || lo == 1 || lo == 2 || lo == 3;
    }
  }

  lemma Row122Q1()
    ensures forall lo: bv8 :: 4 <= lo < 8 ==> PairAt(R122, lo) == DaaOut(0xa0 | lo, true, true, true)
  {
    forall lo: bv8 | 4 <= lo < 8 ensures PairAt(R122, lo) == DaaOut(0xa0 | lo, true, true, true) {
      assert lo == 4 || lo == 5 || lo == 6 || lo == 7;
    }
  }

  lemma Row122Q2()
    ensures forall lo: bv8 :: 8 <= lo < 12 ==> PairAt(R122, lo) == DaaOut(0xa0 | lo, true, true, true)
  {
    forall lo: bv8 | 8 <= lo < 12 ensures PairAt(R122, lo) == DaaOut(0xa0 | lo, true, true, true) {
      assert lo == 8 || lo == 9 || lo == 10 || lo == 11;
    }
  }

  lemma Row122Q3()
    ensures forall lo: bv8 :: 12 <= lo < 16 ==> PairAt(R122, lo) == DaaOut(0xa0 | lo, true, true, true)
  {
    forall lo: bv8 | 12 <= lo < 16 ensures PairAt(R122, lo) == DaaOut(0xa0 | lo, true, true, true) {
      assert lo == 12 || lo == 13 || lo == 14 || lo == 15;
    }
  }

  lemma Row123Q0()
    ensures forall lo: bv8 :: lo < 4 ==> PairAt(R123, lo) == DaaOut(0xb0 | lo, true, true, true)
  {
    forall lo: bv8 | lo < 4 ensures PairAt(R123, lo) == DaaOut(0xb0 | lo, true, true, true) {
      assert lo == 0 || lo == 1 || lo == 2 || lo == 3;
    }
  }

  lemma Row123Q1()
    ensures forall lo: bv8 :: 4 <= lo < 8 ==> PairAt(R123, lo) == DaaOut(0xb0 | lo, true, true, true)
  {
    forall lo: bv8 | 4 <= lo < 8 ensures PairAt(R123, lo) == DaaOut(0xb0 | lo, true, true, true) {
      assert lo == 4 || lo == 5 || lo == 6 || lo == 7;
    }
  }

  lemma Row123Q2()
    ensures forall lo: bv8 :: 8 <= lo < 12 ==> PairAt(R123, lo) == DaaOut(0xb0 | lo, true, true, true)
  {
    forall lo: bv8 | 8 <= lo < 12 ensures PairAt(R123, lo) == DaaOut(0xb0 | lo, true, true, true) {
      assert lo == 8 || lo == 9 || lo == 10 || lo == 11;
    }
  }

  lemma Row123Q3()
    ensures forall lo: bv8 :: 12 <= lo < 16 ==> PairAt(R123, lo) == DaaOut(0xb0 | lo, true, true, true)
  {
    forall lo: bv8 | 12 <= lo < 16 ensures PairAt(R123, lo) == DaaOut(0xb0 | lo, true, true, true) {
      assert lo == 12 || lo == 13 || lo == 14 || lo == 15;
    }
  }

  lemma Row124Q0()
    ensures forall lo: bv8 :: lo < 4 ==> PairAt(R124, lo) == DaaOut(0xc0 | lo, true, true, true)
  {
    forall lo: bv8 | lo < 4 ensures PairAt(R124, lo) == DaaOut(0xc0 | lo, true, true, true) {
      assert lo == 0 || lo == 1 || lo == 2 || lo == 3;
    }
  }

  lemma Row124Q1()
    ensures forall lo: bv8 :: 4 <= lo < 8 ==> PairAt(R124, lo) == DaaOut(0xc0 | lo, true, true, true)
  {
    forall lo: bv8 | 4 <= lo < 8 ensures PairAt(R124, lo) == DaaOut(0xc0 | lo, true, true, true) {
      assert lo == 4 || lo == 5 || lo == 6 || lo == 7;
    }
  }

  lemma Row124Q2()
    ensures forall lo: bv8 :: 8 <= lo < 12 ==> PairAt(R124, lo) == DaaOut(0xc0 | lo, true, true, true)
  {
    forall lo: bv8 | 8 <= lo < 12 ensures PairAt(R124, lo) == DaaOut(0xc0 | lo, true, true, true) {
      assert lo == 8 || lo == 9 || lo == 10 || lo == 11;
    }
  }

  lemma Row124Q3()
    ensures forall lo: bv8 :: 12 <= lo < 16 ==> PairAt(R124, lo) == DaaOut(0xc0 | lo, true, true, true)
  {
    forall lo: bv8 | 12 <= lo < 16 ensures PairAt(R124, lo) == DaaOut(0xc0 | lo, true, true, true) {
      assert lo == 12 || lo == 13 || lo == 14 || lo == 15;
    }
  }

  lemma Row125Q0()
    ensures forall lo: bv8 :: lo < 4 ==> PairAt(R125, lo) == DaaOut(0xd0 | lo, true, true, true)
  {
    forall lo: bv8 | lo < 4 ensures PairAt(R125, lo) == DaaOut(0xd0 | lo, true, true, true) {
      assert lo == 0 || lo == 1 || lo == 2 || lo == 3;
    }
  }

  lemma Row125Q1()
    ensures forall lo: bv8 :: 4 <= lo < 8 ==> PairAt(R125, lo) == DaaOut(0xd0 | lo, true, true, true)
  {
    forall lo: bv8 | 4 <= lo < 8 ensures PairAt(R125, lo) == DaaOut(0xd0 | lo, true, true, true) {
      assert lo == 4 || lo == 5 || lo == 6 || lo == 7;
    }
  }

  lemma Row125Q2()
    ensures forall lo: bv8 :: 8 <= lo < 12 ==> PairAt(R125, lo) == DaaOut(0xd0 | lo, true, true, true)
  {
    forall lo: bv8 | 8 <= lo < 12 ensures PairAt(R125, lo) == DaaOut(0xd0 | lo, true, true, true) {
      assert lo == 8 || lo == 9 || lo == 10 || lo == 11;
    }
  }

  lemma Row125Q3()
    ensures forall lo: bv8 :: 12 <= lo < 16 ==> PairAt(R125, lo) == DaaOut(0xd0 | lo, true, true, true)
  {
    forall lo: bv8 | 12 <= lo < 16 ensures PairAt(R125, lo) == DaaOut(0xd0 | lo, true, true, true) {
      assert lo == 12 || lo == 13 || lo == 14 || lo == 15;
    }
  }

  lemma Row126Q0()
    ensures forall lo: bv8 :: lo < 4 ==> PairAt(R126, lo) == DaaOut(0xe0 | lo, true, true, true)
  {
    forall lo: bv8 | lo < 4 ensures PairAt(R126, lo) == DaaOut(0xe0 | lo, true, true, true) {
      assert lo == 0 || lo == 1 || lo == 2 || lo == 3;
    }
  }

  lemma Row126Q1()
    ensures forall lo: bv8 :: 4 <= lo < 8 ==> PairAt(R126, lo) == DaaOut(0xe0 | lo, true, true, true)
  {
    forall lo: bv8 | 4 <= lo < 8 ensures PairAt(R126, lo) == DaaOut(0xe0 | lo, true, true, true) {
      assert lo == 4 || lo == 5 || lo == 6 || lo == 7;
    }
  }

  lemma Row126Q2()
    ensures forall lo: bv8 :: 8 <= lo < 12 ==> PairAt(R126, lo) == DaaOut(0xe0 | lo, true, true, true)
  {
    forall lo: bv8 | 8 <= lo < 12 ensures PairAt(R126, lo) == DaaOut(0xe0 | lo, true, true, true) {
      assert lo == 8 || lo == 9 || lo == 10 || lo == 11;
    }
  }

  lemma Row126Q3()
    ensures forall lo: bv8 :: 12 <= lo < 16 ==> PairAt(R126, lo) == DaaOut(0xe0 | lo, true, true, true)
  {
    forall lo: bv8 | 12 <= lo < 16 ensures PairAt(R126, lo) == DaaOut(0xe0 | lo, true, true, true) {
      assert lo == 12 || lo == 13 || lo == 14 || lo == 15;
    }
  }

  lemma Row127Q0()
    ensures forall lo: bv8 :: lo < 4 ==> PairAt(R127, lo) == DaaOut(0xf0 | lo, true, true, true)
  {
    forall lo: bv8 | lo < 4 ensures PairAt(R127, lo) == DaaOut(0xf0 | lo, true, true, true) {
      assert lo == 0 || lo == 1 || lo == 2 || lo == 3;
    }
  }

  lemma Row127Q1()
    ensures forall lo: bv8 :: 4 <= lo < 8 ==> PairAt(R127, lo) == DaaOut(0xf0 | lo, true, true, true)
  {
    forall lo: bv8 | 4 <= lo < 8 ensures PairAt(R127, lo) == DaaOut(0xf0 | lo, true, true, true) {
      assert lo == 4 || lo == 5 || lo == 6 || lo == 7;
    }
  }

  lemma Row127Q2()
    ensures forall lo: bv8 :: 8 <= lo < 12 ==> PairAt(R127, lo) == DaaOut(0xf0 | lo, true, true, true)
  {
    forall lo: bv8 | 8 <= lo < 12 ensures PairAt(R127, lo) == DaaOut(0xf0 | lo, true, true, true) {
      assert lo == 8 || lo == 9 || lo == 10 || lo == 11;
    }
  }

  lemma Row127Q3()
    ensures forall lo: bv8 :: 12 <= lo < 16 ==> PairAt(R127, lo) == DaaOut(0xf0 | lo, true, true, true)
  {
    forall lo: bv8 | 12 <= lo < 16 ensures PairAt(R127, lo) == DaaOut(0xf0 | lo, true, true, true) {
      assert lo == 12 || lo == 13 || lo == 14 || lo == 15;
    }
  }

  lemma GroupRule0A(k: bv8)
    requires 0 <= k < 4
    ensures RowRule(TableRow(k), k)
  {
    if k == 0 {
      Row0Q0(); Row0Q1(); Row0Q2(); Row0Q3();
    }
    else if k == 1 {
      Row1Q0(); Row1Q1(); Row1Q2(); Row1Q3();
    }
    else if k == 2 {
      Row2Q0(); Row2Q1(); Row2Q2(); Row2Q3();
    }
    else {
      Row3Q0(); Row3Q1(); Row3Q2(); Row3Q3();
    }
  }

  lemma GroupRule0B(k: bv8)
    requires 4 <= k < 8
    ensures RowRule(TableRow(k), k)
  {
    if k == 4 {
      Row4Q0(); Row4Q1(); Row4Q2(); Row4Q3();
    }
    else if k == 5 {
      Row5Q0(); Row5Q1(); Row5Q2(); Row5Q3();
    }
    else if k == 6 {
      Row6Q0(); Row6Q1(); Row6Q2(); Row6Q3();
    }
    else {
      Row7Q0(); Row7Q1(); Row7Q2(); Row7Q3();
    }
  }

  lemma GroupRule0C(k: bv8)
    requires 8 <= k < 12
    ensures RowRule(TableRow(k), k)
  {
    if k == 8 {
      Row8Q0(); Row8Q1(); Row8Q2(); Row8Q3();
    }
    else if k == 9 {
      Row9Q0(); Row9Q1(); Row9Q2(); Row9Q3();
    }
    else if k == 10 {
      Row10Q0(); Row10Q1(); Row10Q2(); Row10Q3();
    }
    else {
      Row11Q0(); Row11Q1(); Row11Q2(); Row11Q3();
    }
  }

  lemma GroupRule0D(k: bv8)
    requires 12 <= k < 16
    ensures RowRule(TableRow(k), k)
  {
    if k == 12 {
      Row12Q0(); Row12Q1(); Row12Q2(); Row12Q3();
    }
    else if k == 13 {
      Row13Q0(); Row13Q1(); Row13Q2(); Row13Q3();
    }
    else if k == 14 {
      Row14Q0(); Row14Q1(); Row14Q2(); Row14Q3();
    }
    else {
      Row15Q0(); Row15Q1(); Row15Q2(); Row15Q3();
    }
  }

  /** The rule holds for every row of flag group 0. */
  lemma GroupRule0(k: bv8)
    requires k >> 4 == 0
    ensures RowRule(TableRow(k), k)
  {
    var q := k & 12;
    if q == 0 { GroupRule0A(k); }
    else if q == 4 { GroupRule0B(k); }
    else if q == 8 { GroupRule0C(k); }
    else { GroupRule0D(k); }
  }

  lemma GroupRule1A(k: bv8)
    requires 16 <= k < 20
    ensures RowRule(TableRow(k), k)
  {
    if k == 16 {
      Row16Q0(); Row16Q1(); Row16Q2(); Row16Q3();
    }
    else if k == 17 {
      Row17Q0(); Row17Q1(); Row17Q2(); Row17Q3();
    }
    else if k == 18 {
      Row18Q0(); Row18Q1(); Row18Q2(); Row18Q3();
    }
    else {
      Row19Q0(); Row19Q1(); Row19Q2(); Row19Q3();
    }
  }

  lemma GroupRule1B(k: bv8)
    requires 20 <= k < 24
    ensures RowRule(TableRow(k), k)
  {
    if k == 20 {
      Row20Q0(); Row20Q1(); Row20Q2(); Row20Q3();
    }
    else if k == 21 {
      Row21Q0(); Row21Q1(); Row21Q2(); Row21Q3();
    }
    else if k == 22 {
      Row22Q0(); Row22Q1(); Row22Q2(); Row22Q3();
    }
    else {
      Row23Q0(); Row23Q1(); Row23Q2(); Row23Q3();
    }
  }

  lemma GroupRule1C(k: bv8)
    requires 24 <= k < 28
    ensures RowRule(TableRow(k), k)
  {
    if k == 24 {
      Row24Q0(); Row24Q1(); Row24Q2(); Row24Q3();
    }
    else if k == 25 {
      Row25Q0(); Row25Q1(); Row25Q2(); Row25Q3();
    }
    else if k == 26 {
      Row26Q0(); Row26Q1(); Row26Q2(); Row26Q3();
    }
    else {
      Row27Q0(); Row27Q1(); Row27Q2(); Row27Q3();
    }
  }

  lemma GroupRule1D(k: bv8)
    requires 28 <= k < 32
    ensures RowRule(TableRow(k), k)
  {
    if k == 28 {
      Row28Q0(); Row28Q1(); Row28Q2(); Row28Q3();
    }
    else if k == 29 {
      Row29Q0(); Row29Q1(); Row29Q2(); Row29Q3();
    }
    else if k == 30 {
      Row30Q0(); Row30Q1(); Row30Q2(); Row30Q3();
    }
    else {
      Row31Q0(); Row31Q1(); Row31Q2(); Row31Q3();
    }
  }

  /** The rule holds for every row of flag group 1. */
  lemma GroupRule1(k: bv8)
    requires k >> 4 == 1
    ensures RowRule(TableRow(k), k)
  {
    var q := k & 12;
    if q == 0 { GroupRule1A(k); }
    else if q == 4 { GroupRule1B(k); }
    else if q == 8 { GroupRule1C(k); }
    else { GroupRule1D(k); }
  }

  lemma GroupRule2A(k: bv8)
    requires 32 <= k < 36
    ensures RowRule(TableRow(k), k)
  {
    if k == 32 {
      Row32Q0(); Row32Q1(); Row32Q2(); Row32Q3();
    }
    else if k == 33 {
      Row33Q0(); Row33Q1(); Row33Q2(); Row33Q3();
    }
    else if k == 34 {
      Row34Q0(); Row34Q1(); Row34Q2(); Row34Q3();
    }
    else {
      Row35Q0(); Row35Q1(); Row35Q2(); Row35Q3();
    }
  }

  lemma GroupRule2B(k: bv8)
    requires 36 <= k < 40
    ensures RowRule(TableRow(k), k)
  {
    if k == 36 {
      Row36Q0(); Row36Q1(); Row36Q2(); Row36Q3();
    }
    else if k == 37 {
      Row37Q0(); Row37Q1(); Row37Q2(); Row37Q3();
    }
    else if k == 38 {
      Row38Q0(); Row38Q1(); Row38Q2(); Row38Q3();
    }
    else {
      Row39Q0(); Row39Q1(); Row39Q2(); Row39Q3();
    }
  }

  lemma GroupRule2C(k: bv8)
    requires 40 <= k < 44
    ensures RowRule(TableRow(k), k)
  {
    if k == 40 {
      Row40Q0(); Row40Q1(); Row40Q2(); Row40Q3();
    }
    else if k == 41 {
      Row41Q0(); Row41Q1(); Row41Q2(); Row41Q3();
    }
    else if k == 42 {
      Row42Q0(); Row42Q1(); Row42Q2(); Row42Q3();
    }
    else {
      Row43Q0(); Row43Q1(); Row43Q2(); Row43Q3();
    }
  }

  lemma GroupRule2D(k: bv8)
    requires 44 <= k < 48
    ensures RowRule(TableRow(k), k)
  {
    if k == 44 {
      Row44Q0(); Row44Q1(); Row44Q2(); Row44Q3();
    }
    else if k == 45 {
      Row45Q0(); Row45Q1(); Row45Q2(); Row45Q3();
    }
    else if k == 46 {
      Row46Q0(); Row46Q1(); Row46Q2(); Row46Q3();
    }
    else {
      Row47Q0(); Row47Q1(); Row47Q2(); Row47Q3();
    }
  }

  /** The rule holds for every row of flag group 2. */
  lemma GroupRule2(k: bv8)
    requires k >> 4 == 2
    ensures RowRule(TableRow(k), k)
  {
    var q := k & 12;
    if q == 0 { GroupRule2A(k); }
    else if q == 4 { GroupRule2B(k); }
    else if q == 8 { GroupRule2C(k); }
    else { GroupRule2D(k); }
  }

  lemma GroupRule3A(k: bv8)
    requires 48 <= k < 52
    ensures RowRule(TableRow(k), k)
  {
    if k == 48 {
      Row48Q0(); Row48Q1(); Row48Q2(); Row48Q3();
    }
    else if k == 49 {
      Row49Q0(); Row49Q1(); Row49Q2(); Row49Q3();
    }
    else if k == 50 {
      Row50Q0(); Row50Q1(); Row50Q2(); Row50Q3();
    }
    else {
      Row51Q0(); Row51Q1(); Row51Q2(); Row51Q3();
    }
  }

  lemma GroupRule3B(k: bv8)
    requires 52 <= k < 56
    ensures RowRule(TableRow(k), k)
  {
    if k == 52 {
      Row52Q0(); Row52Q1(); Row52Q2(); Row52Q3();
    }
    else if k == 53 {
      Row53Q0(); Row53Q1(); Row53Q2(); Row53Q3();
    }
    else if k == 54 {
      Row54Q0(); Row54Q1(); Row54Q2(); Row54Q3();
    }
    else {
      Row55Q0(); Row55Q1(); Row55Q2(); Row55Q3();
    }
  }

  lemma GroupRule3C(k: bv8)
    requires 56 <= k < 60
    ensures RowRule(TableRow(k), k)
  {
    if k == 56 {
      Row56Q0(); Row56Q1(); Row56Q2(); Row56Q3();
    }
    else if k == 57 {
      Row57Q0(); Row57Q1(); Row57Q2(); Row57Q3();
    }
    else if k == 58 {
      Row58Q0(); Row58Q1(); Row58Q2(); Row58Q3();
    }
    else {
      Row59Q0(); Row59Q1(); Row59Q2(); Row59Q3();
    }
  }

  lemma GroupRule3D(k: bv8)
    requires 60 <= k < 64
    ensures RowRule(TableRow(k), k)
  {
    if k == 60 {
      Row60Q0(); Row60Q1(); Row60Q2(); Row60Q3();
    }
    else if k == 61 {
      Row61Q0(); Row61Q1(); Row61Q2(); Row61Q3();
    }
    else if k == 62 {
      Row62Q0(); Row62Q1(); Row62Q2(); Row62Q3();
    }
    else {
      Row63Q0(); Row63Q1(); Row63Q2(); Row63Q3();
    }
  }

  /** The rule holds for every row of flag group 3. */
  lemma GroupRule3(k: bv8)
    requires k >> 4 == 3
    ensures RowRule(TableRow(k), k)
  {
    var q := k & 12;
    if q == 0 { GroupRule3A(k); }
    else if q == 4 { GroupRule3B(k); }
    else if q == 8 { GroupRule3C(k); }
    else { GroupRule3D(k); }
  }

  lemma GroupRule4A(k: bv8)
    requires 64 <= k < 68
    ensures RowRule(TableRow(k), k)
  {
    if k == 64 {
      Row64Q0(); Row64Q1(); Row64Q2(); Row64Q3();
    }
    else if k == 65 {
      Row65Q0(); Row65Q1(); Row65Q2(); Row65Q3();
    }
    else if k == 66 {
      Row66Q0(); Row66Q1(); Row66Q2(); Row66Q3();
    }
    else {
      Row67Q0(); Row67Q1(); Row67Q2(); Row67Q3();
    }
  }

  lemma GroupRule4B(k: bv8)
    requires 68 <= k < 72
    ensures RowRule(TableRow(k), k)
  {
    if k == 68 {
      Row68Q0(); Row68Q1(); Row68Q2(); Row68Q3();
    }
    else if k == 69 {
      Row69Q0(); Row69Q1(); Row69Q2(); Row69Q3();
    }
    else if k == 70 {
      Row70Q0(); Row70Q1(); Row70Q2(); Row70Q3();
    }
    else {
      Row71Q0(); Row71Q1(); Row71Q2(); Row71Q3();
    }
  }

  lemma GroupRule4C(k: bv8)
    requires 72 <= k < 76
    ensures RowRule(TableRow(k), k)
  {
    if k == 72 {
      Row72Q0(); Row72Q1(); Row72Q2(); Row72Q3();
    }
    else if k == 73 {
      Row73Q0(); Row73Q1(); Row73Q2(); Row73Q3();
    }
    else if k == 74 {
      Row74Q0(); Row74Q1(); Row74Q2(); Row74Q3();
    }
    else {
      Row75Q0(); Row75Q1(); Row75Q2(); Row75Q3();
    }
  }

  lemma GroupRule4D(k: bv8)
    requires 76 <= k < 80
    ensures RowRule(TableRow(k), k)
  {
    if k == 76 {
      Row76Q0(); Row76Q1(); Row76Q2(); Row76Q3();
    }
    else if k == 77 {
      Row77Q0(); Row77Q1(); Row77Q2(); Row77Q3();
    }
    else if k == 78 {
      Row78Q0(); Row78Q1(); Row78Q2(); Row78Q3();
    }
    else {
      Row79Q0(); Row79Q1(); Row79Q2(); Row79Q3();
    }
  }

  /** The rule holds for every row of flag group 4. */
  lemma GroupRule4(k: bv8)
    requires k >> 4 == 4
    ensures RowRule(TableRow(k), k)
  {
    var q := k & 12;
    if q == 0 { GroupRule4A(k); }
    else if q == 4 { GroupRule4B(k); }
    else if q == 8 { GroupRule4C(k); }
    else { GroupRule4D(k); }
  }

  lemma GroupRule5A(k: bv8)
    requires 80 <= k < 84
    ensures RowRule(TableRow(k), k)
  {
    if k == 80 {
      Row80Q0(); Row80Q1(); Row80Q2(); Row80Q3();
    }
    else if k == 81 {
      Row81Q0(); Row81Q1(); Row81Q2(); Row81Q3();
    }
    else if k == 82 {
      Row82Q0(); Row82Q1(); Row82Q2(); Row82Q3();
    }
    else {
      Row83Q0(); Row83Q1(); Row83Q2(); Row83Q3();
    }
  }

  lemma GroupRule5B(k: bv8)
    requires 84 <= k < 88
    ensures RowRule(TableRow(k), k)
  {
    if k == 84 {
      Row84Q0(); Row84Q1(); Row84Q2(); Row84Q3();
    }
    else if k == 85 {
      Row85Q0(); Row85Q1(); Row85Q2(); Row85Q3();
    }
    else if k == 86 {
      Row86Q0(); Row86Q1(); Row86Q2(); Row86Q3();
    }
    else {
      Row87Q0(); Row87Q1(); Row87Q2(); Row87Q3();
    }
  }

  lemma GroupRule5C(k: bv8)
    requires 88 <= k < 92
    ensures RowRule(TableRow(k), k)
  {
    if k == 88 {
      Row88Q0(); Row88Q1(); Row88Q2(); Row88Q3();
    }
    else if k == 89 {
      Row89Q0(); Row89Q1(); Row89Q2(); Row89Q3();
    }
    else if k == 90 {
      Row90Q0(); Row90Q1(); Row90Q2(); Row90Q3();
    }
    else {
      Row91Q0(); Row91Q1(); Row91Q2(); Row91Q3();
    }
  }

  lemma GroupRule5D(k: bv8)
    requires 92 <= k < 96
    ensures RowRule(TableRow(k), k)
  {
    if k == 92 {
      Row92Q0(); Row92Q1(); Row92Q2(); Row92Q3();
    }
    else if k == 93 {
      Row93Q0(); Row93Q1(); Row93Q2(); Row93Q3();
    }
    else if k == 94 {
      Row94Q0(); Row94Q1(); Row94Q2(); Row94Q3();
    }
    else {
      Row95Q0(); Row95Q1(); Row95Q2(); Row95Q3();
    }
  }

  /** The rule holds for every row of flag group 5. */
  lemma GroupRule5(k: bv8)
    requires k >> 4 == 5
    ensures RowRule(TableRow(k), k)
  {
    var q := k & 12;
    if q == 0 { GroupRule5A(k); }
    else if q == 4 { GroupRule5B(k); }
    else if q == 8 { GroupRule5C(k); }
    else { GroupRule5D(k); }
  }

  lemma GroupRule6A(k: bv8)
    requires 96 <= k < 100
    ensures RowRule(TableRow(k), k)
  {
    if k == 96 {
      Row96Q0(); Row96Q1(); Row96Q2(); Row96Q3();
    }
    else if k == 97 {
      Row97Q0(); Row97Q1(); Row97Q2(); Row97Q3();
    }
    else if k == 98 {
      Row98Q0(); Row98Q1(); Row98Q2(); Row98Q3();
    }
    else {
      Row99Q0(); Row99Q1(); Row99Q2(); Row99Q3();
    }
  }

  lemma GroupRule6B(k: bv8)
    requires 100 <= k < 104
    ensures RowRule(TableRow(k), k)
  {
    if k == 100 {
      Row100Q0(); Row100Q1(); Row100Q2(); Row100Q3();
    }
    else if k == 101 {
      Row101Q0(); Row101Q1(); Row101Q2(); Row101Q3();
    }
    else if k == 102 {
      Row102Q0(); Row102Q1(); Row102Q2(); Row102Q3();
    }
    else {
      Row103Q0(); Row103Q1(); Row103Q2(); Row103Q3();
    }
  }

  lemma GroupRule6C(k: bv8)
    requires 104 <= k < 108
    ensures RowRule(TableRow(k), k)
  {
    if k == 104 {
      Row104Q0(); Row104Q1(); Row104Q2(); Row104Q3();
    }
    else if k == 105 {
      Row105Q0(); Row105Q1(); Row105Q2(); Row105Q3();
    }
    else if k == 106 {
      Row106Q0(); Row106Q1(); Row106Q2(); Row106Q3();
    }
    else {
      Row107Q0(); Row107Q1(); Row107Q2(); Row107Q3();
    }
  }

  lemma GroupRule6D(k: bv8)
    requires 108 <= k < 112
    ensures RowRule(TableRow(k), k)
  {
    if k == 108 {
      Row108Q0(); Row108Q1(); Row108Q2(); Row108Q3();
    }
    else if k == 109 {
      Row109Q0(); Row109Q1(); Row109Q2(); Row109Q3();
    }
    else if k == 110 {
      Row110Q0(); Row110Q1(); Row110Q2(); Row110Q3();
    }
    else {
      Row111Q0(); Row111Q1(); Row111Q2(); Row111Q3();
    }
  }

  /** The rule holds for every row of flag group 6. */
  lemma GroupRule6(k: bv8)
    requires k >> 4 == 6
    ensures RowRule(TableRow(k), k)
  {
    var q := k & 12;
    if q == 0 { GroupRule6A(k); }
    else if q == 4 { GroupRule6B(k); }
    else if q == 8 { GroupRule6C(k); }
    else { GroupRule6D(k); }
  }

  lemma GroupRule7A(k: bv8)
    requires 112 <= k < 116
    ensures RowRule(TableRow(k), k)
  {
    if k == 112 {
      Row112Q0(); Row112Q1(); Row112Q2(); Row112Q3();
    }
    else if k == 113 {
      Row113Q0(); Row113Q1(); Row113Q2(); Row113Q3();
    }
    else if k == 114 {
      Row114Q0(); Row114Q1(); Row114Q2(); Row114Q3();
    }
    else {
      Row115Q0(); Row115Q1(); Row115Q2(); Row115Q3();
    }
  }

  lemma GroupRule7B(k: bv8)
    requires 116 <= k < 120
    ensures RowRule(TableRow(k), k)
  {
    if k == 116 {
      Row116Q0(); Row116Q1(); Row116Q2(); Row116Q3();
    }
    else if k == 117 {
      Row117Q0(); Row117Q1(); Row117Q2(); Row117Q3();
    }
    else if k == 118 {
      Row118Q0(); Row118Q1(); Row118Q2(); Row118Q3();
    }
    else {
      Row119Q0(); Row119Q1(); Row119Q2(); Row119Q3();
    }
  }

  lemma GroupRule7C(k: bv8)
    requires 120 <= k < 124
    ensures RowRule(TableRow(k), k)
  {
    if k == 120 {
      Row120Q0(); Row120Q1(); Row120Q2(); Row120Q3();
    }
    else if k == 121 {
      Row121Q0(); Row121Q1(); Row121Q2(); Row121Q3();
    }
    else if k == 122 {
      Row122Q0(); Row122Q1(); Row122Q2(); Row122Q3();
    }
    else {
      Row123Q0(); Row123Q1(); Row123Q2(); Row123Q3();
    }
  }

  lemma GroupRule7D(k: bv8)
    requires 124 <= k < 128
    ensures RowRule(TableRow(k), k)
  {
    if k == 124 {
      Row124Q0(); Row124Q1(); Row124Q2(); Row124Q3();
    }
    else if k == 125 {
      Row125Q0(); Row125Q1(); Row125Q2(); Row125Q3();
    }
    else if k == 126 {
      Row126Q0(); Row126Q1(); Row126Q2(); Row126Q3();
    }
    else {
      Row127Q0(); Row127Q1(); Row127Q2(); Row127Q3();
    }
  }

  /** The rule holds for every row of flag group 7. */
  lemma GroupRule7(k: bv8)
    requires k >> 4 == 7
    ensures RowRule(TableRow(k), k)
  {
    var q := k & 12;
    if q == 0 { GroupRule7A(k); }
    else if q == 4 { GroupRule7B(k); }
    else if q == 8 { GroupRule7C(k); }
    else { GroupRule7D(k); }
  }

  /** The rule holds for every row. */
  lemma TableRule(k: bv8)
    requires k < 128
    ensures RowRule(TableRow(k), k)
  {
    var g := k >> 4;
    if g == 0 { GroupRule0(k); }
    else if g == 1 { GroupRule1(k); }
    else if g == 2 { GroupRule2(k); }
    else if g == 3 { GroupRule3(k); }
    else if g == 4 { GroupRule4(k); }
    else if g == 5 { GroupRule5(k); }
    else if g == 6 { GroupRule6(k); }
    else { GroupRule7(k); }
  }
  /**
   * Every pair of daaTab follows the rule: the pair for group g and accumulator a is
   * the flags and result of DAA with C = bit 0, N = bit 1, H = bit 2 of g.
   */
  lemma DaaPairRule(g: bv8, a: bv8)
    requires g < 8
    ensures DaaPair(g, a) == DaaOut(a, g & 1 != 0, g & 2 != 0, g & 4 != 0)
  {
    var k := (g << 4) | (a >> 4);
    TableRule(k);
    RowOfPair(g, a);
    assert PairAt(TableRow(k), a & 15) == DaaOut((k << 4) | (a & 15), k & 0x10 != 0, k & 0x20 != 0, k & 0x40 != 0);
  }

  /** The row number of a pair recombines with its low nibble into A and keeps the group. */
  lemma RowOfPair(g: bv8, a: bv8)
    requires g < 8
    ensures var k := (g << 4) | (a >> 4);
      k < 128 && (k << 4) | (a & 15) == a && (k & 0x10 != 0) == (g & 1 != 0) &&
      (k & 0x20 != 0) == (g & 2 != 0) && (k & 0x40 != 0) == (g & 4 != 0)
  {
  }

  /** The flag group DAA indexes with: C | N << 1 | H << 2. */
  function Group(c: bool, n: bool, h: bool): (g: bv8)
    ensures g < 8
    ensures (g & 1 != 0) == c && (g & 2 != 0) == n && (g & 4 != 0) == h
  {
    Bit(c, 1) | Bit(n, 2) | Bit(h, 4)
  }

  /** The byte offset of the pair in daaTab: 2 (A + 0x100 (C | N << 1 | H << 2)). */
  function DaaIndex(a: bv8, c: bool, n: bool, h: bool): (i: bv16)
    ensures i < 0x1000 && i & 1 == 0
    ensures i >> 9 == Group(c, n, h) as bv16 && (i >> 1) & 0xff == a as bv16
  {
    ((Group(c, n, h) as bv16) << 9) | ((a as bv16) << 1)
  }

  /** Byte i of daaTab, read through the group and accumulator its offset encodes. */
  lemma DaaByteOfPair(i: bv16, g: bv8, a: bv8)
    requires i < 0x1000 && (i >> 9) as bv8 == g && ((i >> 1) & 0xff) as bv8 == a
    ensures g < 8
    ensures DaaByte(i) == if i & 1 == 0 then DaaPair(g, a).f else DaaPair(g, a).a
  {
  }

  /** The offset DaaIndex encodes the group and the accumulator, in both bytes of the pair. */
  lemma DaaIndexFields(a: bv8, c: bool, n: bool, h: bool)
    ensures var i, g := DaaIndex(a, c, n, h), Group(c, n, h);
      (i >> 9) as bv8 == g && ((i >> 1) & 0xff) as bv8 == a &&
      ((i + 1) >> 9) as bv8 == g && (((i + 1) >> 1) & 0xff) as bv8 == a && (i + 1) & 1 == 1
  {
  }

  /** The byte at DaaIndex is the flag byte of the pair for the group and A. */
  lemma DaaIndexF(a: bv8, c: bool, n: bool, h: bool)
    ensures DaaByte(DaaIndex(a, c, n, h)) == DaaPair(Group(c, n, h), a).f
  {
    DaaIndexFields(a, c, n, h);
    DaaByteOfPair(DaaIndex(a, c, n, h), Group(c, n, h), a);
  }

  /** The byte after it is the pair's accumulator. */
  lemma DaaIndexA(a: bv8, c: bool, n: bool, h: bool)
    ensures DaaByte(DaaIndex(a, c, n, h) + 1) == DaaPair(Group(c, n, h), a).a
  {
    DaaIndexFields(a, c, n, h);
    DaaByteOfPair(DaaIndex(a, c, n, h) + 1, Group(c, n, h), a);
  }

  /**
   * The two bytes DAA loads, at DaaIndex and the one after, are the flags and the result
   * of the decimal-adjust rule for A and the flags C, N, H.
   */
  lemma DaaBytes(a: bv8, c: bool, n: bool, h: bool)
    ensures var i := DaaIndex(a, c, n, h);
      DaaByte(i) == DaaF(a, c, n, h) && DaaByte(i + 1) == DaaA(a, c, n, h)
  {
    DaaIndexF(a, c, n, h);
    DaaIndexA(a, c, n, h);
    DaaPairRule(Group(c, n, h), a);
  }

  /** DAA's flags: S, F5 and F3 copy the result, Z is set iff the result is 0. */
  lemma DaaResultFlags(a: bv8, c: bool, n: bool, h: bool)
    ensures var f, r := DaaF(a, c, n, h), DaaA(a, c, n, h);
      f & 0xa8 == r & 0xa8 && (f & 0x40 != 0 <==> r == 0)
  {
  }

  /** DAA keeps N, and sets C when it was set or A exceeded 0x99. */
  lemma DaaCarryFlags(a: bv8, c: bool, n: bool, h: bool)
    ensures var f := DaaF(a, c, n, h);
      (f & 0x02 != 0 <==> n) && (f & 0x01 != 0 <==> c || a > 0x99)
  {
  }

  /**
   * In every group, output S, F5 and F3 are the result's bits, Z is set iff the result is
   * 0, and output N is the group's input N.
   */
  lemma DaaTableFlags(g: bv8, a: bv8)
    requires g < 8
    ensures var p := DaaPair(g, a); var f, r := p.f, p.a;
      f & 0xa8 == r & 0xa8 && (f & 0x40 != 0 <==> r == 0) && (f & 0x02 != 0 <==> g & 2 != 0)
  {
    var c, n, h := g & 1 != 0, g & 2 != 0, g & 4 != 0;
    DaaPairRule(g, a);
    assert DaaPair(g, a).f == DaaF(a, c, n, h) && DaaPair(g, a).a == DaaA(a, c, n, h);
    DaaResultFlags(a, c, n, h);
    DaaCarryFlags(a, c, n, h);
  }

  /** Entries for A = 0x00, 0x0A and 0x9A with no flags, and the first N-only entry. */
  lemma DaaSpotEntries()
    ensures DaaPair(0, 0x00) == Pair(0x44, 0x00)
    ensures DaaPair(0, 0x0a) == Pair(0x10, 0x10)
    ensures DaaPair(0, 0x9a) == Pair(0x55, 0x00)
    ensures DaaPair(2, 0x00) == Pair(0x46, 0x00)
  {
  }

  /** The same entries as bytes at offsets 0, 0x14, 0x134 and 0x400 of daaTab. */
  lemma DaaSpotBytes()
    ensures DaaByte(0) == 0x44 && DaaByte(1) == 0x00
    ensures DaaByte(0x14) == 0x10 && DaaByte(0x15) == 0x10
    ensures DaaByte(0x134) == 0x55 && DaaByte(0x135) == 0x00
    ensures DaaByte(0x400) == 0x46 && DaaByte(0x401) == 0x00
  {
    DaaSpotEntries();
    DaaByteOfPair(0, 0, 0x00);
    DaaByteOfPair(1, 0, 0x00);
    DaaByteOfPair(0x14, 0, 0x0a);
    DaaByteOfPair(0x15, 0, 0x0a);
    DaaByteOfPair(0x134, 0, 0x9a);
    DaaByteOfPair(0x135, 0, 0x9a);
    DaaByteOfPair(0x400, 2, 0x00);
    DaaByteOfPair(0x401, 2, 0x00);
  }
}
