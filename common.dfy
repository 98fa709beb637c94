// Small value types shared by the models of the emulator's components.

module Common {

  /** A value that may be absent (a null pointer, an unset field). */
  datatype Option<T> = None | Some(value: T)

  /** Some bit of `mask` is set in `v`. */
  predicate HasAny(v: bv8, mask: bv8)
  {
    v & mask != 0
  }

  /** `v` with the bits of `mask` cleared. */
  function Clear(v: bv8, mask: bv8): bv8
  {
    v & !mask
  }

  /** The word whose high byte is `hi` and low byte is `lo`. */
  function Word(hi: bv8, lo: bv8): bv16
  {
    (hi as bv16 << 8) | lo as bv16
  }

  /** The low byte of a word. */
  function Lo(w: bv16): bv8
  {
    (w & 0xff) as bv8
  }

  /** The high byte of a word. */
  function Hi(w: bv16): bv8
  {
    (w >> 8) as bv8
  }

  /** The halves of a word built from two bytes are those bytes. */
  lemma WordHalves(hi: bv8, lo: bv8)
    ensures Hi(Word(hi, lo)) == hi && Lo(Word(hi, lo)) == lo
  {
  }

  /** A word is rebuilt from its halves. */
  lemma WordOfHalves(w: bv16)
    ensures Word(Hi(w), Lo(w)) == w
  {
  }

  /** `k` when `b` holds, else 0: a flag placed at its bit. */
  function Bit(b: bool, k: bv8): bv8
  {
    if b then k else 0
  }

  /** `x + 1` on a 16-bit register, wrapping at FFFF. */
  function Succ(x: bv16): bv16
  {
    x + 1
  }

  /** `x - 1` on a 16-bit register, wrapping at 0. */
  function Pred(x: bv16): bv16
  {
    x - 1
  }

  /** Stepping down and back up returns the start. */
  lemma SuccPred(x: bv16)
    ensures Succ(Pred(x)) == x && Pred(Succ(x)) == x
  {
  }

  /** The two bytes below `x`, and the two above it, are distinct from each other and from `x`. */
  lemma NeighboursDistinct(x: bv16)
    ensures Pred(x) != x && Pred(Pred(x)) != x && Pred(Pred(x)) != Pred(x)
    ensures Succ(x) != x
  {
  }

  /** Two steps down or up are a move by 2. */
  lemma TwoSteps(x: bv16)
    ensures Pred(Pred(x)) == x - 2 && Succ(Succ(x)) == x + 2
  {
  }

  /** A 16-bit bus address, boxed so that maps keyed by it behave as maps. */
  datatype Addr = At(w: bv16)

  /** A byte-wide memory covering the whole 64K address space. */
  ghost predicate Full(m: map<Addr, bv8>)
  {
    forall a: Addr :: a in m
  }
}
