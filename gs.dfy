// General Sound card: the port handshake between the Spectrum side ("ZX") and
// the card's own Z80 ("GS"), bank selection, volume latches and channel mixing.
// The card's CPU (z80ex) is foreign code; the moment it runs (gsFlush) is the
// identity here, so every external access acts on the state as it is.

module GeneralSound {

  /** A page of card memory mapped into one of the four 16K banks. */
  datatype Page = Rom(romPage: bv8) | Ram(ramPage: bv8)

  /** The mixing mode kept in `stereo`; the header's numeric codes are not modelled. */
  datatype StereoMode = Mono | Split12_34 | OtherMode

  /** GS_OK / GS_ERR of the external interface. */
  datatype Status = Ok | Err

  /** The state of the card, field for field as in the GSound struct. */
  datatype Card = Card(
    enabled: bool,
    pb3Gs: bv8,     // data latch, GS -> ZX
    pb3Zx: bv8,     // data latch, ZX -> GS
    pbbZx: bv8,     // command latch, ZX -> GS
    rp0: bv8,       // last value written to internal port 0
    pstate: bv8,    // bit 7: data flag, bit 0: command flag
    vol1: bv8, vol2: bv8, vol3: bv8, vol4: bv8,
    ch1: bv8, ch2: bv8, ch3: bv8, ch4: bv8,
    cnt: int,
    stereo: StereoMode,
    bank0: Page, bank1: Page, bank2: Page, bank3: Page)

  const DataFlag: bv8 := 0x80
  const CommandFlag: bv8 := 0x01

  /** What every operation keeps: volumes are 6-bit. */
  ghost predicate Inv(c: Card)
  {
    c.vol1 < 64 && c.vol2 < 64 && c.vol3 < 64 && c.vol4 < 64
  }

  /** gsCreate: the power-on state. */
  function Initial(): (c: Card)
    ensures Inv(c)
  {
    Card(true, 0, 0, 0, 0, 0x7e, 0, 0, 0, 0, 0, 0, 0, 0, 0, Split12_34,
         Rom(0), Ram(0), Ram(0), Ram(1))
  }

  /** gsmemrd: a read by the card's CPU from a channel window latches the byte. */
  function MemRead(c: Card, adr: bv16, b: bv8): Card
  {
    var w := adr & 0xe300;
    if w == 0x6000 then c.(ch1 := b)
    else if w == 0x6100 then c.(ch2 := b)
    else if w == 0x6200 then c.(ch3 := b)
    else if w == 0x6300 then c.(ch4 := b)
    else c
  }

  /** gsiord: an IN by the card's CPU; only the low nibble of the port is decoded. */
  function InternalRead(c: Card, port: bv16): (bv8, Card)
  {
    (ReadValue(c, port & 0x0f), c.(pstate := ReadPstate(c, port & 0x0f)))
  }

  /** The byte gsiord returns for port nibble `p`. */
  function ReadValue(c: Card, p: bv16): bv8
  {
    if p == 1 then c.pbbZx
    else if p == 2 then c.pb3Zx
    else if p == 4 then c.pstate
    else 0xff
  }

  /** `pstate` after gsiord on port nibble `p`. */
  function ReadPstate(c: Card, p: bv16): bv8
  {
    if p == 2 then c.pstate & 0x7f
    else if p == 3 then c.pstate | 0x80
    else if p == 5 then c.pstate & 0xfe
    else if p == 10 then (if c.rp0 & 0x01 != 0 then c.pstate & 0x7f else c.pstate | 0x80)
    else if p == 11 then (if c.vol1 & 0x20 != 0 then c.pstate | 1 else c.pstate & 0xfe)
    else c.pstate
  }

  /** Banks 2 and 3 after a write of `val` to internal port 0. */
  function BankPair(val: bv8): (Page, Page)
  {
    var v := val & 7;
    if v == 0 then (Rom(0), Rom(1))
    else (Ram(2 * v - 2), Ram(2 * v - 1))
  }

  /** gsiowr: an OUT by the card's CPU; only the low nibble of the port is decoded. */
  function InternalWrite(c: Card, port: bv16, val: bv8): Card
  {
    var p := port & 0x0f;
    var banks := if p == 0 then BankPair(val) else (c.bank2, c.bank3);
    c.(rp0 := if p == 0 then val else c.rp0,
       bank2 := banks.0, bank3 := banks.1,
       pb3Gs := if p == 3 then val else c.pb3Gs,
       pstate := WritePstate(c, p),
       vol1 := if p == 6 then val & 0x3f else c.vol1,
       vol2 := if p == 7 then val & 0x3f else c.vol2,
       vol3 := if p == 8 then val & 0x3f else c.vol3,
       vol4 := if p == 9 then val & 0x3f else c.vol4)
  }

  /** `pstate` after gsiowr on port nibble `p`. */
  function WritePstate(c: Card, p: bv16): bv8
  {
    if p == 2 then c.pstate & 0x7f
    else if p == 3 then c.pstate | 0x80
    else if p == 5 then c.pstate & 0xfe
    else if p == 10 then (if c.rp0 & 1 != 0 then c.pstate & 0x7f else c.pstate | 0x80)
    else if p == 11 then (if c.vol1 & 64 != 0 then c.pstate | 1 else c.pstate & 0xfe)
    else c.pstate
  }

  /** The guard shared by gsIn and gsOut: a disabled card or a port it does not decode. */
  predicate Catches(c: Card, prt: bv32)
  {
    c.enabled && !PortBits(prt, 0x44)
  }

  /** Some bit of `m` is set in the external port number. */
  predicate PortBits(prt: bv32, m: bv32)
  {
    prt & m != 0
  }

  /** gsIn: status, the value stored through `val` (unchanged on error) and the new card. */
  function ExternalIn(c: Card, prt: bv32, val: bv8): (Status, bv8, Card)
  {
    if !Catches(c, prt) then (Err, val, c)
    else if PortBits(prt, 8) then (Ok, c.pstate, c)
    else (Ok, c.pb3Gs, c.(pstate := c.pstate & 0x7f))
  }

  /** gsOut: status and the new card. */
  function ExternalOut(c: Card, prt: bv32, val: bv8): (Status, Card)
  {
    if !Catches(c, prt) then (Err, c)
    else if PortBits(prt, 8) then (Ok, c.(pbbZx := val, pstate := c.pstate | 1))
    else (Ok, c.(pb3Zx := val, pstate := c.pstate | 0x80))
  }

  /** One channel's contribution: the sample scaled by its volume, in C's `int`. */
  function Weighted(ch: bv8, vol: bv8): int
  {
    ch as int * vol as int
  }

  /** gsGetVolume: the (left, right) pair, each stored in a byte. */
  function Volume(c: Card): (int, int)
  {
    Mix(c.enabled, c.stereo, Weighted(c.ch1, c.vol1), Weighted(c.ch2, c.vol2),
        Weighted(c.ch3, c.vol3), Weighted(c.ch4, c.vol4))
  }

  /** The mixer of gsGetVolume over the four weighted channels. */
  function Mix(enabled: bool, stereo: StereoMode, w1: int, w2: int, w3: int, w4: int): (int, int)
  {
    if !enabled then (0, 0)
    else match stereo
      case Mono =>
        var m := ((w1 + w2 + w3 + w4) / 512) % 256;
        (m, m)
      case Split12_34 => (((w1 + w2) / 256) % 256, ((w3 + w4) / 256) % 256)
      case OtherMode => (0, 0)
  }

  // ---------------------------------------------------------------------------
  // Properties

  lemma MemReadKeepsInv(c: Card, adr: bv16, b: bv8)
    requires Inv(c)
    ensures Inv(MemRead(c, adr, b))
    ensures var c' := MemRead(c, adr, b);
      c'.pstate == c.pstate && c'.vol1 == c.vol1 && c'.vol2 == c.vol2 &&
      c'.vol3 == c.vol3 && c'.vol4 == c.vol4
  {
  }

  /** A read through a channel window latches into exactly that channel. */
  lemma MemReadLatches(c: Card, adr: bv16, b: bv8)
    ensures var c' := MemRead(c, adr, b);
      (c'.ch1 == if adr & 0xe300 == 0x6000 then b else c.ch1) &&
      (c'.ch2 == if adr & 0xe300 == 0x6100 then b else c.ch2) &&
      (c'.ch3 == if adr & 0xe300 == 0x6200 then b else c.ch3) &&
      (c'.ch4 == if adr & 0xe300 == 0x6300 then b else c.ch4)
  {
  }

  lemma InternalReadKeepsInv(c: Card, port: bv16)
    requires Inv(c)
    ensures Inv(InternalRead(c, port).1)
  {
  }

  lemma InternalWriteKeepsInv(c: Card, port: bv16, val: bv8)
    requires Inv(c)
    ensures Inv(InternalWrite(c, port, val))
  {
  }

  /** Internal accesses decode only the low nibble of the port. */
  lemma InternalPortsDecodeLowNibble(c: Card, port: bv16, val: bv8)
    ensures InternalRead(c, port) == InternalRead(c, port & 0x0f)
    ensures InternalWrite(c, port, val) == InternalWrite(c, port & 0x0f, val)
  {
  }

  /** Volume latches are 6 bits wide: ports 6..9 store `val & 0x3f`, never more than 63. */
  lemma VolumeLatch(c: Card, port: bv16, val: bv8)
    requires 6 <= port & 0x0f <= 9
    ensures var c' := InternalWrite(c, port, val);
      var v := val & 0x3f;
      v < 64 &&
      (port & 0x0f == 6 ==> c'.vol1 == v && c'.vol2 == c.vol2) &&
      (port & 0x0f == 7 ==> c'.vol2 == v && c'.vol1 == c.vol1) &&
      (port & 0x0f == 8 ==> c'.vol3 == v && c'.vol4 == c.vol4) &&
      (port & 0x0f == 9 ==> c'.vol4 == v && c'.vol3 == c.vol3) &&
      c'.pstate == c.pstate
  {
  }

  /** Port 0 selects the pages for banks 2 and 3 from its low three bits. */
  lemma BankSelect(c: Card, port: bv16, val: bv8)
    requires port & 0x0f == 0
    ensures var c' := InternalWrite(c, port, val);
      c'.rp0 == val && c'.bank0 == c.bank0 && c'.bank1 == c.bank1 &&
      (val & 7 == 0 ==> c'.bank2 == Rom(0) && c'.bank3 == Rom(1)) &&
      (val & 7 != 0 ==>
        c'.bank2.Ram? && c'.bank3.Ram? &&
        c'.bank2.ramPage == 2 * (val & 7) - 2 &&
        c'.bank3.ramPage == c'.bank2.ramPage + 1)
  {
  }

  /** Both external accesses refuse, and change nothing, when the card does not catch the port. */
  lemma ExternalGuard(c: Card, prt: bv32, val: bv8)
    requires !c.enabled || prt & 0x44 != 0
    ensures ExternalIn(c, prt, val) == (Err, val, c)
    ensures ExternalOut(c, prt, val) == (Err, c)
  {
  }

  /** The status is Ok exactly when the card catches the port. */
  lemma ExternalStatus(c: Card, prt: bv32, val: bv8)
    ensures ExternalIn(c, prt, val).0 == Ok <==> Catches(c, prt)
    ensures ExternalOut(c, prt, val).0 == Ok <==> Catches(c, prt)
  {
  }

  /**
   * Data from ZX to GS: an external data write latches the byte and raises bit 7;
   * the card's read of port 2 then yields that byte and drops bit 7 again.
   */
  lemma DataToCard(c: Card, prt: bv32, v: bv8, port: bv16)
    requires Catches(c, prt) && prt & 8 == 0 && port & 0x0f == 2
    ensures var (st, c1) := ExternalOut(c, prt, v);
      st == Ok && c1.pstate & DataFlag != 0 &&
      InternalRead(c1, port).0 == v &&
      InternalRead(c1, port).1.pstate & DataFlag == 0 &&
      InternalRead(c1, port).1.pstate & 0x7f == c.pstate & 0x7f
  {
  }

  /**
   * Data from GS to ZX: the card's write to port 3 latches the byte and raises bit 7;
   * an external data read then yields that byte and drops bit 7.
   */
  lemma DataToHost(c: Card, port: bv16, v: bv8, prt: bv32, old_val: bv8)
    requires port & 0x0f == 3 && Catches(c, prt) && prt & 8 == 0
    ensures var c1 := InternalWrite(c, port, v);
      c1.pstate & DataFlag != 0 &&
      ExternalIn(c1, prt, old_val).0 == Ok &&
      ExternalIn(c1, prt, old_val).1 == v &&
      ExternalIn(c1, prt, old_val).2.pstate & DataFlag == 0
  {
  }

  /**
   * Commands from ZX to GS: an external command write latches the byte in `pbbZx` and
   * raises bit 0; internal port 1 reads it back, and port 5 (read or write) drops bit 0.
   */
  lemma CommandToCard(c: Card, prt: bv32, v: bv8, p1: bv16, p5: bv16, w: bv8)
    requires Catches(c, prt) && prt & 8 != 0 && p1 & 0x0f == 1 && p5 & 0x0f == 5
    ensures var (st, c1) := ExternalOut(c, prt, v);
      st == Ok && c1.pstate & CommandFlag != 0 &&
      InternalRead(c1, p1) == (v, c1) &&
      InternalRead(c1, p5).1.pstate & CommandFlag == 0 &&
      InternalWrite(c1, p5, w).pstate & CommandFlag == 0 &&
      InternalWrite(c1, p5, w).pstate | CommandFlag == c1.pstate
  {
  }

  /** The status read of the external port shows `pstate` and changes nothing. */
  lemma StatusRead(c: Card, prt: bv32, val: bv8)
    requires Catches(c, prt) && prt & 8 != 0
    ensures ExternalIn(c, prt, val) == (Ok, c.pstate, c)
  {
  }

  /**
   * An internal write to port 11 tests bit 6 of `vol1`, which a 6-bit volume never has,
   * so under the invariant it always clears the command flag and nothing else.
   */
  lemma Port11WriteClearsCommand(c: Card, port: bv16, val: bv8)
    requires Inv(c) && port & 0x0f == 11
    ensures InternalWrite(c, port, val) == c.(pstate := c.pstate & 0xfe)
  {
    assert c.vol1 & 64 == 0 by {
      assert 0 <= c.vol1 < 64;
      BytesBelow64HaveNoBit6(c.vol1 as bv8);
    }
  }

  lemma BytesBelow64HaveNoBit6(b: bv8)
    requires b < 64
    ensures b & 64 == 0
  {
  }

  /**
   * Mixing never truncates under the invariant: each output is the plain weighted sum,
   * shifted, and at most 125.
   */
  lemma VolumeBounds(c: Card)
    requires Inv(c)
    ensures var (l, r) := Volume(c);
      0 <= l <= 125 && 0 <= r <= 125 &&
      (!c.enabled || c.stereo == OtherMode ==> l == 0 && r == 0) &&
      (c.enabled && c.stereo == Mono ==>
        l == r == (Weighted(c.ch1, c.vol1) + Weighted(c.ch2, c.vol2) +
                   Weighted(c.ch3, c.vol3) + Weighted(c.ch4, c.vol4)) / 512) &&
      (c.enabled && c.stereo == Split12_34 ==>
        l == (Weighted(c.ch1, c.vol1) + Weighted(c.ch2, c.vol2)) / 256 &&
        r == (Weighted(c.ch3, c.vol3) + Weighted(c.ch4, c.vol4)) / 256)
  {
    ProductBound(c.ch1, c.vol1);
    ProductBound(c.ch2, c.vol2);
    ProductBound(c.ch3, c.vol3);
    ProductBound(c.ch4, c.vol4);
    MixNeverTruncates(c.enabled, c.stereo, Weighted(c.ch1, c.vol1), Weighted(c.ch2, c.vol2),
                      Weighted(c.ch3, c.vol3), Weighted(c.ch4, c.vol4));
  }

  /** With every weighted channel at most 255 * 63, the mixer's `% 256` never bites. */
  lemma MixNeverTruncates(enabled: bool, stereo: StereoMode, w1: int, w2: int, w3: int, w4: int)
    requires 0 <= w1 <= 255 * 63 && 0 <= w2 <= 255 * 63
    requires 0 <= w3 <= 255 * 63 && 0 <= w4 <= 255 * 63
    ensures var (l, r) := Mix(enabled, stereo, w1, w2, w3, w4);
      0 <= l <= 125 && 0 <= r <= 125 &&
      (!enabled || stereo == OtherMode ==> l == 0 && r == 0) &&
      (enabled && stereo == Mono ==> l == r == (w1 + w2 + w3 + w4) / 512) &&
      (enabled && stereo == Split12_34 ==> l == (w1 + w2) / 256 && r == (w3 + w4) / 256)
  {
    ByteIsItsOwnResidue((w1 + w2 + w3 + w4) / 512);
    ByteIsItsOwnResidue((w1 + w2) / 256);
    ByteIsItsOwnResidue((w3 + w4) / 256);
  }

  lemma ByteIsItsOwnResidue(x: int)
    requires 0 <= x < 256
    ensures x % 256 == x
  {
  }

  lemma ProductBound(ch: bv8, vol: bv8)
    requires vol < 64
    ensures 0 <= Weighted(ch, vol) <= 255 * 63
  {
    ByteRange(ch);
    Below64(vol);
    MulBound(ch as int, vol as int);
  }

  lemma ByteRange(b: bv8)
    ensures 0 <= b as int < 256
  {
  }

  lemma Below64(b: bv8)
    requires b < 64
    ensures b as int < 64
  {
  }

  lemma MulBound(a: int, b: int)
    requires 0 <= a < 256 && 0 <= b < 64
    ensures 0 <= a * b <= 255 * 63
  {
  }

  // ---------------------------------------------------------------------------
  // The card as the mutable struct the emulator keeps

  /** The handshake latches of the GSound struct. */
  datatype Latches = Latches(pb3Gs: bv8, pb3Zx: bv8, pbbZx: bv8, rp0: bv8, pstate: bv8)

  /** Four bytes, one per channel: the volumes vol1..vol4 or the samples ch1..ch4. */
  datatype Quad = Quad(c1: bv8, c2: bv8, c3: bv8, c4: bv8)

  /** The pages mapped into the four 16K banks. */
  datatype Banks = Banks(b0: Page, b1: Page, b2: Page, b3: Page)

  /** gsiowr on port nibble 0 touches the bank latch and banks 2 and 3 only. */
  lemma WriteBanksForm(c: Card, port: bv16, val: bv8)
    requires port & 0x0f == 0
    ensures InternalWrite(c, port, val) == c.(rp0 := val, bank2 := BankPair(val).0, bank3 := BankPair(val).1)
  {
  }

  /** gsiowr on ports 6..9 touches the four volumes only. */
  lemma WriteVolumeForm(c: Card, port: bv16, val: bv8)
    requires 6 <= port & 0x0f <= 9
    ensures var p := port & 0x0f;
      InternalWrite(c, port, val) == c.(vol1 := if p == 6 then val & 0x3f else c.vol1,
                                        vol2 := if p == 7 then val & 0x3f else c.vol2,
                                        vol3 := if p == 8 then val & 0x3f else c.vol3,
                                        vol4 := if p == 9 then val & 0x3f else c.vol4)
  {
  }

  /** gsiowr on the other ports touches the state register and the port 3 latch only. */
  lemma WriteHandshakeForm(c: Card, port: bv16, val: bv8)
    requires port & 0x0f != 0 && !(6 <= port & 0x0f <= 9)
    ensures InternalWrite(c, port, val) ==
      c.(pstate := WritePstate(c, port & 0x0f), pb3Gs := if port & 0x0f == 3 then val else c.pb3Gs)
  {
  }

  class GSound {
    var enabled: bool
    var lat: Latches
    var vol: Quad
    var ch: Quad
    var cnt: int
    var stereo: StereoMode
    var banks: Banks

    function State(): Card
      reads this
    {
      Card(enabled, lat.pb3Gs, lat.pb3Zx, lat.pbbZx, lat.rp0, lat.pstate,
           vol.c1, vol.c2, vol.c3, vol.c4, ch.c1, ch.c2, ch.c3, ch.c4, cnt, stereo,
           banks.b0, banks.b1, banks.b2, banks.b3)
    }

    /** gsCreate */
    constructor ()
      ensures State() == Initial()
    {
      banks := Banks(Rom(0), Ram(0), Ram(0), Ram(1));
      cnt := 0;
      lat := Latches(0, 0, 0, 0, 0x7e);
      enabled := true;
      stereo := Split12_34;
      ch := Quad(0, 0, 0, 0);
      vol := Quad(0, 0, 0, 0);
    }

    /** gsmemrd; `b` is the byte the memory module returns for `adr`. */
    method MemRd(adr: bv16, b: bv8) returns (res: bv8)
      modifies this
      ensures res == b
      ensures State() == MemRead(old(State()), adr, b)
    {
      res := b;
      var w := adr & 0xe300;
      if w == 0x6000 { ch := ch.(c1 := b); }
      else if w == 0x6100 { ch := ch.(c2 := b); }
      else if w == 0x6200 { ch := ch.(c3 := b); }
      else if w == 0x6300 { ch := ch.(c4 := b); }
    }

    /** gsiord */
    method IoRd(port: bv16) returns (res: bv8)
      modifies this
      ensures res == ReadValue(old(State()), port & 0x0f)
      ensures lat.pstate == ReadPstate(old(State()), port & 0x0f)
      ensures State() == old(State()).(pstate := lat.pstate)
    {
      res := 0xff;
      var p := port & 0x0f;
      if p == 1 {
        res := lat.pbbZx;
      } else if p == 2 {
        lat := lat.(pstate := lat.pstate & 0x7f);
        res := lat.pb3Zx;
      } else if p == 3 {
        lat := lat.(pstate := lat.pstate | 0x80);
      } else if p == 4 {
        res := lat.pstate;
      } else if p == 5 {
        lat := lat.(pstate := lat.pstate & 0xfe);
      } else if p == 10 {
        if lat.rp0 & 0x01 != 0 { lat := lat.(pstate := lat.pstate & 0x7f); }
        else { lat := lat.(pstate := lat.pstate | 0x80); }
      } else if p == 11 {
        if vol.c1 & 0x20 != 0 { lat := lat.(pstate := lat.pstate | 1); }
        else { lat := lat.(pstate := lat.pstate & 0xfe); }
      }
    }

    /** gsiowr */
    method IoWr(port: bv16, val: bv8)
      modifies this
      ensures State() == InternalWrite(old(State()), port, val)
    {
      var p := port & 0x0f;
      if p == 0 {
        WriteBanksForm(State(), port, val);
        SelectBanks(val);
      } else if 6 <= p <= 9 {
        WriteVolumeForm(State(), port, val);
        LatchVolume(p, val);
      } else {
        WriteHandshakeForm(State(), port, val);
        WriteHandshake(p, val);
      }
    }

    /** Port 0 of gsiowr: remember the value and remap banks 2 and 3. */
    method SelectBanks(val: bv8)
      modifies this
      ensures lat.rp0 == val && (banks.b2, banks.b3) == BankPair(val)
      ensures State() == old(State()).(rp0 := lat.rp0, bank2 := banks.b2, bank3 := banks.b3)
    {
      lat := lat.(rp0 := val);
      var v := val & 7;
      if v == 0 {
        banks := banks.(b2 := Rom(0), b3 := Rom(1));
      } else {
        banks := banks.(b2 := Ram(2 * v - 2), b3 := Ram(2 * v - 1));
      }
    }

    /** Ports 6..9 of gsiowr: a 6-bit volume latch. */
    method LatchVolume(p: bv16, val: bv8)
      requires 6 <= p <= 9
      modifies this
      ensures vol.c1 == (if p == 6 then val & 0x3f else old(vol.c1))
      ensures vol.c2 == (if p == 7 then val & 0x3f else old(vol.c2))
      ensures vol.c3 == (if p == 8 then val & 0x3f else old(vol.c3))
      ensures vol.c4 == (if p == 9 then val & 0x3f else old(vol.c4))
      ensures State() == old(State()).(vol1 := vol.c1, vol2 := vol.c2, vol3 := vol.c3, vol4 := vol.c4)
    {
      if p == 6 { vol := vol.(c1 := val & 0x3f); }
      else if p == 7 { vol := vol.(c2 := val & 0x3f); }
      else if p == 8 { vol := vol.(c3 := val & 0x3f); }
      else { vol := vol.(c4 := val & 0x3f); }
    }

    /** The other ports of gsiowr: the handshake bits, and the data latch on port 3. */
    method WriteHandshake(p: bv16, val: bv8)
      requires p != 0 && !(6 <= p <= 9)
      modifies this
      ensures lat.pstate == WritePstate(old(State()), p)
      ensures lat.pb3Gs == if p == 3 then val else old(lat.pb3Gs)
      ensures State() == old(State()).(pstate := lat.pstate, pb3Gs := lat.pb3Gs)
    {
      if p == 2 {
        lat := lat.(pstate := lat.pstate & 0x7f);
      } else if p == 3 {
        lat := lat.(pstate := lat.pstate | 0x80, pb3Gs := val);
      } else if p == 5 {
        lat := lat.(pstate := lat.pstate & 0xfe);
      } else if p == 10 {
        if lat.rp0 & 1 != 0 { lat := lat.(pstate := lat.pstate & 0x7f); }
        else { lat := lat.(pstate := lat.pstate | 0x80); }
      } else if p == 11 {
        if vol.c1 & 64 != 0 { lat := lat.(pstate := lat.pstate | 1); }
        else { lat := lat.(pstate := lat.pstate & 0xfe); }
      }
    }

    /** gsGetVolume */
    method GetVolume() returns (left: int, right: int)
      ensures (left, right) == Volume(State())
    {
      left, right := 0, 0;
      if !enabled { return; }
      var w1, w2, w3, w4 := Weighted(ch.c1, vol.c1), Weighted(ch.c2, vol.c2), Weighted(ch.c3, vol.c3), Weighted(ch.c4, vol.c4);
      assert Volume(State()) == Mix(true, stereo, w1, w2, w3, w4);
      match stereo {
        case Mono =>
          left := ((w1 + w2 + w3 + w4) / 512) % 256;
          right := left;
        case Split12_34 =>
          left := ((w1 + w2) / 256) % 256;
          right := ((w3 + w4) / 256) % 256;
        case OtherMode =>
      }
    }

    /** gsIn; `val` is the value behind the out-pointer before the call. */
    method In(prt: bv32, val: bv8) returns (st: Status, v: bv8)
      modifies this
      ensures (st, v, State()) == ExternalIn(old(State()), prt, val)
    {
      v := val;
      if !enabled { return Err, v; }
      if PortBits(prt, 0x44) { return Err, v; }
      if PortBits(prt, 8) {
        v := lat.pstate;
      } else {
        v := lat.pb3Gs;
        lat := lat.(pstate := lat.pstate & 0x7f);
      }
      st := Ok;
    }

    /** gsOut */
    method Out(prt: bv32, val: bv8) returns (st: Status)
      modifies this
      ensures (st, State()) == ExternalOut(old(State()), prt, val)
    {
      if !enabled {
        st := Err;
      } else if PortBits(prt, 0x44) {
        st := Err;
      } else if PortBits(prt, 8) {
        lat := lat.(pbbZx := val, pstate := lat.pstate | 1);
        st := Ok;
        assert State() == old(State()).(pbbZx := val, pstate := lat.pstate);
      } else {
        lat := lat.(pb3Zx := val, pstate := lat.pstate | 0x80);
        st := Ok;
        assert State() == old(State()).(pb3Zx := val, pstate := lat.pstate);
      }
    }
  }
}
