/** The `reg` union of `GBEmulator/Gameboy.h`: a 16-bit register pair that is
    also addressable as two bytes, `b8[HI]` (HI = 1) and `b8[LO]` (LO = 0).
    The pair is kept as its two bytes; the 16-bit view is derived, which
    makes the two views consistent by construction. The union in the
    source gives this layout only on a little-endian host. */
module Registers {
  import opened Bits

  const HI: nat := 1
  const LO: nat := 0

  datatype Pair = Pair(hi: u8, lo: u8) {
    /** The `b16` view: the high byte is the more significant one. */
    function Word(): u16 {
      hi * 0x100 + lo
    }

    /** The `b8[]` view, indexed by HI or LO. */
    function Byte(half: nat): u8
      requires half == HI || half == LO
    {
      if half == HI then hi else lo
    }
  }

  /** Writing a 16-bit value `NN` as `b8[HI] = NN >> 8; b8[LO] = NN & 0xFF`
      (in the arithmetic form of SplitMasks). */
  function FromWord(w: u16): (p: Pair)
    ensures p.Word() == w
  {
    Pair(w / 0x100, w % 0x100)
  }

  /** `NN >> 8` is `NN / 256` and `NN & 0xFF` is `NN % 256`. */
  lemma SplitMasks(w: u16)
    ensures Shr(w, 8) == w / 0x100 && And(w, 0xFF) == w % 0x100
  {
    ShrIsDiv(w, 8);
    AndOfOnes(w, 8);
  }

  /** The high byte of the 16-bit view is `hi` and the low byte is `lo`. */
  lemma WordBytes(p: Pair)
    ensures p.Word() / 0x100 == p.hi && p.Word() % 0x100 == p.lo
  {
    DivUnique(p.Word(), 0x100, p.hi, p.lo);
  }

  /** Splitting the 16-bit view and reading it back gives the same pair. */
  lemma WordRoundTrip(p: Pair)
    ensures FromWord(p.Word()) == p
  {
    WordBytes(p);
  }
}
