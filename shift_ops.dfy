/** The byte operations behind the 0xCB prefix (`CPU::shift_operation_CB`,
    `GBEmulator/Gameboy.cpp`): rotates, shifts, SWAP, BIT, RES and SET on one
    byte. Each function computes the value and flags as the source does, with
    `|` as the bitwise Or and each shift by a constant as a multiplication or
    division by its power of two; a shifted byte that is stored back into a
    `uint8_t` is reduced modulo 256. The contracts say what each operation
    does to the byte as a number: which part moves where. */
module ShiftOps {
  import opened Bits
  import opened Alu

  /** `a | (m << 7)` with `a` below bit 7: the sum. */
  lemma OrAbove7(a: nat, m: nat)
    requires a < 0x80
    ensures Or(a, m * 0x80) == a + m * 0x80
  {
    assert Pow2(7) == 0x80;
    OrOfDisjoint(m, a, 7);
    OrCommutes(a, m * 0x80);
  }

  /** `a | (m << 4)` with `a` below bit 4: the sum. */
  lemma OrAbove4(a: nat, m: nat)
    requires a < 0x10
    ensures Or(a, m * 0x10) == a + m * 0x10
  {
    assert Pow2(4) == 0x10;
    OrOfDisjoint(m, a, 4);
    OrCommutes(a, m * 0x10);
  }

  /** `a | (m << 8)` with `a` a byte: the sum. */
  lemma OrAbove8(a: nat, m: nat)
    requires a < 0x100
    ensures Or(a, m * 0x100) == a + m * 0x100
    ensures Or(m * 0x100, a) == a + m * 0x100
  {
    assert Pow2(8) == 0x100;
    OrOfDisjoint(m, a, 8);
    OrCommutes(a, m * 0x100);
  }

  /** `(m << 1) | c` with `c` a single bit: the sum. */
  lemma OrBelow1(m: nat, c: nat)
    requires c < 2
    ensures Or(m * 2, c) == m * 2 + c
  {
    assert Pow2(1) == 2;
    OrOfDisjoint(m, c, 1);
  }

  /** A byte shifted left by one and stored back in a byte loses bit 7. */
  lemma DoubleWrap(v: u8)
    ensures Wrap8(v * 2) == (v % 0x80) * 2
  {
    var q := v / 0x80;
    assert v * 2 == 0x100 * q + (v % 0x80) * 2;
  }

  /** Above seven low bits, only bit 0 of `c << 7` survives in a byte. */
  lemma TopWrap(x: nat, c: nat)
    requires x < 0x80
    ensures Wrap8(x + c * 0x80) == x + (c % 2) * 0x80
  {
    var q := c / 2;
    assert x + c * 0x80 == 0x100 * q + x + (c % 2) * 0x80;
  }

  /** The two halves SWAP puts together. */
  lemma SwapHalves(v: u8)
    ensures (v / 0x10) % 0x10 == v / 0x10
    ensures (v * 0x10) % 0x100 == (v % 0x10) * 0x10
  {
    var q := v / 0x10;
    assert v * 0x10 == 0x100 * q + (v % 0x10) * 0x10;
  }

  /** RLC: `val = val << 1; val |= N >> 7; FC = N >> 7`. Bit 7 goes round to
      bit 0 and into C. */
  function Rlc(v: u8): (r: AluResult)
    ensures r.value == (v % 0x80) * 2 + v / 0x80
    ensures r.f == Flags(Flag(v == 0), 0, 0, v / 0x80)
  {
    DoubleWrap(v);
    OrBelow1(v % 0x80, v / 0x80);
    var w := Or(Wrap8(v * 2), v / 0x80);
    AluResult(w, Flags(Flag(w == 0), 0, 0, v / 0x80))
  }

  /** ORing the C byte into the shifted byte stays within a byte. */
  lemma CarryOrWidth(v: u8, c: u8)
    ensures Or(Wrap8(v * 2), c) < 0x100
  {
    assert Pow2(8) == 0x100;
    OrXorWidth(Wrap8(v * 2), c, 8);
  }

  /** ORing a 0/1 C byte into the shifted byte adds it. */
  lemma CarryOrValue(v: u8, c: u8)
    ensures c <= 1 ==> Or(Wrap8(v * 2), c) == (v % 0x80) * 2 + c
  {
    DoubleWrap(v);
    if c <= 1 {
      OrBelow1(v % 0x80, c);
    }
  }

  /** RL: `val = val << 1; val |= FC; FC = N >> 7`: a rotate through the
      carry. The whole C byte is ORed in, which is a rotate only while C
      holds 0 or 1. */
  function Rl(v: u8, f: Flags): (r: AluResult)
    ensures f.c <= 1 ==> r.value == (v % 0x80) * 2 + f.c
    ensures r.f.z == Flag(r.value == 0) && r.f.n == 0 && r.f.h == 0 && r.f.c == v / 0x80
  {
    CarryOrWidth(v, f.c);
    CarryOrValue(v, f.c);
    var w := Or(Wrap8(v * 2), f.c);
    AluResult(w, Flags(Flag(w == 0), 0, 0, v / 0x80))
  }

  /** RRC: `val = val >> 1; val |= N << 7; FC = N & 1`. Bit 0 goes round to
      bit 7 and into C. */
  function Rrc(v: u8): (r: AluResult)
    ensures r.value == v / 2 + (v % 2) * 0x80
    ensures r.f == Flags(Flag(v == 0), 0, 0, v % 2)
  {
    OrAbove7(v / 2, v);
    TopWrap(v / 2, v);
    var w := Wrap8(Or(v / 2, v * 0x80));
    AluResult(w, Flags(Flag(w == 0), 0, 0, v % 2))
  }

  /** RR: `val = val >> 1; val |= FC << 7; FC = N & 1`: a rotate through the
      carry. Only bit 0 of the C byte survives the shift into the byte. */
  function Rr(v: u8, f: Flags): (r: AluResult)
    ensures r.value == v / 2 + (f.c % 2) * 0x80
    ensures r.f.z == Flag(r.value == 0) && r.f.n == 0 && r.f.h == 0 && r.f.c == v % 2
  {
    OrAbove7(v / 2, f.c);
    TopWrap(v / 2, f.c);
    var w := Wrap8(Or(v / 2, f.c * 0x80));
    AluResult(w, Flags(Flag(w == 0), 0, 0, v % 2))
  }

  /** SLA: `FC = val >> 7; val = val << 1`; 0 enters at bit 0. */
  function Sla(v: u8): (r: AluResult)
    ensures r.value == (v % 0x80) * 2
    ensures r.f == Flags(Flag(v % 0x80 == 0), 0, 0, v / 0x80)
  {
    var w := Wrap8(v * 2);
    AluResult(w, Flags(Flag(w == 0), 0, 0, v / 0x80))
  }

  /** SRA: `FC = val & 1; val = (val >> 1) | (val & 0x80)`: bit 7 is kept. */
  function Sra(v: u8): (r: AluResult)
    ensures r.value == v / 2 + (v / 0x80) * 0x80
    ensures r.f == Flags(Flag(v / 2 == 0), 0, 0, v % 2)
  {
    OrAbove7(v / 2, v / 0x80);
    var w := Or(v / 2, (v / 0x80) * 0x80);
    AluResult(w, Flags(Flag(w == 0), 0, 0, v % 2))
  }

  /** SRL: `FC = val & 1; val = val >> 1`; 0 enters at bit 7. */
  function Srl(v: u8): (r: AluResult)
    ensures r.value == v / 2
    ensures r.f == Flags(Flag(v / 2 == 0), 0, 0, v % 2)
  {
    var w := v / 2;
    AluResult(w, Flags(Flag(w == 0), 0, 0, v % 2))
  }

  /** SWAP: `N = (val >> 4) & 0x0F; N |= (val << 4) & 0xF0`: the nibbles
      change places; Z iff the byte is 0, N = H = C = 0. */
  function Swap(v: u8): (r: AluResult)
    ensures r.value == v / 0x10 + (v % 0x10) * 0x10
    ensures r.f == Flags(Flag(v == 0), 0, 0, 0)
  {
    SwapHalves(v);
    OrAbove4(v / 0x10, v % 0x10);
    var w := Or((v / 0x10) % 0x10, (v * 0x10) % 0x100);
    AluResult(w, Flags(Flag(w == 0), 0, 0, 0))
  }

  /** BIT b: `FZ = !((val >> B) & 1); FN = 0; FH = 1`; C kept. Z says that
      the `b`-th binary digit of the byte is 0. */
  function TestBit(v: u8, b: nat, f: Flags): (r: Flags)
    ensures r.z == 1 <==> (v / Pow2(b)) % 2 == 0
    ensures r.z <= 1 && r.n == 0 && r.h == 1 && r.c == f.c
  {
    ShrIsDiv(v, b);
    f.(z := Flag(Bit(v, b) == 0), n := 0, h := 1)
  }

  /** The mask of RES b: `(0xFE << B) | (0xFF >> (8 - B))`, evaluated on `int`. */
  function ResetMask(b: nat): nat
    requires b < 8
  {
    Or(Shl(0xFE, b), Shr(0xFF, 8 - b))
  }

  /** Bits 0 to 7 of `0xFE`. */
  lemma BitsOfFE(j: nat)
    ensures Bit(0xFE, j) == if 1 <= j < 8 then 1 else 0
  {
    assert Shl(Pow2(7) - 1, 1) == 0xFE;
    BitOfShl(Pow2(7) - 1, 1, j);
    if j >= 1 {
      BitOfOnes(7, j - 1);
    }
  }

  /** Bits of `0xFE << b`: those from `b + 1` to `b + 7`. */
  lemma ShiftedFEBit(b: nat, i: nat)
    ensures Bit(Shl(0xFE, b), i) == if b < i < b + 8 then 1 else 0
  {
    BitOfShl(0xFE, b, i);
    if i >= b {
      BitsOfFE(i - b);
    }
  }

  /** Bits of `0xFF >> (8 - b)`: those below `b`. */
  lemma ShiftedFFBit(b: nat, i: nat)
    requires b < 8
    ensures Bit(Shr(0xFF, 8 - b), i) == if i < b then 1 else 0
  {
    BitOfShr(0xFF, 8 - b, i);
    assert Pow2(8) - 1 == 0xFF;
    BitOfOnes(8, i + (8 - b));
  }

  /** The RES mask has every bit below `b + 8` set except bit `b`. */
  lemma ResetMaskBit(b: nat, i: nat)
    requires b < 8
    ensures Bit(ResetMask(b), i) == if i == b || i >= b + 8 then 0 else 1
  {
    BitOfOr(Shl(0xFE, b), Shr(0xFF, 8 - b), i);
    ShiftedFEBit(b, i);
    ShiftedFFBit(b, i);
  }

  /** Bit by bit, RES b clears bit `b` and keeps every other bit. */
  lemma ResetBits(v: u8, b: nat)
    requires b < 8
    ensures forall i: nat :: Bit(And(v, ResetMask(b)), i) == if i == b then 0 else Bit(v, i)
  {
    forall i: nat
      ensures Bit(And(v, ResetMask(b)), i) == if i == b then 0 else Bit(v, i)
    {
      BitOfAnd(v, ResetMask(b), i);
      ResetMaskBit(b, i);
      if i >= 8 {
        assert Pow2(8) == 0x100;
        BitAboveWidth(v, 8, i);
      }
    }
  }

  /** RES b: `val &= (0xFE << B) | (0xFF >> (8 - B))` clears bit b only. */
  function ResetBit(v: u8, b: nat): (r: u8)
    requires b < 8
    ensures forall i: nat :: Bit(r, i) == if i == b then 0 else Bit(v, i)
  {
    ResetBits(v, b);
    And(v, ResetMask(b))
  }

  /** Bit by bit, SET b sets bit `b` and keeps every other bit; the result
      still fits in a byte. */
  lemma SetBits(v: u8, b: nat)
    requires b < 8
    ensures Or(v, Shl(1, b)) < 0x100
    ensures forall i: nat :: Bit(Or(v, Shl(1, b)), i) == if i == b then 1 else Bit(v, i)
  {
    ShlIsMul(1, b);
    if b < 7 {
      Pow2Grows(b, 8);
    } else {
      assert Pow2(7) == 0x80;
    }
    assert Pow2(8) == 0x100;
    OrXorWidth(v, Shl(1, b), 8);
    forall i: nat
      ensures Bit(Or(v, Shl(1, b)), i) == if i == b then 1 else Bit(v, i)
    {
      BitOfOr(v, Shl(1, b), i);
      BitOfPower(b, i);
    }
  }

  /** SET b: `val |= 1 << B` sets bit b only. */
  function SetBit(v: u8, b: nat): (r: u8)
    requires b < 8
    ensures forall i: nat :: Bit(r, i) == if i == b then 1 else Bit(v, i)
  {
    SetBits(v, b);
    Or(v, Shl(1, b))
  }

  /** The outcome of one prefixed operation: the new byte, the new flags, and
      whether the byte is stored back into its target (`writeback`). */
  datatype CbResult = CbResult(value: u8, f: Flags, writeback: bool)

  /** The operation selected by the prefixed opcode `op`: `op >> 6` is the
      group, `B = (op >> 3) & 7` the bit index, and in group 0
      `(op >> 4) & 3` the shift kind and `D = (op >> 3) & 1` the direction.
      It is applied to the byte `v` with flags `f`. */
  function Apply(op: u8, v: u8, f: Flags): (r: CbResult)
    ensures r.writeback <==> op / 0x40 != 1
    ensures op / 0x40 == 1 ==> r.value == v && r.f == TestBit(v, (op / 8) % 8, f)
    ensures op / 0x40 == 2 ==> r.value == ResetBit(v, (op / 8) % 8) && r.f == f
    ensures op / 0x40 == 3 ==> r.value == SetBit(v, (op / 8) % 8) && r.f == f
  {
    var b := (op / 8) % 8;
    var d := (op / 8) % 2;
    match op / 0x40
    case 0 =>
      var kind := (op / 0x10) % 4;
      var s :=
        if kind == 0 || kind == 1 then
          if d != 0 then (if kind != 0 then Rr(v, f) else Rrc(v))
          else (if kind != 0 then Rl(v, f) else Rlc(v))
        else if kind == 2 then (if d != 0 then Sra(v) else Sla(v))
        else (if d != 0 then Srl(v) else Swap(v));
      CbResult(s.value, s.f, true)
    case 1 => CbResult(v, TestBit(v, b, f), false)
    case 2 => CbResult(ResetBit(v, b), f, true)
    case 3 => CbResult(SetBit(v, b), f, true)
  }

  /** SWAP applied twice gives the byte back. */
  lemma SwapTwice(v: u8)
    ensures Swap(Swap(v).value).value == v
  {
    var w := Swap(v).value;
    assert w / 0x10 == v % 0x10 && w % 0x10 == v / 0x10;
  }

  /** RRC undoes RLC, and both move bit 7 of the original byte into C. */
  lemma RlcThenRrc(v: u8)
    ensures Rrc(Rlc(v).value).value == v
    ensures Rlc(v).f.c == Rrc(Rlc(v).value).f.c == v / 0x80
  {
    var w := Rlc(v).value;
    assert w / 2 == v % 0x80 && w % 2 == v / 0x80;
  }

  /** With a 0/1 carry, RR undoes RL through the carry: the byte and the
      carry both come back. */
  lemma RlThenRr(v: u8, f: Flags)
    requires f.c <= 1
    ensures var l := Rl(v, f); Rr(l.value, l.f).value == v && Rr(l.value, l.f).f.c == f.c
  {
    var l := Rl(v, f);
    var q, m := v / 0x80, v % 0x80;
    assert q <= 1 && v == q * 0x80 + m;
    assert l.value == m * 2 + f.c && l.f.c == q;
    DivUnique(l.value, 2, m, f.c);
    assert l.value % 2 == f.c;
    var r := Rr(l.value, l.f);
    assert l.f.c % 2 == q;
    assert r.value == m + q * 0x80;
  }

  /** SRL after SLA clears bit 7 and keeps the rest. */
  lemma SlaThenSrl(v: u8)
    ensures Srl(Sla(v).value).value == v % 0x80
  {
  }

  /** The two writes of the same bit: SET after RES is SET, RES after SET is RES. */
  lemma ResAndSetOverwrite(v: u8, b: nat)
    requires b < 8
    ensures SetBit(ResetBit(v, b), b) == SetBit(v, b)
    ensures ResetBit(SetBit(v, b), b) == ResetBit(v, b)
  {
    assert Pow2(8) == 0x100;
    var s1, s2 := SetBit(ResetBit(v, b), b), SetBit(v, b);
    forall i: nat | i < 8 ensures Bit(s1, i) == Bit(s2, i) {}
    BitsDetermine(s1, s2, 8);
    var r1, r2 := ResetBit(SetBit(v, b), b), ResetBit(v, b);
    forall i: nat | i < 8 ensures Bit(r1, i) == Bit(r2, i) {}
    BitsDetermine(r1, r2, 8);
  }

  /** SET b leaves the byte as it was exactly when bit b was already set. */
  lemma SetKeepsSetBit(v: u8, b: nat)
    requires b < 8
    ensures SetBit(v, b) == v <==> (v / Pow2(b)) % 2 == 1
  {
    ShrIsDiv(v, b);
    assert Pow2(8) == 0x100;
    if Bit(v, b) == 1 {
      forall i: nat | i < 8 ensures Bit(SetBit(v, b), i) == Bit(v, i) {}
      BitsDetermine(SetBit(v, b), v, 8);
    } else {
      assert Bit(SetBit(v, b), b) != Bit(v, b);
    }
  }
}
