/** The 8-bit arithmetic of `CPU::step` in `GBEmulator/Gameboy.cpp`: the
    value and flag formulas of ADD, ADC, SUB, CP, INC, DEC, AND, OR and XOR.
    Each flag is a whole byte (`uint8_t` in the source); the formulas only
    ever store 0 or 1 in it. Every contract states what the bit formula of
    the source means arithmetically (a carry out of bit 7, a carry out of
    bit 3, a borrow). */
module Alu {
  import opened Bits

  /** FZ, FN, FH, FC. */
  datatype Flags = Flags(z: u8, n: u8, h: u8, c: u8)

  /** A C truth value stored in a flag byte. */
  function Flag(b: bool): (r: u8)
    ensures r <= 1 && (r == 1 <==> b)
  {
    if b then 1 else 0
  }

  datatype AluResult = AluResult(value: u8, f: Flags)

  /** The masks of the flag formulas: `x & 0xFF` is `x % 0x100`, `x & 0x0F`
      is `x % 0x10`, `(x & 0x10) != 0` tests bit 4 and, for a `uint16_t`,
      `(x & 0xFF00) != 0` says `x / 0x100 != 0`. The model writes them in
      the arithmetic form on the right. */
  lemma FlagMasks(x: nat)
    requires x < 0x1_0000
    ensures And(x, 0xFF) == x % 0x100
    ensures And(x, 0x0F) == x % 0x10
    ensures And(x, 0x10) != 0 <==> Bit(x, 4) == 1
    ensures And(x, 0xFF00) != 0 <==> x / 0x100 != 0
  {
    assert Pow2(8) == 0x100 && Pow2(4) == 0x10;
    AndOfOnes(x, 8);
    AndOfOnes(x, 4);
    AndOfPower(x, 4);
    HighByteMask(x);
  }

  /** Bit 4 of `a ^ n ^ nn` is set when an odd number of the three have it set. */
  lemma XorNibbleBit(a: nat, n: nat, nn: nat)
    ensures (Bit(Xor(Xor(a, n), nn), 4) == 1) == (((Bit(a, 4) == 1) != (Bit(n, 4) == 1)) != (Bit(nn, 4) == 1))
  {
    BitOfXor(Xor(a, n), nn, 4);
    BitOfXor(a, n, 4);
  }

  /** Bit 4 of `x` is the parity of `x / 16`. */
  lemma NibbleBit(x: nat)
    ensures Bit(x, 4) == (x / 0x10) % 2
  {
    ShrIsDiv(x, 4);
  }

  /** `NN = RA + N + carry; FZ = (NN & 0xFF) == 0; FN = 0;
      FH = (RA ^ N ^ NN) & 0x10; FC = NN & 0xFF00; RA = NN & 0xFF`
      (ADD with carry 0, ADC with carry FC). The value is the sum modulo
      256 and C says that the sum did not fit in a byte. */
  function Add(a: u8, n: u8, carry: u8): (r: AluResult)
    ensures r.value == (a + n + carry) % 0x100
    ensures r.f.z == 1 <==> (a + n + carry) % 0x100 == 0
    ensures r.f.n == 0
    ensures r.f.c == 1 <==> a + n + carry > 0xFF
    ensures r.f.z <= 1 && r.f.h <= 1 && r.f.c <= 1
  {
    var nn: u16 := a + n + carry;  // at most 0x2FD, so the uint16_t never wraps
    AluResult(nn % 0x100,
              Flags(Flag(nn % 0x100 == 0), 0, Flag(Bit(Xor(Xor(a, n), nn), 4) == 1), Flag(nn / 0x100 != 0)))
  }

  /** `NN = RA - N` in 16 bits, with the same flag formulas as Add and FN = 1
      (SUB stores `NN & 0xFF` in A; CP only keeps the flags). The value is
      the difference modulo 256, Z says the operands are equal and C that
      the subtraction borrowed. */
  function Sub(a: u8, n: u8): (r: AluResult)
    ensures r.value == (a - n) % 0x100
    ensures r.f.z == 1 <==> a == n
    ensures r.f.n == 1
    ensures r.f.c == 1 <==> n > a
    ensures r.f.z <= 1 && r.f.h <= 1 && r.f.c <= 1
  {
    var nn: u16 := if a >= n then a - n else a - n + 0x1_0000;  // the uint16_t value of RA - N
    AluResult(nn % 0x100,
              Flags(Flag(nn % 0x100 == 0), 1, Flag(Bit(Xor(Xor(a, n), nn), 4) == 1), Flag(nn / 0x100 != 0)))
  }

  /** Two parities and a 0/1 carry: the parity of the sum differs from
      the two exactly when the carry is 1. */
  lemma Parity(x: int, y: int, k: int)
    requires k == 0 || k == 1
    ensures (((x % 2 == 1) != (y % 2 == 1)) != ((x + y + k) % 2 == 1)) <==> k == 1
  {
  }

  /** Bit 4 of the sum flips against bits 4 of the operands exactly when the
      low nibbles carry. */
  lemma NibbleCarry(a: u8, n: u8, carry: u8)
    requires carry <= 1
    ensures (((a / 0x10) % 2 == 1) != ((n / 0x10) % 2 == 1)) != (((a + n + carry) / 0x10) % 2 == 1)
      <==> a % 0x10 + n % 0x10 + carry > 0xF
  {
    var k := (a % 0x10 + n % 0x10 + carry) / 0x10;
    assert (a + n + carry) / 0x10 == a / 0x10 + n / 0x10 + k;
    Parity(a / 0x10, n / 0x10, k);
  }

  /** Bit 4 of the 16-bit difference flips against bits 4 of the operands
      exactly when the low nibble borrows. */
  lemma NibbleBorrow(a: u8, n: u8)
    ensures var nn := if a >= n then a - n else a - n + 0x1_0000;
      (((a / 0x10) % 2 == 1) != ((n / 0x10) % 2 == 1)) != ((nn / 0x10) % 2 == 1)
      <==> n % 0x10 > a % 0x10
  {
    var nn := if a >= n then a - n else a - n + 0x1_0000;
    var k := if n % 0x10 > a % 0x10 then 1 else 0;
    var q := (if a >= n then 0 else 0x1000) + a / 0x10 - n / 0x10 - k;
    assert nn / 0x10 == q;
    Parity(q, n / 0x10, k);
  }

  /** The H flag of ADD and ADC (bit 4 of `A ^ N ^ NN`) is the carry out of
      the low nibble, whenever the carry-in is a proper 0/1 flag. */
  lemma HalfCarryOfAdd(a: u8, n: u8, carry: u8)
    requires carry <= 1
    ensures Add(a, n, carry).f.h == 1 <==> a % 0x10 + n % 0x10 + carry > 0xF
  {
    var nn := a + n + carry;
    XorNibbleBit(a, n, nn);
    NibbleBit(a);
    NibbleBit(n);
    NibbleBit(nn);
    NibbleCarry(a, n, carry);
  }

  /** The H flag of SUB and CP is the borrow into the low nibble. */
  lemma HalfBorrowOfSub(a: u8, n: u8)
    ensures Sub(a, n).f.h == 1 <==> n % 0x10 > a % 0x10
  {
    var nn := if a >= n then a - n else a - n + 0x1_0000;
    XorNibbleBit(a, n, nn);
    NibbleBit(a);
    NibbleBit(n);
    NibbleBit(nn);
    NibbleBorrow(a, n);
  }

  /** Adding and then subtracting the same byte gives back the first operand. */
  lemma SubUndoesAdd(a: u8, n: u8)
    ensures Sub(Add(a, n, 0).value, n).value == a
  {
    var x := Add(a, n, 0).value;
    if a + n < 0x100 {
      assert x == a + n;
    } else {
      assert x == a + n - 0x100;
      assert (x - n) % 0x100 == (a - 0x100) % 0x100 == a;
    }
  }

  /** INC r: `r++; FZ = r == 0; FN = 0; FH = (r & 0x0F) == 0`; FC kept. */
  function Inc(v: u8, f: Flags): (r: AluResult)
    ensures r.value == (v + 1) % 0x100
    ensures r.f.z == 1 <==> v == 0xFF
    ensures r.f.n == 0
    ensures r.f.h == 1 <==> v % 0x10 == 0xF
    ensures r.f.c == f.c
  {
    var w := Wrap8(v + 1);
    AluResult(w, f.(z := Flag(w == 0), n := 0, h := Flag(w % 0x10 == 0)))
  }

  /** DEC r for C, D, E and A: `r--; FZ = r == 0; FN = 1; FH = (r & 0x0F) == 0x0F`;
      FC kept. H is set exactly when the decrement borrows from bit 4. */
  function Dec(v: u8, f: Flags): (r: AluResult)
    ensures r.value == (v - 1) % 0x100
    ensures r.f.z == 1 <==> v == 1
    ensures r.f.n == 1
    ensures r.f.h == 1 <==> v % 0x10 == 0
    ensures r.f.c == f.c
  {
    var w := Wrap8(v - 1);
    AluResult(w, f.(z := Flag(w == 0), n := 1, h := Flag(w % 0x10 == 0x0F)))
  }

  /** DEC B (opcode 0x05) tests `(B & 0x0F) == 0` after the decrement
      instead of `== 0x0F`, so its H flag is set when the low nibble was 1,
      not when the decrement borrowed. The model keeps this. */
  function DecB(v: u8, f: Flags): (r: AluResult)
    ensures r.value == (v - 1) % 0x100
    ensures r.f.z == 1 <==> v == 1
    ensures r.f.n == 1
    ensures r.f.h == 1 <==> v % 0x10 == 1
    ensures r.f.c == f.c
  {
    var w := Wrap8(v - 1);
    AluResult(w, f.(z := Flag(w == 0), n := 1, h := Flag(w % 0x10 == 0)))
  }

  /** DEC undoes INC on the register, whatever the flags. */
  lemma DecUndoesInc(v: u8, f: Flags, g: Flags)
    ensures Dec(Inc(v, f).value, g).value == v
  {
  }

  /** DEC B and the other DECs agree on everything but H, and on H they
      disagree exactly for the bytes whose low nibble is 0 or 1. */
  lemma DecBDiffersOnlyInH(v: u8, f: Flags)
    ensures DecB(v, f).value == Dec(v, f).value
    ensures DecB(v, f).f.(h := 0) == Dec(v, f).f.(h := 0)
    ensures DecB(v, f).f.h != Dec(v, f).f.h <==> v % 0x10 <= 1
  {
  }

  /** AND with an immediate (0xE6): `RA = RA & N`; Z from the result, N = 0,
      H = 1, C = 0. The result has no bit that either operand lacks. */
  function LogicalAnd(a: u8, n: u8): (r: AluResult)
    ensures r.value <= a && r.value <= n
    ensures r.f.z == 1 <==> r.value == 0
    ensures (r.f.n, r.f.h, r.f.c) == (0, 1, 0)
  {
    var w := And(a, n);
    AluResult(w, Flags(Flag(w == 0), 0, 1, 0))
  }

  /** Bit `i` of an AND is set exactly when it is set in both operands. */
  lemma LogicalAndBits(a: u8, n: u8, i: nat)
    ensures Bit(LogicalAnd(a, n).value, i) == 1 <==> Bit(a, i) == 1 && Bit(n, i) == 1
  {
    BitOfAnd(a, n, i);
  }

  /** AND A (0xA7) only sets the flags: `FZ = RA == 0; FN = 0; FH = 1; FC = 0`. */
  function AndSelfFlags(a: u8): Flags
  {
    Flags(Flag(a == 0), 0, 1, 0)
  }

  /** OR A (0xB7) only sets the flags: `FZ = RA == 0; FN = FH = FC = 0`. */
  function OrSelfFlags(a: u8): Flags
  {
    Flags(Flag(a == 0), 0, 0, 0)
  }

  /** XOR A (0xAF) is written out as `RA = 0; FZ = 1; FN = FH = FC = 0`. */
  function XorSelf(): AluResult
  {
    AluResult(0, Flags(1, 0, 0, 0))
  }

  /** The shortcuts taken for AND A, OR A and XOR A agree with applying the
      operation to A itself: A & A and A | A are A, and A ^ A is 0. */
  lemma SelfOperationsAgree(a: u8)
    ensures LogicalAnd(a, a) == AluResult(a, AndSelfFlags(a))
    ensures Flag(Or(a, a) == 0) == OrSelfFlags(a).z && Or(a, a) == a
    ensures Xor(a, a) == XorSelf().value && Flag(Xor(a, a) == 0) == XorSelf().f.z
  {
    SelfOps(a);
  }
}
