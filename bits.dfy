/** Fixed-width unsigned integers of C++ (`uint8_t` … `uint64_t`) as bounded
    integers, and the bitwise operators `&`, `|`, `^`, `<<`, `>>` on
    non-negative values. The operators are defined one bit at a time, from
    the least significant bit up, and the lemmas below say what each one
    does to every bit. Shifts by a constant are written in the model as
    multiplication or division by the power of two. */
module Bits {
  type u8 = x: int | 0 <= x < 0x100
  type u16 = x: int | 0 <= x < 0x1_0000
  type u32 = x: int | 0 <= x < 0x1_0000_0000
  type u64 = x: int | 0 <= x < 0x1_0000_0000_0000_0000

  /** Conversion of an integer to `uint8_t`, `uint16_t`, `uint32_t` and
      `uint64_t`: reduction modulo 2^8, 2^16, 2^32, 2^64 (Dafny's `%` never
      yields a negative remainder, as C's unsigned conversion). */
  function Wrap8(x: int): u8 { x % 0x100 }
  function Wrap16(x: int): u16 { x % 0x1_0000 }
  function Wrap32(x: int): u32 { x % 0x1_0000_0000 }
  function Wrap64(x: int): u64 { x % 0x1_0000_0000_0000_0000 }

  /** `(int8_t)n`: the byte read as a two's complement number. */
  function Signed(n: u8): (r: int)
    ensures -0x80 <= r < 0x80 && Wrap8(r) == n
  {
    if n < 0x80 then n else n - 0x100
  }

  /** 2 to the power `n`. */
  function Pow2(n: nat): (r: nat)
    ensures r >= 1
  {
    if n == 0 then 1 else 2 * Pow2(n - 1)
  }

  /** `x >> n`. */
  function Shr(x: nat, n: nat): (r: nat)
    ensures r <= x
  {
    if n == 0 then x else Shr(x / 2, n - 1)
  }

  /** `x << n`, on a type wide enough to hold the result. */
  function Shl(x: nat, n: nat): (r: nat)
    ensures x <= r
    decreases n
  {
    if n == 0 then x else Shl(2 * x, n - 1)
  }

  /** `(x >> i) & 1`: bit `i` of `x`. */
  function Bit(x: nat, i: nat): (r: nat)
    ensures r <= 1
  {
    Shr(x, i) % 2
  }

  /** `x & y`. */
  function And(x: nat, y: nat): (r: nat)
    ensures r <= x && r <= y
    decreases x
  {
    if x == 0 || y == 0 then 0
    else 2 * And(x / 2, y / 2) + (if x % 2 == 1 && y % 2 == 1 then 1 else 0)
  }

  /** `x | y`. */
  function Or(x: nat, y: nat): (r: nat)
    ensures x <= r && y <= r && r <= x + y
    decreases x + y
  {
    if x == 0 then y
    else if y == 0 then x
    else 2 * Or(x / 2, y / 2) + (if x % 2 == 1 || y % 2 == 1 then 1 else 0)
  }

  /** `x ^ y`. */
  function Xor(x: nat, y: nat): (r: nat)
    ensures r <= x + y
    decreases x + y
  {
    if x == 0 then y
    else if y == 0 then x
    else 2 * Xor(x / 2, y / 2) + (if x % 2 != y % 2 then 1 else 0)
  }

  /** Bit `i + 1` of `x` is bit `i` of `x / 2`. */
  lemma BitOfHalf(x: nat, i: nat)
    ensures Bit(x, i + 1) == Bit(x / 2, i)
  {
  }

  /** Every bit of 0 is 0. */
  lemma {:induction false} BitOfZero(i: nat)
    ensures Bit(0, i) == 0
  {
    if i > 0 {
      BitOfZero(i - 1);
    }
  }

  /** A value below `2^k` has no bit at position `k` or above. */
  lemma {:induction false} BitAboveWidth(x: nat, k: nat, i: nat)
    requires x < Pow2(k) && k <= i
    ensures Bit(x, i) == 0
  {
    if k == 0 {
      assert x == 0;
      BitOfZero(i);
    } else {
      BitAboveWidth(x / 2, k - 1, i - 1);
    }
  }

  /** `&` works bit by bit. */
  lemma {:induction false} BitOfAnd(x: nat, y: nat, i: nat)
    ensures Bit(And(x, y), i) == if Bit(x, i) == 1 && Bit(y, i) == 1 then 1 else 0
  {
    if x == 0 || y == 0 {
      BitOfZero(i);
    } else if i > 0 {
      assert And(x, y) / 2 == And(x / 2, y / 2);
      BitOfAnd(x / 2, y / 2, i - 1);
    }
  }

  /** `|` works bit by bit. */
  lemma {:induction false} BitOfOr(x: nat, y: nat, i: nat)
    ensures Bit(Or(x, y), i) == if Bit(x, i) == 1 || Bit(y, i) == 1 then 1 else 0
  {
    if x == 0 {
      BitOfZero(i);
    } else if y == 0 {
      BitOfZero(i);
    } else if i > 0 {
      assert Or(x, y) / 2 == Or(x / 2, y / 2);
      BitOfOr(x / 2, y / 2, i - 1);
    }
  }

  /** `^` works bit by bit. */
  lemma {:induction false} BitOfXor(x: nat, y: nat, i: nat)
    ensures Bit(Xor(x, y), i) == if Bit(x, i) != Bit(y, i) then 1 else 0
  {
    if x == 0 {
      BitOfZero(i);
    } else if y == 0 {
      BitOfZero(i);
    } else if i > 0 {
      assert Xor(x, y) / 2 == Xor(x / 2, y / 2);
      BitOfXor(x / 2, y / 2, i - 1);
    }
  }

  /** Two values below `2^k` with the same low `k` bits are equal. */
  lemma {:induction false} BitsDetermine(x: nat, y: nat, k: nat)
    requires x < Pow2(k) && y < Pow2(k)
    requires forall i: nat :: i < k ==> Bit(x, i) == Bit(y, i)
    ensures x == y
  {
    if k > 0 {
      assert Bit(x, 0) == Bit(y, 0);
      forall i: nat | i < k - 1
        ensures Bit(x / 2, i) == Bit(y / 2, i)
      {
        BitOfHalf(x, i);
        BitOfHalf(y, i);
      }
      BitsDetermine(x / 2, y / 2, k - 1);
    }
  }

  /** `|` and `^` of two values below `2^k` stay below `2^k`. */
  lemma {:induction false} OrXorWidth(x: nat, y: nat, k: nat)
    requires x < Pow2(k) && y < Pow2(k)
    ensures Or(x, y) < Pow2(k) && Xor(x, y) < Pow2(k)
  {
    if k > 0 && x != 0 && y != 0 {
      OrXorWidth(x / 2, y / 2, k - 1);
    }
  }

  /** `x | y` is `x + y` when `y` fits in the low `k` bits and `x` has none
      of them set (`x` is a multiple of `2^k`). */
  lemma {:induction false} OrOfDisjoint(m: nat, y: nat, k: nat)
    requires y < Pow2(k)
    ensures Or(m * Pow2(k), y) == m * Pow2(k) + y
  {
    if k > 0 && m != 0 && y != 0 {
      assert m * Pow2(k) == 2 * (m * Pow2(k - 1));
      OrOfDisjoint(m, y / 2, k - 1);
    }
  }

  /** OrOfDisjoint with the power given as a number: with `p` a literal at
      the call, the products stay linear. */
  lemma OrOfDisjointAt(m: nat, y: nat, k: nat, p: nat)
    requires p == Pow2(k) && y < p
    ensures Or(m * p, y) == m * p + y
  {
    OrOfDisjoint(m, y, k);
  }

  /** `(2^k - 1) | y` is `2^k - 1` for every `y` below `2^k`. */
  lemma {:induction false} OrOfOnes(y: nat, k: nat)
    requires y < Pow2(k)
    ensures Or(Pow2(k) - 1, y) == Pow2(k) - 1
  {
    if k > 0 && y != 0 {
      var ones := Pow2(k) - 1;
      assert ones / 2 == Pow2(k - 1) - 1 && ones % 2 == 1;
      OrOfOnes(y / 2, k - 1);
      assert Or(ones, y) == 2 * Or(ones / 2, y / 2) + 1;
    }
  }

  /** `x & 1` is bit 0, `x ^ 1` flips bit 0. */
  lemma LowBitOps(x: nat)
    ensures And(x, 1) == x % 2
    ensures Xor(x, 1) == if x % 2 == 1 then x - 1 else x + 1
  {
  }

  /** `x & x == x`, `x | x == x`, `x ^ x == 0`. */
  lemma {:induction false} SelfOps(x: nat)
    ensures And(x, x) == x && Or(x, x) == x && Xor(x, x) == 0
  {
    if x != 0 {
      SelfOps(x / 2);
    }
  }

  /** `1 << i` has exactly bit `i` set. */
  lemma {:induction false} BitOfPower(i: nat, j: nat)
    ensures Bit(Shl(1, i), j) == if i == j then 1 else 0
  {
    ShlIsMul(1, i);
    PowerBit(i, j);
  }

  /** `x << n` is `x * 2^n`. */
  lemma {:induction false} ShlIsMul(x: nat, n: nat)
    ensures Shl(x, n) == x * Pow2(n)
    decreases n
  {
    if n > 0 {
      ShlIsMul(2 * x, n - 1);
      assert (2 * x) * Pow2(n - 1) == x * (2 * Pow2(n - 1));
    }
  }

  /** `2^i` has exactly bit `i` set. */
  lemma {:induction false} PowerBit(i: nat, j: nat)
    ensures Bit(Pow2(i), j) == if i == j then 1 else 0
  {
    if i == 0 {
      if j > 0 {
        assert Bit(1, j) == Bit(0, j - 1);
        BitOfZero(j - 1);
      }
    } else if j == 0 {
    } else {
      assert Pow2(i) / 2 == Pow2(i - 1);
      PowerBit(i - 1, j - 1);
    }
  }

  /** `x << n` on any `x` has no bit below `n`, and bit `i - n` of `x` at `i`. */
  lemma {:induction false} BitOfShl(x: nat, n: nat, i: nat)
    ensures Bit(Shl(x, n), i) == if i < n then 0 else Bit(x, i - n)
    decreases n
  {
    if n > 0 {
      BitOfShl(2 * x, n - 1, i);
      if i >= n {
        BitOfHalf(2 * x, i - n);
      }
    }
  }

  /** Bit `i` of `x >> n` is bit `i + n` of `x`. */
  lemma {:induction false} BitOfShr(x: nat, n: nat, i: nat)
    ensures Bit(Shr(x, n), i) == Bit(x, i + n)
  {
    if n > 0 {
      BitOfShr(x / 2, n - 1, i);
      BitOfHalf(x, i + n - 1);
    }
  }

  /** `2^k - 1` has exactly its low `k` bits set. */
  lemma {:induction false} BitOfOnes(k: nat, j: nat)
    ensures Bit(Pow2(k) - 1, j) == if j < k then 1 else 0
  {
    if k == 0 {
      BitOfZero(j);
    } else {
      OnesHalf(k);
      if j > 0 {
        BitOfHalf(Pow2(k) - 1, j - 1);
        BitOfOnes(k - 1, j - 1);
      } else {
        assert Bit(Pow2(k) - 1, 0) == (Pow2(k) - 1) % 2;
      }
    }
  }

  /** `x | y == y | x`. */
  lemma {:induction false} OrCommutes(x: nat, y: nat)
    ensures Or(x, y) == Or(y, x)
    decreases x + y
  {
    if x != 0 && y != 0 {
      OrCommutes(x / 2, y / 2);
    }
  }

  lemma MulAtLeast(k: int, d: int)
    requires k >= 1 && d >= 1
    ensures k * d >= d
  {
  }

  /** Quotient and remainder are unique. */
  lemma DivUnique(x: int, d: int, q: int, r: int)
    requires d >= 1 && x == q * d + r && 0 <= r < d
    ensures x / d == q
  {
    var k := x / d - q;
    assert k * d == (x / d) * d - q * d;
    assert k * d == r - x % d;
    if k >= 1 {
      MulAtLeast(k, d);
    } else if k <= -1 {
      MulAtLeast(-k, d);
    }
  }

  /** Halving, then dividing by `p`, is dividing by `2p`. */
  lemma DivOfHalf(x: nat, p: nat)
    requires p >= 1
    ensures (x / 2) / p == x / (2 * p)
    ensures x % (2 * p) == 2 * ((x / 2) % p) + x % 2
  {
    var q := (x / 2) / p;
    var r := (x / 2) % p;
    assert x / 2 == q * p + r;
    assert x == q * (2 * p) + (2 * r + x % 2);
    DivUnique(x, 2 * p, q, 2 * r + x % 2);
  }

  /** `x >> n` is `x / 2^n`, so bit `i` is `(x / 2^i) % 2`. */
  lemma {:induction false} ShrIsDiv(x: nat, n: nat)
    ensures Shr(x, n) == x / Pow2(n)
  {
    if n > 0 {
      ShrIsDiv(x / 2, n - 1);
      DivOfHalf(x, Pow2(n - 1));
    }
  }

  /** One step of `And` against an odd mask. */
  lemma AndOfOdd(x: nat, y: nat)
    requires x != 0 && y % 2 == 1
    ensures And(x, y) == 2 * And(x / 2, y / 2) + x % 2
  {
  }

  /** Halving a mask of `k` ones leaves `k - 1` ones. */
  lemma OnesHalf(k: nat)
    requires k > 0
    ensures (Pow2(k) - 1) % 2 == 1 && (Pow2(k) - 1) / 2 == Pow2(k - 1) - 1
  {
    var h := Pow2(k - 1);
    var m := Pow2(k) - 1;
    assert m == (h - 1) * 2 + 1;
    DivUnique(m, 2, h - 1, 1);
    assert m % 2 == m - (m / 2) * 2;
  }

  /** The low `k` bits of `x` are its low bit below the low `k - 1` bits of `x / 2`. */
  lemma ModOfPow2(x: nat, k: nat)
    requires k > 0
    ensures x % Pow2(k) == 2 * ((x / 2) % Pow2(k - 1)) + x % 2
  {
    DivOfHalf(x, Pow2(k - 1));
  }

  /** One step of `And` against a mask of `k` ones. */
  lemma AndOfOnesStep(x: nat, k: nat)
    requires k > 0 && x != 0
    ensures And(x, Pow2(k) - 1) == 2 * And(x / 2, Pow2(k - 1) - 1) + x % 2
  {
    OnesHalf(k);
    AndOfOdd(x, Pow2(k) - 1);
  }

  /** `x & (2^k - 1)` keeps the low `k` bits: it is `x % 2^k`. */
  lemma {:induction false} AndOfOnes(x: nat, k: nat)
    ensures And(x, Pow2(k) - 1) == x % Pow2(k)
  {
    if k == 0 {
      assert Pow2(k) - 1 == 0 && x % 1 == 0;
    } else if x != 0 {
      AndOfOnesStep(x, k);
      AndOfOnes(x / 2, k - 1);
      ModOfPow2(x, k);
    } else {
      assert 0 % Pow2(k) == 0;
    }
  }

  /** `x & 2^k` keeps bit `k` in place. */
  lemma {:induction false} AndOfPower(x: nat, k: nat)
    ensures And(x, Pow2(k)) == if Bit(x, k) == 1 then Pow2(k) else 0
  {
    if k == 0 {
      LowBitOps(x);
    } else if x != 0 {
      var p := Pow2(k);
      assert p / 2 == Pow2(k - 1) && p % 2 == 0;
      assert And(x, p) == 2 * And(x / 2, Pow2(k - 1));
      AndOfPower(x / 2, k - 1);
      BitOfHalf(x, k - 1);
    }
  }

  /** Powers of two grow with the exponent. */
  lemma {:induction false} Pow2Grows(i: nat, j: nat)
    requires i < j
    ensures Pow2(i) < Pow2(j)
  {
    if i + 1 < j {
      Pow2Grows(i, j - 1);
    }
  }

  /** `x % 2^k` keeps the low `k` bits of `x` and clears the others. */
  lemma LowBits(x: nat, k: nat, i: nat)
    ensures Bit(x % Pow2(k), i) == if i < k then Bit(x, i) else 0
  {
    AndOfOnes(x, k);
    BitOfAnd(x, Pow2(k) - 1, i);
    BitOfOnes(k, i);
  }

  /** Bit `i` of `0xFF00`, for the 16 bits of a `uint16_t`. */
  lemma HighMaskBit(i: nat)
    requires i < 16
    ensures Bit(0xFF00, i) == if 8 <= i then 1 else 0
  {
    assert Shl(Pow2(8) - 1, 8) == 0xFF00;
    BitOfShl(Pow2(8) - 1, 8, i);
    if i >= 8 {
      BitOfOnes(8, i - 8);
    }
  }

  /** A value below 256 has no bit in common with `0xFF00`. */
  lemma HighMaskOfSmall(x: nat)
    ensures x < 0x100 ==> And(x, 0xFF00) == 0
  {
    if x < 0x100 {
      assert Pow2(8) == 0x100 && Pow2(16) == 0x1_0000;
      forall i: nat | i < 16
        ensures Bit(And(x, 0xFF00), i) == Bit(0, i)
      {
        BitOfAnd(x, 0xFF00, i);
        BitOfZero(i);
        HighMaskBit(i);
        if i >= 8 {
          BitAboveWidth(x, 8, i);
        }
      }
      BitsDetermine(And(x, 0xFF00), 0, 16);
    }
  }

  /** A 16-bit value with no bit in common with `0xFF00` is below 256. */
  lemma SmallOfHighMask(x: nat)
    requires x < 0x1_0000
    ensures And(x, 0xFF00) == 0 ==> x < 0x100
  {
    if And(x, 0xFF00) == 0 {
      var y := x % 0x100;
      forall i: nat | i < 16
        ensures Bit(x, i) == Bit(y, i)
      {
        LowBits(x, 8, i);
        if i >= 8 {
          BitOfAnd(x, 0xFF00, i);
          BitOfZero(i);
          HighMaskBit(i);
        }
      }
      assert Pow2(16) == 0x1_0000;
      BitsDetermine(x, y, 16);
    }
  }

  /** For a `uint16_t`, `(x & 0xFF00) != 0` says that `x` does not fit in a byte. */
  lemma HighByteMask(x: nat)
    requires x < 0x1_0000
    ensures And(x, 0xFF00) != 0 <==> x >= 0x100
  {
    HighMaskOfSmall(x);
    SmallOfHighMask(x);
  }

  /** Adding a multiple of 2^16 does not change the `uint16_t` value. */
  lemma ModShift16(y: int, k: int)
    ensures (y + k * 0x1_0000) % 0x1_0000 == y % 0x1_0000
  {
    var r := y % 0x1_0000;
    var q := y / 0x1_0000;
    assert y + k * 0x1_0000 == (q + k) * 0x1_0000 + r;
    DivUnique(y + k * 0x1_0000, 0x1_0000, q + k, r);
  }

  /** A value that fits in a byte is its own truncation. */
  lemma WrapSmall8(x: int)
    requires 0 <= x < 0x100
    ensures Wrap8(x) == x
  {
  }

  /** Two successive 16-bit additions are one: `x += i; x += j` is `x += i + j`. */
  lemma WrapAdd16(x: int, j: int)
    ensures Wrap16(Wrap16(x) + j) == Wrap16(x + j)
  {
    var q := x / 0x1_0000;
    assert x + j == (Wrap16(x) + j) + q * 0x1_0000;
    ModShift16(Wrap16(x) + j, q);
  }
}
