/** Python's integer bit operations on unbounded integers, and the `set_bit`
    helper of pythongb/utils.py (duplicated as `CPU.set_bit`).

    Python integers behave as infinite two's-complement bit strings: `-1` has
    every bit set, `x >> k` is floor division by 2^k, and `&`, `|`, `^` act bit
    by bit even on negative operands.  The emulator never masks its registers,
    so the model needs these operations on all of `int`, not only on bytes. */
module Bits {

  function Pow2(k: nat): (p: int)
    ensures p >= 1
  {
    if k == 0 then 1 else 2 * Pow2(k - 1)
  }

  function Abs(x: int): nat
  {
    if x < 0 then -x else x
  }

  /** Bit `i` of `x` in two's complement (Dafny's `/` and `%` by a positive
      divisor floor, as Python's do). */
  function Bit(x: int, i: nat): (b: int)
    ensures b == 0 || b == 1
    decreases i
  {
    if i == 0 then x % 2 else Bit(x / 2, i - 1)
  }

  /** Python `x & y`. */
  function And(x: int, y: int): int
    decreases Abs(x) + Abs(y)
  {
    if x == 0 || y == 0 then 0
    else if x == -1 then y
    else if y == -1 then x
    else 2 * And(x / 2, y / 2) + (if x % 2 == 1 && y % 2 == 1 then 1 else 0)
  }

  /** Python `x | y`. */
  function Or(x: int, y: int): int
    decreases Abs(x) + Abs(y)
  {
    if x == 0 then y
    else if y == 0 then x
    else if x == -1 || y == -1 then -1
    else 2 * Or(x / 2, y / 2) + (if x % 2 == 1 || y % 2 == 1 then 1 else 0)
  }

  /** Python `x ^ y`. */
  function Xor(x: int, y: int): int
    decreases Abs(x) + Abs(y)
  {
    if x == 0 then y
    else if y == 0 then x
    else if x == -1 then Not(y)
    else if y == -1 then Not(x)
    else 2 * Xor(x / 2, y / 2) + (x % 2 + y % 2) % 2
  }

  /** Python `~x`. */
  function Not(x: int): int
  {
    -x - 1
  }

  /** Python `x << k`. */
  function Shl(x: int, k: nat): int
  {
    x * Pow2(k)
  }

  /** Python `x >> k` (an arithmetic shift: it rounds toward minus infinity). */
  function Shr(x: int, k: nat): int
  {
    x / Pow2(k)
  }

  /** pythongb/utils.py `set_bit(v, index, x)`: clear bit `index` of `v`, then
      set it again when `x` is truthy (a non-zero integer). */
  function SetBit(v: int, index: nat, x: int): int
  {
    var mask := Shl(1, index);
    var cleared := And(v, Not(mask));
    if x != 0 then Or(cleared, mask) else cleared
  }

  // ---------------------------------------------------------------------
  // Halving: the step every recursive definition above takes.

  lemma HalfShrinks(x: int)
    requires x != 0 && x != -1
    ensures Abs(x / 2) < Abs(x)
  {
  }

  lemma {:induction false} BitHalf(x: int, i: nat)
    ensures Bit(x / 2, i) == Bit(x, i + 1)
  {
  }

  lemma {:induction false} BitOfZero(i: nat)
    ensures Bit(0, i) == 0
  {
    if i > 0 { BitOfZero(i - 1); }
  }

  lemma {:induction false} BitOfMinusOne(i: nat)
    ensures Bit(-1, i) == 1
  {
    if i > 0 { BitOfMinusOne(i - 1); }
  }

  /** Any integer is twice its floor-half plus its lowest bit. */
  lemma {:induction false} BitSplit(x: int, b: int, i: nat)
    requires b == 0 || b == 1
    ensures Bit(2 * x + b, 0) == b
    ensures Bit(2 * x + b, i + 1) == Bit(x, i)
  {
    assert (2 * x + b) / 2 == x;
  }

  // ---------------------------------------------------------------------
  // The bitwise operators act bit by bit.

  lemma {:induction false} BitAnd(x: int, y: int, i: nat)
    ensures Bit(And(x, y), i) == Bit(x, i) * Bit(y, i)
    decreases Abs(x) + Abs(y)
  {
    if x == 0 || y == 0 {
      BitOfZero(i);
    } else if x == -1 {
      BitOfMinusOne(i);
    } else if y == -1 {
      BitOfMinusOne(i);
    } else {
      HalfShrinks(x);
      BitSplit(And(x / 2, y / 2), (x % 2) * (y % 2), if i == 0 then 0 else i - 1);
      if i > 0 {
        BitAnd(x / 2, y / 2, i - 1);
      }
    }
  }

  lemma {:induction false} BitOr(x: int, y: int, i: nat)
    ensures Bit(Or(x, y), i) == (if Bit(x, i) == 1 || Bit(y, i) == 1 then 1 else 0)
    decreases Abs(x) + Abs(y)
  {
    if x == 0 {
      BitOfZero(i);
    } else if y == 0 {
      BitOfZero(i);
    } else if x == -1 || y == -1 {
      BitOfMinusOne(i);
    } else {
      HalfShrinks(x);
      var low := if x % 2 == 1 || y % 2 == 1 then 1 else 0;
      BitSplit(Or(x / 2, y / 2), low, if i == 0 then 0 else i - 1);
      if i > 0 {
        BitOr(x / 2, y / 2, i - 1);
      }
    }
  }

  lemma {:induction false} BitNot(x: int, i: nat)
    ensures Bit(Not(x), i) == 1 - Bit(x, i)
    decreases i
  {
    if i > 0 {
      assert Not(x) / 2 == Not(x / 2);
      BitNot(x / 2, i - 1);
    }
  }

  lemma {:induction false} BitXor(x: int, y: int, i: nat)
    ensures Bit(Xor(x, y), i) == (Bit(x, i) + Bit(y, i)) % 2
    decreases Abs(x) + Abs(y)
  {
    if x == 0 {
      BitOfZero(i);
    } else if y == 0 {
      BitOfZero(i);
    } else if x == -1 {
      BitOfMinusOne(i);
      BitNot(y, i);
    } else if y == -1 {
      BitOfMinusOne(i);
      BitNot(x, i);
    } else {
      HalfShrinks(x);
      BitSplit(Xor(x / 2, y / 2), (x % 2 + y % 2) % 2, if i == 0 then 0 else i - 1);
      if i > 0 {
        BitXor(x / 2, y / 2, i - 1);
      }
    }
  }

  lemma {:induction false} BitPow2(k: nat, i: nat)
    ensures Bit(Pow2(k), i) == (if i == k then 1 else 0)
  {
    if k == 0 {
      if i > 0 { BitOfZero(i - 1); }
    } else if i > 0 {
      BitPow2(k - 1, i - 1);
    }
  }

  lemma {:induction false} BitShr(x: int, k: nat, i: nat)
    ensures Bit(Shr(x, k), i) == Bit(x, i + k)
    decreases k
  {
    if k > 0 {
      ShrStep(x, k);
      BitShr(x / 2, k - 1, i);
      BitHalf(x, i + k - 1);
    }
  }

  lemma ShrStep(x: int, k: nat)
    requires k > 0
    ensures Shr(x, k) == Shr(x / 2, k - 1)
  {
    var p := Pow2(k - 1);
    assert Pow2(k) == 2 * p;
    DivDiv(x, 2, p);
  }

  lemma {:induction false} BitShl(x: int, k: nat, i: nat)
    ensures Bit(Shl(x, k), i) == (if i < k then 0 else Bit(x, i - k))
  {
    if k > 0 {
      assert Shl(x, k) == 2 * Shl(x, k - 1) + 0;
      BitSplit(Shl(x, k - 1), 0, if i == 0 then 0 else i - 1);
      if i > 0 {
        BitShl(x, k - 1, i - 1);
      }
    }
  }

  lemma DivDiv(x: int, a: int, b: int)
    requires a > 0 && b > 0
    ensures x / (a * b) == (x / a) / b
  {
    var q := (x / a) / b;
    var r := x - a * b * q;
    assert x == a * (x / a) + x % a;
    assert x / a == b * q + (x / a) % b;
    assert r == a * ((x / a) % b) + x % a;
    assert 0 <= a * ((x / a) % b) <= a * (b - 1) by {
      MulMono(a, (x / a) % b, b - 1);
    }
    assert 0 <= r < a * b;
    DivUnique(x, a * b, q, r);
  }

  lemma MulMono(a: int, u: int, v: int)
    requires a > 0 && 0 <= u <= v
    ensures 0 <= a * u <= a * v
  {
  }

  /** Euclidean division has only one quotient. */
  lemma DivUnique(x: int, d: int, q: int, r: int)
    requires d > 0 && x == d * q + r && 0 <= r < d
    ensures x / d == q && x % d == r
  {
    var q0, r0 := x / d, x % d;
    assert d * (q - q0) == r0 - r;
    if q > q0 {
      MulMono(d, 1, q - q0);
    } else if q < q0 {
      MulMono(d, 1, q0 - q);
    }
  }

  // ---------------------------------------------------------------------
  // Extensionality: an integer is determined by its bits.

  lemma {:induction false} BitsDetermine(x: int, y: int)
    requires forall i: nat :: Bit(x, i) == Bit(y, i)
    ensures x == y
    decreases Abs(x) + Abs(y)
  {
    if (x == 0 || x == -1) && (y == 0 || y == -1) {
      assert Bit(x, 0) == Bit(y, 0);
    } else {
      if x != 0 && x != -1 { HalfShrinks(x); }
      if y != 0 && y != -1 { HalfShrinks(y); }
      if (x == 0 || x == -1) { assert x / 2 == x; }
      if (y == 0 || y == -1) { assert y / 2 == y; }
      forall i: nat ensures Bit(x / 2, i) == Bit(y / 2, i) {
        BitHalf(x, i);
        BitHalf(y, i);
      }
      BitsDetermine(x / 2, y / 2);
      assert Bit(x, 0) == Bit(y, 0);
    }
  }

  /** A non-negative integer below 2^k has no bit set at position k or above. */
  lemma {:induction false} BitAboveWidth(x: int, k: nat, i: nat)
    requires 0 <= x < Pow2(k) && i >= k
    ensures Bit(x, i) == 0
  {
    if k == 0 {
      BitOfZero(i);
    } else if i == 0 {
    } else {
      BitAboveWidth(x / 2, k - 1, i - 1);
    }
  }

  lemma OrCommutes(x: int, y: int)
    ensures Or(x, y) == Or(y, x)
  {
    forall i: nat ensures Bit(Or(x, y), i) == Bit(Or(y, x), i) {
      BitOr(x, y, i);
      BitOr(y, x, i);
    }
    BitsDetermine(Or(x, y), Or(y, x));
  }

  /** The masks the emulator applies, read as remainders. */
  lemma AndMasks(x: int)
    ensures And(x, 0x01) == x % 2 && And(x, 0x03) == x % 4
    ensures And(x, 0x0F) == x % 16 && And(x, 0x1F) == x % 32
    ensures And(x, 0xFF) == x % 256 && And(x, 0xFFF) == x % 4096
    ensures And(x, 0xFFFF) == x % 65536
  {
    assert Pow2(1) == 2 && Pow2(2) == 4 && Pow2(4) == 16 && Pow2(5) == 32;
    assert Pow2(8) == 256 && Pow2(12) == 4096 && Pow2(16) == 65536;
    AndLowMask(x, 1);
    AndLowMask(x, 2);
    AndLowMask(x, 4);
    AndLowMask(x, 5);
    AndLowMask(x, 8);
    AndLowMask(x, 12);
    AndLowMask(x, 16);
  }

  /** Python `x & (2^k - 1)` is `x` modulo 2^k, for every integer `x`. */
  lemma {:induction false} AndLowMask(x: int, k: nat)
    ensures And(x, Pow2(k) - 1) == x % Pow2(k)
  {
    var m := Pow2(k) - 1;
    forall i: nat ensures Bit(And(x, m), i) == Bit(x % Pow2(k), i) {
      BitAnd(x, m, i);
      LowMaskBit(k, i);
      ModBit(x, k, i);
    }
    BitsDetermine(And(x, m), x % Pow2(k));
  }

  lemma {:induction false} LowMaskBit(k: nat, i: nat)
    ensures Bit(Pow2(k) - 1, i) == (if i < k then 1 else 0)
  {
    if k == 0 {
      BitOfZero(i);
    } else if i > 0 {
      assert (Pow2(k) - 1) / 2 == Pow2(k - 1) - 1;
      LowMaskBit(k - 1, i - 1);
    }
  }

  lemma {:induction false} ModBit(x: int, k: nat, i: nat)
    ensures Bit(x % Pow2(k), i) == (if i < k then Bit(x, i) else 0)
    decreases k
  {
    if k == 0 {
      BitOfZero(i);
    } else {
      var h := (x / 2) % Pow2(k - 1);
      var b := x % 2;
      assert x / 2 == Pow2(k - 1) * ((x / 2) / Pow2(k - 1)) + h;
      assert x == Pow2(k) * ((x / 2) / Pow2(k - 1)) + (2 * h + b);
      DivUnique(x, Pow2(k), (x / 2) / Pow2(k - 1), 2 * h + b);
      BitSplit(h, b, if i == 0 then 0 else i - 1);
      if i > 0 {
        ModBit(x / 2, k - 1, i - 1);
      }
    }
  }

  /** `hi << k | lo` is plain addition when `lo` fits in the low k bits. */
  lemma {:induction false} OrShlLow(hi: int, k: nat, lo: int)
    requires 0 <= lo < Pow2(k)
    ensures Or(Shl(hi, k), lo) == hi * Pow2(k) + lo
  {
    var s := hi * Pow2(k) + lo;
    forall i: nat ensures Bit(Or(Shl(hi, k), lo), i) == Bit(s, i) {
      OrShlLowBit(hi, k, lo, i);
    }
    BitsDetermine(Or(Shl(hi, k), lo), s);
  }

  /** One bit of `OrShlLow`. */
  lemma OrShlLowBit(hi: int, k: nat, lo: int, i: nat)
    requires 0 <= lo < Pow2(k)
    ensures Bit(Or(Shl(hi, k), lo), i) == Bit(hi * Pow2(k) + lo, i)
  {
    var s := hi * Pow2(k) + lo;
    BitOr(Shl(hi, k), lo, i);
    BitShl(hi, k, i);
    DivUnique(s, Pow2(k), hi, lo);
    ModBit(s, k, i);
    if i >= k {
      BitAboveWidth(lo, k, i);
      BitShr(s, k, i - k);
    }
  }

  // ---------------------------------------------------------------------
  // set_bit (pythongb/utils.py:1-9)

  /** Bit `index` of the result is 1 exactly when `x` is truthy; every other
      bit is the bit of `v`. */
  lemma {:induction false} SetBitBits(v: int, index: nat, x: int, i: nat)
    ensures Bit(SetBit(v, index, x), i) ==
              if i == index then (if x != 0 then 1 else 0) else Bit(v, i)
  {
    var mask := Shl(1, index);
    assert mask == Pow2(index);
    var cleared := And(v, Not(mask));
    BitAnd(v, Not(mask), i);
    BitNot(mask, i);
    BitPow2(index, i);
    if x != 0 {
      BitOr(cleared, mask, i);
    }
  }

  lemma SetBitIndex(v: int, index: nat, x: int)
    ensures Bit(SetBit(v, index, x), index) == (if x != 0 then 1 else 0)
  {
    SetBitBits(v, index, x, index);
  }

  lemma SetBitOthers(v: int, index: nat, x: int, i: nat)
    requires i != index
    ensures Bit(SetBit(v, index, x), i) == Bit(v, i)
  {
    SetBitBits(v, index, x, i);
  }

  /** Setting the same bit twice: the second call decides, so repeating a call
      changes nothing. */
  lemma SetBitLastWins(v: int, index: nat, x: int, y: int)
    ensures SetBit(SetBit(v, index, x), index, y) == SetBit(v, index, y)
    ensures SetBit(SetBit(v, index, x), index, x) == SetBit(v, index, x)
  {
    forall i: nat ensures Bit(SetBit(SetBit(v, index, x), index, y), i) == Bit(SetBit(v, index, y), i) {
      SetBitBits(SetBit(v, index, x), index, y, i);
      SetBitBits(v, index, x, i);
      SetBitBits(v, index, y, i);
    }
    BitsDetermine(SetBit(SetBit(v, index, x), index, y), SetBit(v, index, y));
    forall i: nat ensures Bit(SetBit(SetBit(v, index, x), index, x), i) == Bit(SetBit(v, index, x), i) {
      SetBitBits(SetBit(v, index, x), index, x, i);
      SetBitBits(v, index, x, i);
    }
    BitsDetermine(SetBit(SetBit(v, index, x), index, x), SetBit(v, index, x));
  }

  /** On a byte and an index below 8, set_bit yields a byte. */
  lemma SetBitByte(v: int, index: nat, x: int)
    requires 0 <= v < 256 && index < 8
    ensures 0 <= SetBit(v, index, x) < 256
  {
    var w := SetBit(v, index, x);
    assert Pow2(8) == 256;
    forall i: nat ensures Bit(w, i) == Bit(w % 256, i) {
      ModBit(w, 8, i);
      SetBitBits(v, index, x, i);
      if i >= 8 { BitAboveWidth(v, 8, i); }
    }
    BitsDetermine(w, w % 256);
  }
  // ---------------------------------------------------------------------
  // Facts the CPU model uses

  lemma AndCommutes(x: int, y: int)
    ensures And(x, y) == And(y, x)
  {
    forall i: nat ensures Bit(And(x, y), i) == Bit(And(y, x), i) {
      BitAnd(x, y, i);
      BitAnd(y, x, i);
    }
    BitsDetermine(And(x, y), And(y, x));
  }

  /** `x ^ y ^ y` is `x`. */
  lemma XorTwice(x: int, y: int)
    ensures Xor(Xor(x, y), y) == x
  {
    forall i: nat ensures Bit(Xor(Xor(x, y), y), i) == Bit(x, i) {
      BitXor(Xor(x, y), y, i);
      BitXor(x, y, i);
    }
    BitsDetermine(Xor(Xor(x, y), y), x);
  }

  /** `x | x` is `x`. */
  lemma OrSelf(x: int)
    ensures Or(x, x) == x
  {
    forall i: nat ensures Bit(Or(x, x), i) == Bit(x, i) {
      BitOr(x, x, i);
    }
    BitsDetermine(Or(x, x), x);
  }

  /** `x ^ x` is 0. */
  lemma XorSelf(x: int)
    ensures Xor(x, x) == 0
  {
    forall i: nat ensures Bit(Xor(x, x), i) == Bit(0, i) {
      BitXor(x, x, i);
      BitOfZero(i);
    }
    BitsDetermine(Xor(x, x), 0);
  }

  /** A value below 2^k has bit k clear, so masking it with 2^k gives 0. */
  lemma AndBelow(t: int, k: nat)
    requires 0 <= t < Pow2(k)
    ensures And(t, Pow2(k)) == 0
  {
    forall i: nat ensures Bit(And(t, Pow2(k)), i) == Bit(0, i) {
      BitAnd(t, Pow2(k), i);
      BitPow2(k, i);
      BitOfZero(i);
      if i == k { BitAboveWidth(t, k, i); }
    }
    BitsDetermine(And(t, Pow2(k)), 0);
  }

  /** Splitting an integer into `x >> 8` and `x & 0xFF` and joining the parts
      with `hi << 8 | lo` gives it back, for every integer. */
  lemma SplitJoin(x: int)
    ensures Or(Shl(Shr(x, 8), 8), And(x, 0xFF)) == x
  {
    assert Pow2(8) == 256;
    AndMasks(x);
    OrShlLow(Shr(x, 8), 8, And(x, 0xFF));
  }

  /** Setting bit 7 of a value below 128 adds 128 or nothing. */
  lemma SetBitTop(w: int, x: int)
    requires 0 <= w < 128
    ensures SetBit(w, 7, x) == w + (if x != 0 then 128 else 0)
  {
    assert Pow2(7) == 128;
    if x != 0 {
      OrShlLow(1, 7, w);
      forall i: nat ensures Bit(SetBit(w, 7, x), i) == Bit(Or(Shl(1, 7), w), i) {
        SetBitBits(w, 7, x, i);
        BitOr(Shl(1, 7), w, i);
        BitShl(1, 7, i);
        if i >= 7 {
          BitAboveWidth(w, 7, i);
          assert Pow2(0) == 1;
          BitPow2(0, i - 7);
        }
      }
      BitsDetermine(SetBit(w, 7, x), Or(Shl(1, 7), w));
    } else {
      forall i: nat ensures Bit(SetBit(w, 7, x), i) == Bit(w, i) {
        SetBitBits(w, 7, x, i);
        if i == 7 { BitAboveWidth(w, 7, i); }
      }
      BitsDetermine(SetBit(w, 7, x), w);
    }
  }

  /** Setting bit 0 of an even number adds 1 or nothing. */
  lemma SetBitLow(w: int, x: int)
    ensures SetBit(2 * w, 0, x) == 2 * w + (if x != 0 then 1 else 0)
  {
    var b := if x != 0 then 1 else 0;
    forall i: nat ensures Bit(SetBit(2 * w, 0, x), i) == Bit(2 * w + b, i) {
      SetBitBits(2 * w, 0, x, i);
      BitSplit(w, b, 0);
      if i > 0 {
        BitSplit(w, 0, i - 1);
        BitSplit(w, b, i - 1);
      }
    }
    BitsDetermine(SetBit(2 * w, 0, x), 2 * w + b);
  }

  /** `v & 0x80` on a byte is its top bit, in place: 128 or 0. */
  lemma AndTop(v: int)
    requires 0 <= v < 256
    ensures And(v, 0x80) == 128 * (v / 128)
  {
    assert Pow2(7) == 128;
    var b := v / 128;
    forall i: nat ensures Bit(And(v, 0x80), i) == Bit(0 + Pow2(7) * b, i) {
      BitAnd(v, 0x80, i);
      BitPow2(7, i);
      BitHigh(v % 128, b, 7, i);
      BitHigh(0, b, 7, i);
      if i < 7 { BitOfZero(i); }
    }
    BitsDetermine(And(v, 0x80), 0 + Pow2(7) * b);
  }

  /** Adding `b * 2^k` to a value below 2^k puts `b` at bit k and keeps the
      bits below. */
  lemma {:induction false} BitHigh(u: int, b: int, k: nat, i: nat)
    requires 0 <= u < Pow2(k) && (b == 0 || b == 1)
    ensures Bit(u + Pow2(k) * b, i) == if i == k then b else if i < k then Bit(u, i) else 0
  {
    if k == 0 {
      if i > 0 { BitOfZero(i - 1); }
    } else if i > 0 {
      var x := u + Pow2(k) * b;
      assert x / 2 == u / 2 + Pow2(k - 1) * b;
      BitHigh(u / 2, b, k - 1, i - 1);
    }
  }
}
