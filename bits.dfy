/** Bitwise operations on naturals, defined one bit at a time.
    Rust's `&`, `|`, `^` and `count_ones` on `u8` are modelled by these
    functions; `Bit` is the reference against which they are specified. */
module Bits {

  function Pow2(k: nat): (p: nat)
    ensures p >= 1
  {
    if k == 0 then 1 else 2 * Pow2(k - 1)
  }

  /** Bit i of x (bit 0 is the least significant). */
  function Bit(x: nat, i: nat): bool
  {
    if i == 0 then x % 2 == 1 else Bit(x / 2, i - 1)
  }

  function And(a: nat, b: nat): nat
  {
    if a == 0 || b == 0 then 0
    else 2 * And(a / 2, b / 2) + (if a % 2 == 1 && b % 2 == 1 then 1 else 0)
  }

  function Or(a: nat, b: nat): nat
  {
    if a == 0 then b
    else if b == 0 then a
    else 2 * Or(a / 2, b / 2) + (if a % 2 == 1 || b % 2 == 1 then 1 else 0)
  }

  function Xor(a: nat, b: nat): nat
  {
    if a == 0 then b
    else if b == 0 then a
    else 2 * Xor(a / 2, b / 2) + (if a % 2 != b % 2 then 1 else 0)
  }

  /** Number of one bits (Rust's `count_ones`). */
  function Popcount(x: nat): nat
  {
    if x == 0 then 0 else x % 2 + Popcount(x / 2)
  }

  // ---------------------------------------------------------------------
  // Per-bit specifications

  lemma {:induction false} AndBit(a: nat, b: nat, i: nat)
    ensures Bit(And(a, b), i) == (Bit(a, i) && Bit(b, i))
  {
    if a == 0 || b == 0 {
      ZeroBit(i);
    } else if i > 0 {
      AndBit(a / 2, b / 2, i - 1);
    }
  }

  lemma {:induction false} OrBit(a: nat, b: nat, i: nat)
    ensures Bit(Or(a, b), i) == (Bit(a, i) || Bit(b, i))
  {
    if a == 0 || b == 0 {
      ZeroBit(i);
    } else if i > 0 {
      OrBit(a / 2, b / 2, i - 1);
    }
  }

  lemma {:induction false} XorBit(a: nat, b: nat, i: nat)
    ensures Bit(Xor(a, b), i) == (Bit(a, i) != Bit(b, i))
  {
    if a == 0 || b == 0 {
      ZeroBit(i);
    } else if i > 0 {
      XorBit(a / 2, b / 2, i - 1);
    }
  }

  lemma {:induction false} ZeroBit(i: nat)
    ensures !Bit(0, i)
  {
    if i > 0 { ZeroBit(i - 1); }
  }

  /** Two naturals with the same bits are equal. */
  lemma {:induction false} BitsDetermine(x: nat, y: nat, width: nat)
    requires x < Pow2(width) && y < Pow2(width)
    requires forall i | 0 <= i < width :: Bit(x, i) == Bit(y, i)
    ensures x == y
  {
    if width > 0 {
      forall i | 0 <= i < width - 1
        ensures Bit(x / 2, i) == Bit(y / 2, i)
      {
        assert Bit(x, i + 1) == Bit(y, i + 1);
      }
      BitsDetermine(x / 2, y / 2, width - 1);
      assert Bit(x, 0) == Bit(y, 0);
    }
  }

  /** A natural below 2^width has no bit at or above width. */
  lemma {:induction false} HighBitsClear(x: nat, width: nat, i: nat)
    requires x < Pow2(width) && i >= width
    ensures !Bit(x, i)
  {
    if width == 0 {
      ZeroBit(i);
    } else {
      HighBitsClear(x / 2, width - 1, i - 1);
    }
  }

  // ---------------------------------------------------------------------
  // Bounds

  lemma {:induction false} AndBound(a: nat, b: nat)
    ensures And(a, b) <= a && And(a, b) <= b
  {
    if a != 0 && b != 0 { AndBound(a / 2, b / 2); }
  }

  lemma {:induction false} OrBound(a: nat, b: nat, width: nat)
    requires a < Pow2(width) && b < Pow2(width)
    ensures Or(a, b) < Pow2(width)
  {
    if a != 0 && b != 0 { OrBound(a / 2, b / 2, width - 1); }
  }

  lemma {:induction false} XorBound(a: nat, b: nat, width: nat)
    requires a < Pow2(width) && b < Pow2(width)
    ensures Xor(a, b) < Pow2(width)
  {
    if a != 0 && b != 0 { XorBound(a / 2, b / 2, width - 1); }
  }

  // ---------------------------------------------------------------------
  // Masks with one bit, and ORs of disjoint parts

  /** x & 2^k is 2^k exactly when bit k of x is set, and 0 otherwise. */
  lemma {:induction false} AndPow2(x: nat, k: nat)
    ensures And(x, Pow2(k)) == if Bit(x, k) then Pow2(k) else 0
  {
    if x == 0 {
      ZeroBit(k);
    } else if k > 0 {
      AndPow2(x / 2, k - 1);
    }
  }

  /** Or-ing 2^k onto a number below 2^k is an addition. */
  lemma {:induction false} OrPow2Below(k: nat, y: nat)
    requires y < Pow2(k)
    ensures Or(Pow2(k), y) == Pow2(k) + y
  {
    if k > 0 && y != 0 {
      OrPow2Below(k - 1, y / 2);
    }
  }

  /** Bit k of a number in [0, 2^(k+1)) is set exactly when it is at least 2^k. */
  lemma {:induction false} TopBit(x: nat, k: nat)
    requires x < 2 * Pow2(k)
    ensures Bit(x, k) <==> x >= Pow2(k)
  {
    if k > 0 { TopBit(x / 2, k - 1); }
  }

  /** Bit i of c * 2^k for c in {0, 1}. */
  lemma {:induction false} ScaledBit(c: nat, k: nat, i: nat)
    requires c <= 1
    ensures Bit(c * Pow2(k), i) == (c == 1 && i == k)
  {
    if c == 0 {
      ZeroBit(i);
    } else if k == 0 {
      if i > 0 { ZeroBit(i - 1); }
    } else if i > 0 {
      ScaledBit(c, k - 1, i - 1);
    }
  }

  // ---------------------------------------------------------------------
  // Masks of consecutive low bits, and the complement

  /** x & (2^k - 1) keeps the k low bits: it is x mod 2^k. */
  lemma {:induction false} LowMask(x: nat, k: nat)
    ensures And(x, Pow2(k) - 1) == x % Pow2(k)
  {
    if k == 0 {
      DivModUnique(x, 1, x, 0);
    } else if x == 0 {
      DivModUnique(0, Pow2(k), 0, 0);
    } else {
      LowMask(x / 2, k - 1);
      LowMaskStep(x, k);
    }
  }

  /** The induction step of `LowMask`: one more low bit. */
  lemma LowMaskStep(x: nat, k: nat)
    requires k > 0 && x != 0
    requires And(x / 2, Pow2(k - 1) - 1) == (x / 2) % Pow2(k - 1)
    ensures And(x, Pow2(k) - 1) == x % Pow2(k)
  {
    var p, m := Pow2(k - 1), Pow2(k) - 1;
    HalfMask(k);
    AndUnfold(x, m);
    assert And(x, m) == 2 * ((x / 2) % p) + x % 2;
    ModDouble(x, p);
    assert Pow2(k) == 2 * p;
  }

  /** 2^k - 1 is odd for k > 0, and halving it gives 2^(k-1) - 1. */
  lemma HalfMask(k: nat)
    requires k > 0
    ensures (Pow2(k) - 1) % 2 == 1 && (Pow2(k) - 1) / 2 == Pow2(k - 1) - 1
  {
    DivModUnique(Pow2(k) - 1, 2, Pow2(k - 1) - 1, 1);
  }

  lemma AndUnfold(a: nat, b: nat)
    requires a != 0 && b != 0
    ensures And(a, b) == 2 * And(a / 2, b / 2) + (if a % 2 == 1 && b % 2 == 1 then 1 else 0)
  {
  }

  /** A mask with bit 0 clear shifts: x & 2m is twice (x >> 1) & m. */
  lemma ShiftedMask(x: nat, m: nat)
    ensures And(x, 2 * m) == 2 * And(x / 2, m)
  {
  }

  /** Below 2^width, 2^width - 1 - x has exactly the bits x lacks. */
  lemma {:induction false} ComplementBit(x: nat, width: nat, i: nat)
    requires x < Pow2(width) && i < width
    ensures Bit(Pow2(width) - 1 - x, i) == !Bit(x, i)
  {
    if i > 0 {
      ComplementBit(x / 2, width - 1, i - 1);
    }
  }

  /** x mod 2^k keeps the bits of x below k and clears the rest. */
  lemma {:induction false} ModBit(x: nat, k: nat, i: nat)
    ensures Bit(x % Pow2(k), i) == (i < k && Bit(x, i))
  {
    if k == 0 {
      ZeroBit(i);
    } else {
      ModDouble(x, Pow2(k - 1));
      var y := x % Pow2(k);
      assert y == 2 * ((x / 2) % Pow2(k - 1)) + x % 2;
      if i > 0 {
        assert y / 2 == (x / 2) % Pow2(k - 1);
        ModBit(x / 2, k - 1, i - 1);
      }
    }
  }

  lemma ModDouble(x: nat, p: nat)
    requires p >= 1
    ensures x % (2 * p) == 2 * ((x / 2) % p) + x % 2
  {
    var t, s := (x / 2) / p, (x / 2) % p;
    assert x == 2 * p * t + (2 * s + x % 2);
    DivModUnique(x, 2 * p, t, 2 * s + x % 2);
  }

  lemma DivModUnique(x: int, d: int, q: int, r: int)
    requires d > 0 && x == d * q + r && 0 <= r < d
    ensures x % d == r && x / d == q
  {
    var q0, r0 := x / d, x % d;
    assert d * (q - q0) == r0 - r;
    if q > q0 {
      MulAtLeast(d, q - q0);
    } else if q < q0 {
      MulAtLeast(d, q0 - q);
    }
  }

  lemma MulAtLeast(d: int, k: int)
    requires d > 0 && k >= 1
    ensures d * k >= d
  {
  }
}
