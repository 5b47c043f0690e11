// Fixed-width integers and the bitwise operators the emulator applies to them.
//
// The source works on JavaScript numbers holding 8- and 16-bit values. Here a
// byte or a word is an unbounded integer restricted to its range, and each
// bitwise operator is an explicit function:
//   x & (2^k - 1)  is the Euclidean remainder x % 2^k (also for negative x,
//                  which JavaScript holds in two's complement);
//   x >> n         is x / 2^n for non-negative x;
//   x << n         is x * 2^n while the product stays below 2^31;
//   x & y, x | y, x ^ y on non-negative x and y are And, Or and Xor below,
//                  defined one bit at a time from the lowest bit up.
module Bits {

  type byte = x: int | 0 <= x < 0x100
  type word = x: int | 0 <= x < 0x1_0000

  function Pow2(n: nat): (r: nat)
    ensures r >= 1
  {
    if n == 0 then 1 else 2 * Pow2(n - 1)
  }

  /** Bit n of x, that is (x >> n) & 1. */
  function Bit(x: nat, n: nat): (b: nat)
    ensures b < 2
  {
    if n == 0 then x % 2 else Bit(x / 2, n - 1)
  }

  /** x & y */
  function And(x: nat, y: nat): (r: nat)
    ensures r <= x && r <= y
    decreases x
  {
    if x == 0 || y == 0 then 0
    else 2 * And(x / 2, y / 2) + (if x % 2 == 1 && y % 2 == 1 then 1 else 0)
  }

  /** x | y */
  function Or(x: nat, y: nat): (r: nat)
    decreases x + y
  {
    if x == 0 then y
    else if y == 0 then x
    else 2 * Or(x / 2, y / 2) + (if x % 2 == 1 || y % 2 == 1 then 1 else 0)
  }

  /** x ^ y */
  function Xor(x: nat, y: nat): (r: nat)
    decreases x + y
  {
    if x == 0 then y
    else if y == 0 then x
    else 2 * Xor(x / 2, y / 2) + (if x % 2 != y % 2 then 1 else 0)
  }

  /** x & (1 << n) is non-zero, the source's test of a single bit. */
  function TestBit(x: byte, n: nat): (r: bool)
    ensures r <==> Bit(x, n) == 1
  {
    AndPow2(x, n);
    And(x, Pow2(n)) != 0
  }

  /** x | (1 << n) on a byte. */
  function SetBit(x: byte, n: nat): (r: byte)
    requires n < 8
    ensures Bit(r, n) == 1
    ensures forall i: nat :: i != n ==> Bit(r, i) == Bit(x, i)
  {
    Pow2Below(n, 8);
    OrBound(x, Pow2(n), 8);
    assert forall i: nat :: Bit(Or(x, Pow2(n)), i) == (if i == n then 1 else Bit(x, i)) by {
      forall i: nat ensures Bit(Or(x, Pow2(n)), i) == (if i == n then 1 else Bit(x, i)) {
        BitOr(x, Pow2(n), i);
        BitPow2(n, i);
      }
    }
    Or(x, Pow2(n))
  }

  /** x & (0xff - (1 << n)) on a byte. */
  function ClearBit(x: byte, n: nat): (r: byte)
    requires n < 8
    ensures Bit(r, n) == 0
    ensures forall i: nat :: i != n ==> Bit(r, i) == Bit(x, i)
  {
    Pow2Below(n, 8);
    assert Pow2(8) == 256;
    var mask := 0xFF - Pow2(n);
    assert forall i: nat :: Bit(And(x, mask), i) == (if i == n then 0 else Bit(x, i)) by {
      forall i: nat ensures Bit(And(x, mask), i) == (if i == n then 0 else Bit(x, i)) {
        ClearMaskBit(x, n, i);
      }
    }
    And(x, mask)
  }

  lemma ClearMaskBit(x: byte, n: nat, i: nat)
    requires n < 8
    ensures Pow2(n) < 256
    ensures Bit(And(x, 0xFF - Pow2(n)), i) == if i == n then 0 else Bit(x, i)
  {
    Pow2Below(n, 8);
    assert Pow2(8) == 256;
    BitAnd(x, 0xFF - Pow2(n), i);
    MaskBits(8, n, i);
    if i >= 8 {
      BitsAbove(x, 8, i);
    }
  }

  // ---------------------------------------------------------------------
  // Lemmas about bits

  lemma {:induction false} BitZero(n: nat)
    ensures Bit(0, n) == 0
  {
    if n > 0 {
      BitZero(n - 1);
    }
  }

  lemma {:induction false} Pow2Below(n: nat, k: nat)
    requires n < k
    ensures Pow2(n) < Pow2(k)
  {
    if n + 1 < k {
      Pow2Below(n, k - 1);
    }
  }

  /** A value below 2^k has no bit at position k or above. */
  lemma {:induction false} BitsAbove(x: nat, k: nat, n: nat)
    requires x < Pow2(k) && k <= n
    ensures Bit(x, n) == 0
  {
    if k == 0 {
      BitZero(n);
    } else {
      BitsAbove(x / 2, k - 1, n - 1);
    }
  }

  lemma {:induction false} BitPow2(k: nat, n: nat)
    ensures Bit(Pow2(k), n) == if n == k then 1 else 0
  {
    if k == 0 {
      if n > 0 {
        BitZero(n - 1);
      }
    } else if n > 0 {
      BitPow2(k - 1, n - 1);
    }
  }

  lemma {:induction false} BitAnd(x: nat, y: nat, n: nat)
    ensures Bit(And(x, y), n) == Bit(x, n) * Bit(y, n)
    decreases x
  {
    if x == 0 || y == 0 {
      BitZero(n);
    } else if n > 0 {
      BitAnd(x / 2, y / 2, n - 1);
    }
  }

  lemma {:induction false} BitOr(x: nat, y: nat, n: nat)
    ensures Bit(Or(x, y), n) == if Bit(x, n) == 1 || Bit(y, n) == 1 then 1 else 0
    decreases x + y
  {
    if x == 0 || y == 0 {
      BitZero(n);
    } else if n > 0 {
      BitOr(x / 2, y / 2, n - 1);
    }
  }

  lemma {:induction false} BitXor(x: nat, y: nat, n: nat)
    ensures Bit(Xor(x, y), n) == if Bit(x, n) != Bit(y, n) then 1 else 0
    decreases x + y
  {
    if x == 0 || y == 0 {
      BitZero(n);
    } else if n > 0 {
      BitXor(x / 2, y / 2, n - 1);
    }
  }

  lemma {:induction false} OrBound(x: nat, y: nat, k: nat)
    requires x < Pow2(k) && y < Pow2(k)
    ensures Or(x, y) < Pow2(k)
    decreases x + y
  {
    if x != 0 && y != 0 {
      OrBound(x / 2, y / 2, k - 1);
    }
  }

  lemma {:induction false} XorBound(x: nat, y: nat, k: nat)
    requires x < Pow2(k) && y < Pow2(k)
    ensures Xor(x, y) < Pow2(k)
    decreases x + y
  {
    if x != 0 && y != 0 {
      XorBound(x / 2, y / 2, k - 1);
    }
  }

  /** Masking with a single bit keeps exactly that bit. */
  lemma {:induction false} AndPow2(x: nat, n: nat)
    ensures And(x, Pow2(n)) == if Bit(x, n) == 1 then Pow2(n) else 0
  {
    if x == 0 {
      BitZero(n);
    } else if n == 0 {
      assert And(x / 2, 0) == 0;
    } else {
      assert Pow2(n) == 2 * Pow2(n - 1);
      AndPow2(x / 2, n - 1);
    }
  }

  lemma {:induction false} OrComm(x: nat, y: nat)
    ensures Or(x, y) == Or(y, x)
    decreases x + y
  {
    if x != 0 && y != 0 {
      OrComm(x / 2, y / 2);
    }
  }

  /** Or of a value shifted left by k with a value below 2^k is their sum. */
  lemma {:induction false} OrDisjoint(hi: nat, lo: nat, k: nat)
    requires lo < Pow2(k)
    ensures Or(hi * Pow2(k), lo) == hi * Pow2(k) + lo
  {
    if k > 0 && hi != 0 && lo != 0 {
      var x := hi * Pow2(k - 1);
      assert hi * Pow2(k) == 2 * x;
      OrDisjoint(hi, lo / 2, k - 1);
    }
  }

  /** The bits of 2^k - 1: ones below k. */
  lemma {:induction false} OnesBits(k: nat, i: nat)
    ensures Bit(Pow2(k) - 1, i) == if i < k then 1 else 0
  {
    if k == 0 {
      BitZero(i);
    } else if i > 0 {
      OnesBits(k - 1, i - 1);
    }
  }

  /** The bits of 2^k - 1 - 2^n: ones below k except at n. */
  lemma {:induction false} MaskBits(k: nat, n: nat, i: nat)
    requires n < k
    ensures Pow2(n) < Pow2(k) && Bit(Pow2(k) - 1 - Pow2(n), i) == if i < k && i != n then 1 else 0
  {
    Pow2Below(n, k);
    if n == 0 {
      if i > 0 {
        OnesBits(k - 1, i - 1);
      }
    } else if i > 0 {
      MaskBits(k - 1, n - 1, i - 1);
    }
  }

  /** Two numbers with the same bits are equal. */
  lemma {:induction false} BitsEqual(x: nat, y: nat)
    requires forall i: nat :: Bit(x, i) == Bit(y, i)
    ensures x == y
    decreases x + y
  {
    assert Bit(x, 0) == Bit(y, 0);
    if x != 0 && y != 0 {
      forall i: nat ensures Bit(x / 2, i) == Bit(y / 2, i) {
        assert Bit(x, i + 1) == Bit(y, i + 1);
      }
      BitsEqual(x / 2, y / 2);
    } else if x == 0 && y != 0 {
      NonZeroHasBit(y);
      var i: nat :| Bit(y, i) == 1;
      BitZero(i);
      assert false;
    } else if x != 0 && y == 0 {
      NonZeroHasBit(x);
      var i: nat :| Bit(x, i) == 1;
      BitZero(i);
      assert false;
    }
  }

  lemma {:induction false} NonZeroHasBit(x: nat)
    requires x != 0
    ensures exists i: nat :: Bit(x, i) == 1
  {
    if x % 2 == 1 {
      assert Bit(x, 0) == 1;
    } else {
      NonZeroHasBit(x / 2);
      var i: nat :| Bit(x / 2, i) == 1;
      assert Bit(x, i + 1) == 1;
    }
  }
}
