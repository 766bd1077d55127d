/** Python's unbounded non-negative integers seen as bit sets: shifts of one,
    bitwise or, and bit tests. */
module Bits {

  /** `1 << k`. */
  function Pow2(k: nat): (p: nat)
    ensures p >= 1
  {
    if k == 0 then 1 else 2 * Pow2(k - 1)
  }

  /** `a | b`, built bit by bit from the lowest bit up. */
  function Or(a: nat, b: nat): nat
    decreases a + b
  {
    if a == 0 then b
    else if b == 0 then a
    else 2 * Or(a / 2, b / 2) + (if a % 2 == 1 || b % 2 == 1 then 1 else 0)
  }

  /** Whether bit `j` of `n` is set, that is `(n >> j) & 1 == 1`. */
  predicate TestBit(n: nat, j: nat)
  {
    if j == 0 then n % 2 == 1 else TestBit(n / 2, j - 1)
  }

  lemma {:induction false} ZeroHasNoBits(j: nat)
    ensures !TestBit(0, j)
  {
    if j > 0 {
      ZeroHasNoBits(j - 1);
    }
  }

  /** A bit of `a | b` is set iff it is set in `a` or in `b`. */
  lemma {:induction false} OrBits(a: nat, b: nat, j: nat)
    ensures TestBit(Or(a, b), j) <==> TestBit(a, j) || TestBit(b, j)
    decreases j
  {
    if a == 0 {
      ZeroHasNoBits(j);
    } else if b == 0 {
      ZeroHasNoBits(j);
    } else {
      var q := Or(a / 2, b / 2);
      var low := if a % 2 == 1 || b % 2 == 1 then 1 else 0;
      assert Or(a, b) == 2 * q + low;
      HalfAndLow(q, low);
      if j > 0 {
        OrBits(a / 2, b / 2, j - 1);
      }
    }
  }

  lemma {:induction false} HalfAndLow(q: nat, low: nat)
    requires low < 2
    ensures (2 * q + low) % 2 == low && (2 * q + low) / 2 == q
  {
  }

  /** `1 << k` has exactly bit `k` set. */
  lemma {:induction false} Pow2Bits(k: nat, j: nat)
    ensures TestBit(Pow2(k), j) <==> j == k
  {
    if k == 0 {
      if j > 0 {
        ZeroHasNoBits(j - 1);
      }
    } else {
      assert Pow2(k) / 2 == Pow2(k - 1);
      if j > 0 {
        Pow2Bits(k - 1, j - 1);
      }
    }
  }

  /** Two numbers with the same bits are equal. */
  lemma {:induction false} SameBitsSameNumber(a: nat, b: nat)
    requires forall j: nat :: TestBit(a, j) == TestBit(b, j)
    ensures a == b
    decreases a + b
  {
    if a != 0 || b != 0 {
      assert TestBit(a, 0) == TestBit(b, 0);
      forall j: nat ensures TestBit(a / 2, j) == TestBit(b / 2, j) {
        assert TestBit(a, j + 1) == TestBit(b, j + 1);
      }
      SameBitsSameNumber(a / 2, b / 2);
    }
  }
}
