/** Python's bitwise operators on non-negative integers (`|`, `&`, `<<`, `>>`),
    written out over `nat`, with the bit-level facts the exclusion masks rely on. */
module Bits {

  /** 2 to the power i (Python `2**i`). */
  function Pow2(i: nat): (r: nat)
    ensures r >= 1
  {
    if i == 0 then 1 else 2 * Pow2(i - 1)
  }

  /** Bit i of n is set (Python `(n >> i) & 1 == 1`). */
  predicate Bit(n: nat, i: nat)
  {
    if i == 0 then n % 2 == 1 else Bit(n / 2, i - 1)
  }

  /** Python `a | b`: at least each operand, at most their sum. */
  function Or(a: nat, b: nat): (r: nat)
    ensures a <= r && b <= r && r <= a + b
    decreases a + b
  {
    if a == 0 && b == 0 then 0
    else 2 * Or(a / 2, b / 2) + (if a % 2 == 1 || b % 2 == 1 then 1 else 0)
  }

  /** Python `a & b`: at most each operand. */
  function And(a: nat, b: nat): (r: nat)
    ensures r <= a && r <= b
    decreases a + b
  {
    if a == 0 || b == 0 then 0
    else 2 * And(a / 2, b / 2) + (if a % 2 == 1 && b % 2 == 1 then 1 else 0)
  }

  /** Python `n << k`. */
  function Shl(n: nat, k: nat): (r: nat)
    ensures r == n * Pow2(k)
  {
    if k == 0 then n else 2 * Shl(n, k - 1)
  }

  /** Python `n >> k`: floor division by 2^k. */
  function Shr(n: nat, k: nat): (r: nat)
    ensures r == n / Pow2(k)
  {
    if k == 0 then n
    else
      HalfThenDivide(n, Pow2(k - 1));
      Shr(n / 2, k - 1)
  }

  /** Division is determined by quotient and remainder. */
  lemma DivUnique(n: nat, d: nat, q: nat, r: nat)
    requires 0 < d && n == d * q + r && r < d
    ensures n / d == q
  {
    var q', r' := n / d, n % d;
    assert n == d * q' + r';
    if q' < q {
      MulStep(d, q', q);
    } else if q < q' {
      MulStep(d, q, q');
    }
  }

  /** A larger factor adds at least one more d. */
  lemma {:induction false} MulStep(d: nat, a: nat, b: nat)
    requires a < b
    ensures d * a + d <= d * b
    decreases b - a
  {
    if a + 1 < b {
      MulStep(d, a + 1, b);
      assert d * (a + 1) == d * a + d;
    } else {
      assert d * b == d * a + d;
    }
  }

  /** Halving and then dividing by m is dividing by 2m. */
  lemma HalfThenDivide(n: nat, m: nat)
    requires 0 < m
    ensures (n / 2) / m == n / (2 * m)
  {
    var q, r := n / (2 * m), n % (2 * m);
    var mq := m * q;
    assert (2 * m) * q == 2 * mq;
    assert n == 2 * mq + r;
    var h, e := r / 2, r % 2;
    assert r == 2 * h + e && h < m;
    assert n == 2 * (mq + h) + e;
    DivUnique(n, 2, mq + h, e);
    DivUnique(n / 2, m, q, h);
  }

  lemma {:induction false} BitZero(i: nat)
    ensures !Bit(0, i)
  {
    if i > 0 {
      BitZero(i - 1);
    }
  }

  lemma {:induction false} BitOr(a: nat, b: nat, i: nat)
    ensures Bit(Or(a, b), i) <==> Bit(a, i) || Bit(b, i)
    decreases i
  {
    if a == 0 && b == 0 {
      BitZero(i);
    } else if i > 0 {
      assert Or(a, b) / 2 == Or(a / 2, b / 2);
      BitOr(a / 2, b / 2, i - 1);
    }
  }

  lemma {:induction false} BitAnd(a: nat, b: nat, i: nat)
    ensures Bit(And(a, b), i) <==> Bit(a, i) && Bit(b, i)
    decreases i
  {
    if a == 0 || b == 0 {
      BitZero(i);
    } else if i > 0 {
      assert And(a, b) / 2 == And(a / 2, b / 2);
      BitAnd(a / 2, b / 2, i - 1);
    }
  }

  lemma {:induction false} BitShl(n: nat, k: nat, i: nat)
    ensures Bit(Shl(n, k), i) <==> k <= i && Bit(n, i - k)
    decreases k
  {
    if k > 0 {
      assert Shl(n, k) == 2 * Shl(n, k - 1);
      if i == 0 {
      } else {
        assert Shl(n, k) / 2 == Shl(n, k - 1);
        BitShl(n, k - 1, i - 1);
      }
    }
  }

  lemma {:induction false} BitShr(n: nat, k: nat, i: nat)
    ensures Bit(Shr(n, k), i) <==> Bit(n, i + k)
    decreases k
  {
    if k > 0 {
      BitShr(n / 2, k - 1, i);
    }
  }

  /** 2^v has exactly bit v set. */
  lemma {:induction false} BitPow2(v: nat, i: nat)
    ensures Bit(Pow2(v), i) <==> i == v
    decreases v
  {
    if v == 0 {
      if i > 0 {
        BitZero(i - 1);
      }
    } else if i > 0 {
      BitPow2(v - 1, i - 1);
    }
  }

  /** 2^N - 1 has exactly the bits 0 .. N-1 set. */
  lemma {:induction false} BitLowMask(N: nat, i: nat)
    ensures Bit(Pow2(N) - 1, i) <==> i < N
    decreases N
  {
    if N == 0 {
      BitZero(i);
    } else {
      assert Pow2(N) - 1 == 2 * (Pow2(N - 1) - 1) + 1;
      if i > 0 {
        BitLowMask(N - 1, i - 1);
      }
    }
  }

  /** Two numbers with the same bits are equal. */
  lemma {:induction false} BitsEqual(a: nat, b: nat)
    requires forall i: nat :: Bit(a, i) <==> Bit(b, i)
    ensures a == b
    decreases a + b
  {
    if a != 0 || b != 0 {
      assert Bit(a, 0) <==> Bit(b, 0);
      forall i: nat
        ensures Bit(a / 2, i) <==> Bit(b / 2, i)
      {
        assert Bit(a, i + 1) <==> Bit(b, i + 1);
      }
      BitsEqual(a / 2, b / 2);
    }
  }

  /** A number below 2^N has no bit at position N or above. */
  lemma {:induction false} HighBitsClear(n: nat, N: nat, i: nat)
    requires n < Pow2(N)
    requires N <= i
    ensures !Bit(n, i)
    decreases N
  {
    if N == 0 {
      assert n == 0;
      BitZero(i);
    } else {
      HighBitsClear(n / 2, N - 1, i - 1);
    }
  }

  /** A number whose bits at N and above are all clear is below 2^N. */
  lemma {:induction false} BelowPow2(n: nat, N: nat)
    requires forall i: nat :: N <= i ==> !Bit(n, i)
    ensures n < Pow2(N)
    decreases N
  {
    if N == 0 {
      forall i: nat
        ensures Bit(n, i) <==> Bit(0, i)
      {
        BitZero(i);
      }
      BitsEqual(n, 0);
    } else {
      forall i: nat | N - 1 <= i
        ensures !Bit(n / 2, i)
      {
        assert !Bit(n, i + 1);
      }
      BelowPow2(n / 2, N - 1);
    }
  }

  lemma {:induction false} OrZero(b: nat)
    ensures Or(0, b) == b
    decreases b
  {
    if b != 0 {
      OrZero(b / 2);
    }
  }

  lemma {:induction false} OrSelf(a: nat)
    ensures Or(a, a) == a
    decreases a
  {
    if a != 0 {
      OrSelf(a / 2);
    }
  }

  /** On numbers with no common bit, `|` is `+`. */
  lemma {:induction false} OrDisjoint(a: nat, b: nat)
    requires forall i: nat :: !(Bit(a, i) && Bit(b, i))
    ensures Or(a, b) == a + b
    decreases a + b
  {
    if a != 0 || b != 0 {
      assert !(Bit(a, 0) && Bit(b, 0));
      forall i: nat
        ensures !(Bit(a / 2, i) && Bit(b / 2, i))
      {
        assert !(Bit(a, i + 1) && Bit(b, i + 1));
      }
      OrDisjoint(a / 2, b / 2);
    }
  }

  /** `n & (1 << i)` is zero exactly when bit i of n is clear. */
  lemma AndSingleBit(n: nat, i: nat)
    ensures And(n, Shl(1, i)) != 0 <==> Bit(n, i)
  {
    assert Shl(1, i) == Pow2(i);
    BitAnd(n, Pow2(i), i);
    BitPow2(i, i);
    if Bit(n, i) {
      BitZero(i);
    } else {
      forall j: nat
        ensures Bit(And(n, Pow2(i)), j) <==> Bit(0, j)
      {
        BitAnd(n, Pow2(i), j);
        BitPow2(i, j);
        BitZero(j);
      }
      BitsEqual(And(n, Pow2(i)), 0);
    }
  }
}
