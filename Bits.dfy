/** Python's bitwise operators on non-negative integers, defined one binary
    digit at a time, and the per-bit facts the bias-board shadow state needs. */
module Bits {

  function Pow2(n: nat): (r: nat)
    ensures r >= 1
  {
    if n == 0 then 1 else 2 * Pow2(n - 1)
  }

  /** Bit `k` of `p`, that is `(p >> k) & 1 == 1`. */
  predicate Bit(p: nat, k: nat)
    decreases k
  {
    if k == 0 then p % 2 == 1 else Bit(p / 2, k - 1)
  }

  /** `a | b`. */
  function Or(a: nat, b: nat): (r: nat)
    decreases a + b
  {
    if a == 0 && b == 0 then 0
    else 2 * Or(a / 2, b / 2) + (if a % 2 == 1 || b % 2 == 1 then 1 else 0)
  }

  /** `a & ~b`: the bits of `a` that are not bits of `b`. */
  function AndNot(a: nat, b: nat): (r: nat)
    decreases a
  {
    if a == 0 then 0
    else 2 * AndNot(a / 2, b / 2) + (if a % 2 == 1 && b % 2 == 0 then 1 else 0)
  }

  lemma {:induction false} ZeroHasNoBits(k: nat)
    ensures !Bit(0, k)
    decreases k
  {
    if k > 0 {
      ZeroHasNoBits(k - 1);
    }
  }

  /** Bit `k` of `2 * x + b` (b a binary digit). */
  lemma BitOfDouble(x: nat, b: nat, k: nat)
    requires b < 2
    ensures Bit(2 * x + b, k) == if k == 0 then b == 1 else Bit(x, k - 1)
  {
    assert (2 * x + b) / 2 == x;
  }

  lemma {:induction false} OrBit(a: nat, b: nat, k: nat)
    ensures Bit(Or(a, b), k) == (Bit(a, k) || Bit(b, k))
    decreases k
  {
    if a == 0 && b == 0 {
      ZeroHasNoBits(k);
    } else {
      var low := if a % 2 == 1 || b % 2 == 1 then 1 else 0;
      BitOfDouble(Or(a / 2, b / 2), low, k);
      if k > 0 {
        OrBit(a / 2, b / 2, k - 1);
      }
    }
  }

  lemma {:induction false} AndNotBit(a: nat, b: nat, k: nat)
    ensures Bit(AndNot(a, b), k) == (Bit(a, k) && !Bit(b, k))
    decreases k
  {
    if a == 0 {
      ZeroHasNoBits(k);
    } else {
      var low := if a % 2 == 1 && b % 2 == 0 then 1 else 0;
      BitOfDouble(AndNot(a / 2, b / 2), low, k);
      if k > 0 {
        AndNotBit(a / 2, b / 2, k - 1);
      }
    }
  }

  /** `1 << n` has exactly bit `n` set. */
  lemma {:induction false} Pow2Bit(n: nat, k: nat)
    ensures Bit(Pow2(n), k) <==> k == n
    decreases n
  {
    if n == 0 {
      if k > 0 {
        ZeroHasNoBits(k - 1);
      }
    } else {
      BitOfDouble(Pow2(n - 1), 0, k);
      if k > 0 {
        Pow2Bit(n - 1, k - 1);
      }
    }
  }

  /** `(1 << n) - 1` has exactly bits 0..n-1 set. */
  lemma {:induction false} LowMaskBit(n: nat, k: nat)
    ensures Bit(Pow2(n) - 1, k) <==> k < n
    decreases n
  {
    if n == 0 {
      ZeroHasNoBits(k);
    } else {
      assert Pow2(n) - 1 == 2 * (Pow2(n - 1) - 1) + 1;
      BitOfDouble(Pow2(n - 1) - 1, 1, k);
      if k > 0 {
        LowMaskBit(n - 1, k - 1);
      }
    }
  }

  /** Raising bit `n` of `(1 << n) - 1` gives `(1 << (n + 1)) - 1`. */
  lemma {:induction false} OrNextBit(n: nat)
    ensures Or(Pow2(n) - 1, Pow2(n)) == Pow2(n + 1) - 1
    decreases n
  {
    if n > 0 {
      OrNextBit(n - 1);
      assert (Pow2(n) - 1) / 2 == Pow2(n - 1) - 1;
    }
  }

  /** Quotient and remainder are unique. */
  lemma DivModUnique(x: int, q: int, a: int, s: int)
    requires q >= 1 && 0 <= s < q && x == q * a + s
    ensures x / q == a && x % q == s
  {
    var d := x / q - a;
    assert q * d == s - x % q by {
      assert x == q * (x / q) + x % q;
      assert q * (x / q) == q * a + q * d;
    }
    assert -q < q * d < q;
    MulAwayFromZero(q, d);
  }

  lemma MulAwayFromZero(q: int, d: int)
    requires q >= 1
    ensures d >= 1 ==> q * d >= q
    ensures d <= -1 ==> q * d <= -q
  {
    assert q * d - q == q * (d - 1);
    assert q * d + q == q * (d + 1);
  }

  lemma ModOfDouble(p: nat, q: nat)
    requires q >= 1
    ensures (p % (2 * q)) % 2 == p % 2
    ensures (p % (2 * q)) / 2 == (p / 2) % q
  {
    var a, r := p / (2 * q), p % (2 * q);
    var m := q * a;
    assert p == 2 * m + r by {
      assert p == (2 * q) * a + r;
      assert (2 * q) * a == 2 * (q * a);
    }
    assert p / 2 == m + r / 2;
    DivModUnique(p / 2, q, a, r / 2);
  }

  /** The low `n` bits of `p` are the bits of `p % (1 << n)`. */
  lemma {:induction false} LowBits(p: nat, n: nat, k: nat)
    requires k < n
    ensures Bit(p % Pow2(n), k) == Bit(p, k)
    decreases k
  {
    ModOfDouble(p, Pow2(n - 1));
    if k > 0 {
      LowBits(p / 2, n - 1, k - 1);
    }
  }

  lemma DivOfDouble(p: nat, q: nat)
    requires q >= 1
    ensures (p / 2) / q == p / (2 * q)
  {
    var a, r := p / (2 * q), p % (2 * q);
    var m := q * a;
    assert p == 2 * m + r by {
      assert p == (2 * q) * a + r;
      assert (2 * q) * a == 2 * (q * a);
    }
    assert p / 2 == m + r / 2;
    DivModUnique(p / 2, q, a, r / 2);
  }

  /** `p >> n`, as `n` halvings. */
  function Shr(p: nat, n: nat): (r: nat)
  {
    if n == 0 then p else Shr(p / 2, n - 1)
  }

  /** Shifting right by `n` is dividing by `1 << n`. */
  lemma {:induction false} ShrIsDiv(p: nat, n: nat)
    ensures Shr(p, n) == p / Pow2(n)
    decreases n
  {
    if n > 0 {
      ShrIsDiv(p / 2, n - 1);
      DivOfDouble(p, Pow2(n - 1));
    }
  }

  /** The bits of `p >> n` are the bits of `p` from `n` up. */
  lemma {:induction false} HighBits(p: nat, n: nat, k: nat)
    ensures Bit(Shr(p, n), k) == Bit(p, k + n)
    decreases n
  {
    if n > 0 {
      HighBits(p / 2, n - 1, k);
    }
  }

  /** Numbers that agree on bits 0..n-1 agree modulo `1 << n`. */
  lemma {:induction false} SameLowBits(a: nat, b: nat, n: nat)
    requires forall k: nat :: k < n ==> Bit(a, k) == Bit(b, k)
    ensures a % Pow2(n) == b % Pow2(n)
    decreases n
  {
    if n > 0 {
      var q := Pow2(n - 1);
      ModOfDouble(a, q);
      ModOfDouble(b, q);
      assert Bit(a, 0) == Bit(b, 0);
      forall k: nat | k < n - 1 ensures Bit(a / 2, k) == Bit(b / 2, k) {
        assert Bit(a, k + 1) == Bit(b, k + 1);
      }
      SameLowBits(a / 2, b / 2, n - 1);
      var x, y := a % (2 * q), b % (2 * q);
      assert x == 2 * (x / 2) + x % 2;
      assert y == 2 * (y / 2) + y % 2;
    }
  }
}
