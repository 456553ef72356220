/** Bit operations on natural numbers, and what the masks of the engine compute with them. */
module Bits {

  function Pow2(n: nat): (p: nat)
    ensures p >= 1
  {
    if n == 0 then 1 else 2 * Pow2(n - 1)
  }

  function And(x: nat, y: nat): nat
  {
    if x == 0 || y == 0 then 0 else 2 * And(x / 2, y / 2) + (x % 2) * (y % 2)
  }

  function Or(x: nat, y: nat): (r: nat)
    decreases x + y
  {
    if x == 0 then y else if y == 0 then x
    else 2 * Or(x / 2, y / 2) + (if x % 2 == 1 || y % 2 == 1 then 1 else 0)
  }

  // The index _BitScanReverse finds: of the highest one bit.
  function ScanReverse(x: nat): nat
    requires x > 0
  {
    if x == 1 then 0 else 1 + ScanReverse(x / 2)
  }

  // value != 0 && (value & (value - 1)) == 0
  predicate IsPowerOfTwo(value: nat)
  {
    value != 0 && And(value, value - 1) == 0
  }

  lemma {:induction false} Pow2Grows(a: nat, b: nat)
    requires a < b
    ensures 2 * Pow2(a) <= Pow2(b)
  {
    if a + 1 < b {
      Pow2Grows(a, b - 1);
    }
  }

  lemma {:induction false} Pow2Adds(a: nat, b: nat)
    ensures Pow2(a + b) == Pow2(a) * Pow2(b)
  {
    if a > 0 {
      Pow2Adds(a - 1, b);
      assert Pow2(a + b) == 2 * (Pow2(a - 1) * Pow2(b));
      assert 2 * (Pow2(a - 1) * Pow2(b)) == (2 * Pow2(a - 1)) * Pow2(b);
    }
  }

  lemma Pow2Divides(a: nat, b: nat)
    requires a <= b
    ensures Pow2(b) % Pow2(a) == 0 && Pow2(b) == Pow2(b - a) * Pow2(a)
  {
    Pow2Adds(b - a, a);
    MultipleLeavesNothing(Pow2(b - a), Pow2(a));
  }

  lemma MultipleLeavesNothing(k: nat, m: nat)
    requires m > 0
    ensures (k * m) % m == 0 && (k * m) / m == k
  {
    QuotientIs(k * m, m, k, 0);
  }

  lemma {:induction false} Scaled(m: nat, d: nat)
    requires d > 0
    ensures d * m >= m
  {
    if d > 1 {
      Scaled(m, d - 1);
      assert d * m == (d - 1) * m + m;
    }
  }

  // Uniqueness of quotient and remainder.
  lemma QuotientIs(x: nat, m: nat, q: nat, r: nat)
    requires m > 0 && r < m && x == q * m + r
    ensures x / m == q && x % m == r
  {
    var d := x / m - q;
    assert x == (x / m) * m + x % m;
    assert d * m == r - x % m;
    assert d * m == 0 by {
      if d > 0 { Scaled(m, d); } else if d < 0 { assert d * m == -((-d) * m); Scaled(m, -d); }
    }
  }

  // Dividing by an even number one bit at a time.
  lemma HalveDivisor(x: nat, m: nat)
    requires m > 0
    ensures x / (2 * m) == x / 2 / m && x % (2 * m) == 2 * (x / 2 % m) + x % 2
  {
    var q, r := x / 2 / m, x / 2 % m;
    assert x / 2 == q * m + r;
    assert x == q * (2 * m) + (2 * r + x % 2) by {
      assert q * (2 * m) == 2 * (q * m);
    }
    QuotientIs(x, 2 * m, q, 2 * r + x % 2);
  }

  lemma AndStep(x: nat, y: nat)
    ensures And(x, y) == 2 * And(x / 2, y / 2) + (x % 2) * (y % 2)
  {
  }

  // Masking with 2^k - 1 is the remainder.
  lemma {:induction false} MaskIsMod(x: nat, k: nat)
    ensures And(x, Pow2(k) - 1) == x % Pow2(k)
    decreases k
  {
    hide And;
    if k == 0 {
      AndZero(x);
    } else {
      var m := Pow2(k - 1);
      MaskIsMod(x / 2, k - 1);
      HalveDivisor(x, m);
      AndStep(x, 2 * m - 1);
    }
  }

  lemma AndZero(x: nat)
    ensures And(x, 0) == 0
  {
  }

  // Masking with the high bits of a w-bit word rounds down to a multiple.
  lemma {:induction false} HighMaskRoundsDown(x: nat, k: nat, w: nat)
    requires k <= w && x < Pow2(w)
    ensures Pow2(k) <= Pow2(w)
    ensures And(x, Pow2(w) - Pow2(k)) == x - x % Pow2(k)
    decreases k
  {
    if k == 0 {
      MaskIsMod(x, w);
      QuotientIs(x, Pow2(w), 0, x);
    } else {
      hide And;
      var m := Pow2(k - 1);
      HighMaskRoundsDown(x / 2, k - 1, w - 1);
      HalveDivisor(x, m);
      AndStep(x, Pow2(w) - Pow2(k));
    }
  }

  lemma {:induction false} ScanReverseBounds(x: nat)
    requires x > 0
    ensures Pow2(ScanReverse(x)) <= x < 2 * Pow2(ScanReverse(x))
  {
    if x > 1 {
      ScanReverseBounds(x / 2);
    }
  }

  // The bounds pin the index down.
  lemma ScanReverseIs(x: nat, n: nat)
    requires Pow2(n) <= x < 2 * Pow2(n)
    ensures ScanReverse(x) == n
  {
    ScanReverseBounds(x);
    var s := ScanReverse(x);
    if s < n { Pow2Grows(s, n); }
    if n < s { Pow2Grows(n, s); }
  }

  lemma {:induction false} OrBounds(x: nat, y: nat)
    ensures x <= Or(x, y) && y <= Or(x, y)
    decreases x + y
  {
    if x > 0 && y > 0 {
      OrBounds(x / 2, y / 2);
    }
  }

  lemma {:induction false} OrStaysBelow(x: nat, y: nat, n: nat)
    requires x < Pow2(n) && y < Pow2(n)
    ensures Or(x, y) < Pow2(n)
    decreases n
  {
    if x > 0 && y > 0 {
      OrStaysBelow(x / 2, y / 2, n - 1);
    }
  }

  // The highest bit of x | y is the higher of the two.
  lemma ScanReverseOfOr(x: nat, y: nat)
    requires y > 0
    ensures Or(x, y) > 0
    ensures ScanReverse(Or(x, y)) == if x == 0 || ScanReverse(x) < ScanReverse(y) then ScanReverse(y) else ScanReverse(x)
  {
    OrBounds(x, y);
    ScanReverseBounds(y);
    var sy := ScanReverse(y);
    if x == 0 {
    } else {
      ScanReverseBounds(x);
      var n := if ScanReverse(x) < sy then sy else ScanReverse(x);
      if ScanReverse(x) < n { Pow2Grows(ScanReverse(x), n); }
      if sy < n { Pow2Grows(sy, n); }
      OrStaysBelow(x, y, n + 1);
      ScanReverseIs(Or(x, y), n);
    }
  }

  lemma APower(v: nat, k: nat)
    requires v == Pow2(k)
    ensures exists j: nat :: v == Pow2(j)
  {
  }

  // Consecutive numbers share no bit exactly at powers of two.
  lemma {:induction false} PowerOfTwoIff(v: nat)
    ensures IsPowerOfTwo(v) <==> exists k: nat :: v == Pow2(k)
  {
    if v == 0 {
    } else if v == 1 {
      APower(v, 0);
    } else if v % 2 == 1 {
      // the last bit is the only difference
      assert And(v, v - 1) == 2 * And(v / 2, v / 2) && v / 2 == (v - 1) / 2;
      AndSelf(v / 2);
      assert !IsPowerOfTwo(v);
      forall k: nat ensures v != Pow2(k) {
        if k > 0 { assert Pow2(k) % 2 == 0; }
      }
    } else {
      PowerOfTwoIff(v / 2);
      assert (v - 1) / 2 == v / 2 - 1;
      assert And(v, v - 1) == 2 * And(v / 2, v / 2 - 1);
      if IsPowerOfTwo(v) {
        var k: nat :| v / 2 == Pow2(k);
        APower(v, k + 1);
      }
      if k: nat :| v == Pow2(k) {
        APower(v / 2, k - 1);
      }
    }
  }

  lemma {:induction false} AndSelf(x: nat)
    ensures And(x, x) == x
  {
    if x > 0 { AndSelf(x / 2); }
  }
}
