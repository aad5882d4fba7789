/** The unit that formatBytes chooses for a size (internal/transfer/p2p.go). */
module Sizes {
  const UNIT: nat := 1024
  const MAX_INT64: int := 0x7FFF_FFFF_FFFF_FFFF
  const SUFFIXES := "KMGTPE"

  function Power(exp: nat): (p: nat)
    ensures p > 0
  {
    if exp == 0 then 1 else UNIT * Power(exp - 1)
  }

  lemma MultipleIsLarge(d: nat, x: int)
    ensures x >= 1 ==> d * x >= d
    ensures x <= -1 ==> d * x + d <= 0
  {
    if x >= 1 {
      assert d * x == d + d * (x - 1);
    } else if x <= -1 {
      assert d * x + d + d * (-x - 1) == 0;
    }
  }

  lemma Quotient(n: nat, d: nat, q: nat, r: nat)
    requires d > 0 && n == d * q + r && r < d
    ensures n / d == q
  {
    var k := n / d;
    assert n == d * k + n % d;
    assert d * (k - q) == d * k - d * q;
    MultipleIsLarge(d, k - q);
  }

  lemma DivisionSplits(n: nat, d: nat)
    requires d > 0
    ensures n == d * (n / d) + n % d && 0 <= n % d < d
  {
  }

  lemma Regroup(d: nat, k: nat, q2: nat, r2: nat, r: nat)
    ensures d * (k * q2 + r2) + r == (d * k) * q2 + (d * r2 + r)
  {
    assert d * (k * q2 + r2) == d * (k * q2) + d * r2;
    assert d * (k * q2) == (d * k) * q2;
  }

  lemma RemainderFits(d: nat, k: nat, r2: nat, r: nat)
    requires r2 < k && r < d
    ensures d * r2 + r < d * k
  {
    assert d * k == d * (k - 1 - r2) + d * r2 + d;
  }

  /** Dividing twice, rounding down each time, is dividing by the product. */
  lemma FloorTwice(n: nat, d: nat, k: nat)
    requires d > 0 && k > 0
    ensures d * k > 0 && n / d / k == n / (d * k)
  {
    var q, r := n / d, n % d;
    var q2, r2 := q / k, q % k;
    DivisionSplits(n, d);
    DivisionSplits(q, k);
    Regroup(d, k, q2, r2, r);
    RemainderFits(d, k, r2, r);
    Quotient(n, d * k, q2, d * r2 + r);
  }

  lemma FloorAtLeast(n: nat, d: nat, k: nat)
    requires d > 0 && n / d >= k
    ensures n >= d * k
  {
    assert n == d * (n / d) + n % d;
    assert d * (n / d - k) >= 0;
    assert d * (n / d) - d * k == d * (n / d - k);
  }

  lemma FloorLess(n: nat, d: nat, k: nat)
    requires d > 0 && n / d < k
    ensures n < d * k
  {
    DivisionSplits(n, d);
    RemainderFits(d, k, n / d, n % d);
  }

  lemma Powers()
    ensures Power(6) == 0x1000_0000_0000_0000 && Power(7) > MAX_INT64
  {
    assert Power(1) == UNIT && Power(2) == UNIT * UNIT && Power(3) == UNIT * Power(2);
    assert Power(4) == UNIT * Power(3) && Power(5) == UNIT * Power(4);
  }

  lemma {:induction false} PowerGrows(a: nat, b: nat)
    requires a <= b
    ensures Power(a) <= Power(b)
    decreases b
  {
    if a < b {
      PowerGrows(a, b - 1);
    }
  }

  /** For every size that has one, the loop finds the largest unit that is not larger than the size, without
      overflowing and without running out of suffixes. */
  method ChooseUnit(n: int) returns (div: int, exp: nat)
    requires UNIT <= n <= MAX_INT64
    ensures exp < |SUFFIXES| && div == Power(exp + 1) <= 0x1000_0000_0000_0000
    ensures div <= n < div * UNIT
  {
    div, exp := UNIT, 0;
    var v := n / UNIT;
    Powers();
    assert Power(1) == UNIT;
    while v >= UNIT
      invariant div == Power(exp + 1) && exp <= 5
      invariant v == n / div && v >= 1
      decreases v
    {
      FloorAtLeast(n, div, UNIT);
      assert Power(exp + 2) == UNIT * Power(exp + 1) <= n;
      FloorTwice(n, div, UNIT);
      div := div * UNIT;
      exp := exp + 1;
      v := v / UNIT;
    }
    FloorAtLeast(n, div, 1);
    FloorLess(n, div, UNIT);
    PowerGrows(exp + 1, 6);
  }
}
