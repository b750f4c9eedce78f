/** The arithmetic of a counter that wraps around at an arbitrary width. */
module WrappingCounters {
  type Positive = n: nat | n > 0 witness 1

  lemma AtLeastOnce(d: nat, m: nat)
    requires d >= 1
    ensures d * m >= m
  {
    assert d * m == (d - 1) * m + m;
  }

  lemma MultiplesAreApart(p: nat, q: nat, m: nat)
    ensures p < q ==> p * m + m <= q * m
  {
    if p < q {
      AtLeastOnce(q - p, m);
      assert (q - p) * m == q * m - p * m;
    }
  }

  /** Quotient and remainder are unique. */
  lemma RemainderIsUnique(a: nat, m: Positive, q: nat, r: nat)
    requires a == q * m + r && r < m
    ensures a % m == r
  {
    var d := a / m;
    assert a == d * m + a % m;
    MultiplesAreApart(d, q, m);
    MultiplesAreApart(q, d, m);
  }

  /** Incrementing the wrapped counter is wrapping the incremented one. */
  lemma NextOfModulo(a: nat, m: Positive)
    ensures (a % m + 1) % m == (a + 1) % m
  {
    var q, r := a / m, a % m;
    assert a == q * m + r;
    if r + 1 == m {
      assert (q + 1) * m == q * m + m;
      RemainderIsUnique(a + 1, m, q + 1, 0);
      RemainderIsUnique(m, m, 1, 0);
    } else {
      RemainderIsUnique(a + 1, m, q, r + 1);
      RemainderIsUnique(r + 1, m, 0, r + 1);
    }
  }

  /** Two counts agree modulo `m` exactly if their distance is a multiple of `m`. */
  lemma SameRemainder(a: nat, b: nat, m: Positive)
    requires a <= b
    ensures a % m == b % m <==> (b - a) % m == 0
  {
    var k := b - a;
    var qa, ra, qk, rk := a / m, a % m, k / m, k % m;
    assert a == qa * m + ra && k == qk * m + rk;
    assert (qa + qk) * m == qa * m + qk * m;
    if ra + rk < m {
      RemainderIsUnique(b, m, qa + qk, ra + rk);
    } else {
      assert (qa + qk + 1) * m == (qa + qk) * m + m;
      RemainderIsUnique(b, m, qa + qk + 1, ra + rk - m);
    }
  }
}
