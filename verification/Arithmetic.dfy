/** Facts about multiplication and division that several components need. */
module Arithmetic {
  lemma {:induction false} ProductBound(x: int, y: int, m: int, n: int)
    requires 0 <= x <= m && 0 <= y <= n
    ensures 0 <= x * y <= m * n
  {
  }

  lemma {:induction false} QuotientUnique(n: int, c: nat, q: int, r: int)
    requires 0 <= r < c && n == c * q + r
    ensures n / c == q && n % c == r
  {
    var k := n / c - q;
    assert c * k == r - n % c by {
      assert c * k == c * (n / c) - c * q;
    }
    if k >= 1 { ProductBound(c, 1, c, k); }
    if k <= -1 { ProductBound(c, 1, c, -k); }
  }

  function Pow2(n: nat): (r: nat)
    ensures r > 0
  {
    if n == 0 then 1 else 2 * Pow2(n - 1)
  }

  lemma {:induction false} ProductTwice(a: int, b: int)
    ensures 2 * (a * b) == 2 * a * b
  {
  }

  lemma {:induction false} Pow2Add(m: nat, n: nat)
    ensures Pow2(m + n) == Pow2(m) * Pow2(n)
  {
    if m > 0 {
      Pow2Add(m - 1, n);
      ProductTwice(Pow2(m - 1), Pow2(n));
    }
  }

  lemma {:induction false} Pow2Monotone(m: nat, n: nat)
    requires m <= n
    ensures Pow2(m) <= Pow2(n)
    decreases n - m
  {
    if m < n { Pow2Monotone(m, n - 1); }
  }
}
