/** Division facts the solver does not find by itself. */
module Arith {
  lemma MulSign(d: int, m: nat)
    ensures 1 <= d ==> d * m >= m
    ensures d <= -1 ==> d * m <= -(m as int)
  {
  }

  /** Quotient and remainder are unique. */
  lemma DivModIs(n: nat, q: nat, r: nat, m: nat)
    requires r < m && n == q * m + r
    ensures n / m == q && n % m == r
  {
    var d := n / m - q;
    assert d * m == r - n % m;
    MulSign(d, m);
  }

  lemma Euclid(n: nat, m: nat)
    requires 1 <= m
    ensures n == n / m * m + n % m && n % m < m
  {
  }

  lemma ModTwice(a: nat, m: nat)
    requires 1 <= m
    ensures a % m % m == a % m
  {
    DivModIs(a % m, 0, a % m, m);
  }

  lemma SuccOf(a: nat, q: nat, r: nat, m: nat)
    requires r < m && a == q * m + r
    ensures (a + 1) % m == if r + 1 < m then r + 1 else 0
    ensures (r + 1) % m == if r + 1 < m then r + 1 else 0
  {
    if r + 1 < m {
      DivModIs(a + 1, q, r + 1, m);
      DivModIs(r + 1, 0, r + 1, m);
    } else {
      assert (q + 1) * m == q * m + m;
      DivModIs(a + 1, q + 1, 0, m);
      DivModIs(r + 1, 1, 0, m);
    }
  }

  /** Stepping a wrapped counter wraps the stepped counter. */
  lemma ModSucc(a: nat, m: nat)
    requires 1 <= m
    ensures (a % m + 1) % m == (a + 1) % m
  {
    Euclid(a, m);
    SuccOf(a, a / m, a % m, m);
  }

  lemma OneLess(n: nat, k: nat, w: nat)
    ensures (n - (k + 1)) * w == (n - k) * w - w
  {
  }

  lemma ProductPositive(n: nat, w: nat)
    ensures 0 <= n * w && (1 <= n ==> w <= n * w)
  {
  }

  /** What is left after k of n. */
  lemma Remaining(n: nat, k: nat, w: nat)
    requires k <= n
    ensures 0 <= (n - k) * w <= n * w && (1 <= k ==> (n - k) * w <= n * w - w)
  {
    assert n * w == (n - k) * w + k * w;
    ProductPositive(k, w);
    ProductPositive(n - k, w);
  }
}
