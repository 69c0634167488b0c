/** Products, floors and powers of two. */
module Arithmetic {

  function Power2(n: nat): (p: nat)
    ensures 0 < p
  {
    if n == 0 then 1 else 2 * Power2(n - 1)
  }

  lemma ProductNonNegative(a: int, b: int)
    requires 0 <= a && 0 <= b
    ensures 0 <= a * b
  {
  }

  lemma ProductMonotone(a: int, b: int, c: int)
    requires 0 <= c && a <= b
    ensures a * c <= b * c
  {
  }

  /** q is at most the floor of n/d exactly when q*d <= n. */
  lemma FloorIff(q: int, n: int, d: int)
    requires 0 < d
    ensures q <= n / d <==> q * d <= n
  {
    var r := n % d;
    assert n == (n / d) * d + r;
    if q <= n / d {
      ProductMonotone(q, n / d, d);
    } else {
      ProductMonotone(n / d + 1, q, d);
      assert (n / d + 1) * d == (n / d) * d + d;
    }
  }

  lemma CancelFactor(a: int, b: int, c: int)
    requires 0 < c && a * c <= b * c
    ensures a <= b
  {
    if b < a {
      ProductMonotone(b + 1, a, c);
    }
  }

  lemma FloorOfProductAtMost(a: nat, n: int, d: int)
    requires 0 < d && 0 <= n <= d
    ensures a * n / d <= a
  {
    ProductMonotone(n, d, a);
    FloorIff(a + 1, a * n, d);
    assert (a + 1) * d == a * d + d;
  }

  /** Comparing floored products by cross multiplication. */
  lemma FloorOfProductMonotone(c: nat, n1: int, d1: int, n2: int, d2: int)
    requires 0 < d1 && 0 < d2 && n2 * d1 <= n1 * d2
    ensures c * n2 / d2 <= c * n1 / d1
  {
    var q := c * n2 / d2;
    FloorIff(q, c * n2, d2);
    calc <= {
      q * d1 * d2;
      { Reassociate(q, d1, d2); }
      q * d2 * d1;
      { ProductMonotone(q * d2, c * n2, d1); }
      c * n2 * d1;
      { Reassociate'(c, n2, d1); ProductMonotone(n2 * d1, n1 * d2, c); Reassociate'(c, n1, d2); }
      c * n1 * d2;
    }
    CancelFactor(q * d1, c * n1, d2);
    FloorIff(q, c * n1, d1);
  }

  lemma Reassociate(a: int, b: int, c: int)
    ensures a * b * c == a * c * b
  {
  }

  lemma Reassociate'(a: int, b: int, c: int)
    ensures a * b * c == b * c * a
  {
  }

  lemma DivModUnique(n: int, d: int, q: int, r: int)
    requires 0 < d && 0 <= r < d && n == q * d + r
    ensures n / d == q && n % d == r
  {
    FloorIff(q, n, d);
    FloorIff(q + 1, n, d);
    assert (q + 1) * d == q * d + d;
    assert n == (n / d) * d + n % d;
  }
}
