/** Facts about products, quotients and remainders used across the project. */
module Arith {

  lemma {:induction false} MulMono(a: int, b: int, m: nat)
    requires a <= b
    ensures a * m <= b * m
  {
    assert b * m == a * m + (b - a) * m;
  }

  lemma {:induction false} MulGe(a: nat, m: nat)
    requires m >= 1
    ensures a <= a * m
  {
    MulMono(1, m, a);
  }

  lemma {:induction false} MulCancelLt(a: int, b: int, m: nat)
    requires a * m < b * m
    ensures a < b
  {
    if a >= b { MulMono(b, a, m); }
  }

  /** The quotient is the one multiple that fits. */
  lemma {:induction false} DivIs(c: int, a: int, m: nat)
    requires m >= 1 && a * m <= c < a * m + m
    ensures c / m == a && c % m == c - a * m
  {
    var q := c / m;
    assert c == q * m + c % m;
    assert q * m < (a + 1) * m by { assert (a + 1) * m == a * m + m; }
    MulCancelLt(q, a + 1, m);
    assert a * m < (q + 1) * m by { assert (q + 1) * m == q * m + m; }
    MulCancelLt(a, q + 1, m);
  }

  lemma {:induction false} DivLess(c: int, a: int, m: nat)
    requires m >= 1 && c < a * m
    ensures c / m < a
  {
    assert c == c / m * m + c % m;
    MulCancelLt(c / m, a, m);
  }

  lemma {:induction false} DivAtLeast(c: int, a: int, m: nat)
    requires m >= 1 && a * m <= c
    ensures a <= c / m
  {
    var q := c / m;
    assert c == q * m + c % m;
    assert a * m < (q + 1) * m by { assert (q + 1) * m == q * m + m; }
    MulCancelLt(a, q + 1, m);
  }

  lemma {:induction false} MulAssoc(a: int, b: int, c: int)
    ensures a * b * c == a * (b * c)
  {}

  /** Dividing twice is dividing by the product. */
  lemma {:induction false} DivDiv(x: nat, u: nat, k: nat)
    requires u >= 1 && k >= 1
    ensures k * u >= 1 && x / (k * u) == x / u / k
  {
    MulGe(k, u);
    var a := x / u;
    assert x == a * u + x % u && a == a / k * k + a % k;
    DivTwice(a / k, a % k, x % u, u, k);
  }

  lemma {:induction false} DivTwice(q: int, i: nat, e: nat, u: nat, k: nat)
    requires e < u && i < k
    ensures ((q * k + i) * u + e) / (k * u) == q
  {
    MulMono(0, i, u);
    MulMono(i + 1, k, u);
    assert (i + 1) * u == i * u + u;
    MulAssoc(q, k, u);
    assert (q * k + i) * u == q * k * u + i * u;
    DivIs((q * k + i) * u + e, q, k * u);
  }

  /** The quotient rounded up. */
  function CeilDiv(n: nat, d: nat): nat
    requires d >= 1
  {
    (n + d - 1) / d
  }

  lemma {:induction false} CeilGt(n: nat, d: nat, q: nat)
    requires d >= 1
    ensures CeilDiv(n, d) > q <==> n > q * d
  {
    if n > q * d {
      assert (q + 1) * d == q * d + d;
      DivAtLeast(n + d - 1, q + 1, d);
    } else {
      assert (q + 1) * d == q * d + d;
      DivLess(n + d - 1, q + 1, d);
    }
  }
}
