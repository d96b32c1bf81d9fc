// Facts about products, floors and remainders that the other modules use.
module Arithmetic {

  function Least(x: nat, y: nat): nat {
    if x <= y then x else y
  }

  lemma FloorBounds(a: nat, num: nat, den: nat)
    requires den > 0
    ensures (a * num / den) * den <= a * num < (a * num / den + 1) * den
  {
    var x := a * num;
    assert x == den * (x / den) + x % den;
  }

  // The quotient, without division.
  lemma FloorIff(n: nat, d: nat, x: nat)
    requires d > 0
    ensures x == n / d <==> x * d <= n < (x + 1) * d
  {
    FloorBounds(n, 1, d);
    if x * d <= n < (x + 1) * d {
      LessFactor(n / d, x + 1, d);
      LessFactor(x, n / d + 1, d);
    }
  }

  lemma CancelFactor(x: int, y: int, k: int)
    requires k > 0 && x * k <= y * k
    ensures x <= y
  {
  }

  lemma LessFactor(x: int, y: int, k: int)
    requires k > 0 && x * k < y * k
    ensures x < y
  {
  }

  lemma MulMonotone(x: nat, y: nat, k: nat)
    requires x <= y
    ensures x * k <= y * k
  {
  }

  lemma MulAtLeast(p: nat, d: int)
    ensures (d >= 1 ==> p * d >= p) && (d <= -1 ==> p * d <= -(p as int))
  {
  }

  lemma Distribute(x: nat, y: nat, n: nat)
    ensures (x + y) * n == x * n + y * n
  {
  }

  // Quotient and remainder are unique.
  lemma QuotientIs(n: int, q: int, r: nat, p: nat)
    requires p > 0 && r < p && n == p * q + r
    ensures n / p == q && n % p == r
  {
    var d := n / p - q;
    assert n == p * (n / p) + n % p;
    assert p * d == r - n % p;
    MulAtLeast(p, d);
  }

  lemma ModMultiple(q: nat, y: nat, n: nat)
    requires n > 0
    ensures (n * q + y) % n == y % n
  {
    assert y == n * (y / n) + y % n;
    assert n * q + y == n * (q + y / n) + y % n;
    QuotientIs(n * q + y, q + y / n, y % n, n);
  }

  lemma DivExact(q: nat, n: nat)
    requires n > 0
    ensures q * n / n == q
  {
    QuotientIs(q * n, q, 0, n);
  }
}
