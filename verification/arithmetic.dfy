/** Products, quotients and remainders, one step at a time. */
module Arithmetic {
  lemma MulAssociative(a: int, b: int, c: int)
    ensures a * b * c == a * (b * c)
  {
  }

  lemma MulAdd(a: int, b: int, c: int)
    ensures (a + b) * c == a * c + b * c
  {
  }

  lemma MulLe(a: int, b: int, c: int)
    requires a <= b && c >= 0
    ensures a * c <= b * c
  {
  }

  lemma MulPositive(a: nat, b: nat)
    requires a > 0 && b > 0
    ensures a * b > 0
  {
  }

  lemma Quotient(n: int, b: nat)
    requires b > 0
    ensures n / b * b <= n < (n / b + 1) * b == n / b * b + b
    ensures n >= b ==> n / b > 0
  {
    var q, r := n / b, n % b;
    assert n == q * b + r;
    assert (q + 1) * b == q * b + b;
  }

  lemma QuotientIs(n: int, b: nat, q: int)
    requires b > 0 && q * b <= n < q * b + b
    ensures n / b == q
  {
    Quotient(n, b);
    var r := n / b;
    assert (q + 1) * b == q * b + b;
    if r + 1 <= q { MulLe(r + 1, q, b); }
    if q + 1 <= r { MulLe(q + 1, r, b); }
  }

  lemma ModIs(n: int, b: nat, q: int, r: nat)
    requires b > 0 && n == q * b + r && r < b
    ensures n % b == r
  {
    QuotientIs(n, b, q);
    assert n == n / b * b + n % b;
  }
}
