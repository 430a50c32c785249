/** Small facts about products and Euclidean division that the solver needs spelled out. */
module Arithmetic {

  lemma MulAtLeast(x: nat, y: nat)
    requires y > 0
    ensures x <= x * y
  {
  }

  lemma MulTen(v: nat, p: nat)
    ensures v * (10 * p) == 10 * (v * p)
  {
  }

  lemma Distribute(d: int, x: int, y: int)
    ensures d * (x + y) == d * x + d * y
    ensures d * (x - y) == d * x - d * y
  {
  }

  lemma Associate(a: int, b: int, c: int)
    ensures (a * b) * c == a * (b * c)
  {
  }

  lemma MulMonotone(d: nat, x: int, y: int)
    requires x <= y
    ensures d * x <= d * y
  {
  }

  lemma DivUnique(n: nat, d: nat, q: nat, r: nat)
    requires r < d && n == d * q + r
    ensures n / d == q && n % d == r
  {
    var q' := n / d;
    assert n == d * q' + n % d;
    if q < q' {
      MulMonotone(d, q + 1, q');
      Distribute(d, q, 1);
    } else if q' < q {
      MulMonotone(d, q' + 1, q);
      Distribute(d, q', 1);
    }
  }

  /** Two successive divisions with remainder are one division by the product. */
  lemma TwoDivisions(n: nat, a: nat, b: nat, q: nat, r: nat, q2: nat, r2: nat)
    requires n == a * q + r && r < a
    requires q == b * q2 + r2 && r2 < b
    ensures n == (a * b) * q2 + (a * r2 + r)
    ensures 0 <= a * r2 + r < a * b
  {
    Distribute(a, b * q2, r2);
    Associate(a, b, q2);
    MulMonotone(a, r2 + 1, b);
    Distribute(a, r2, 1);
  }

  lemma DivDiv(n: nat, a: nat, b: nat)
    requires a > 0 && b > 0
    ensures a * b > 0
    ensures n / a / b == n / (a * b)
    ensures n % (a * b) == a * (n / a % b) + n % a
  {
    var q := n / a;
    TwoDivisions(n, a, b, q, n % a, q / b, q % b);
    DivUnique(n, a * b, q / b, a * (q % b) + n % a);
  }
}
