/** Small laws of real products and quotients, one at a time for the sake of the solver. */
module Reals {

  lemma Regroup(x: real, y: real, z: real)
    ensures (x * y) * z == x * (y * z)
  {
  }

  lemma Commute(x: real, y: real)
    ensures x * y == y * x
  {
  }

  lemma Distribute(x: real, y: real, k: real)
    ensures (x + y) * k == x * k + y * k
  {
  }

  lemma CastProduct(a: int, b: int)
    ensures (a * b) as real == a as real * b as real
  {
  }

  lemma QuotientTimes(a: real, d: real)
    requires d != 0.0
    ensures (a / d) * d == a
  {
  }

  lemma QuotientIs(x: real, a: real, d: real)
    requires d != 0.0 && x * d == a
    ensures x == a / d
  {
  }

  lemma ProductPositive(x: real, y: real)
    requires x > 0.0 && y > 0.0
    ensures x * y > 0.0
  {
  }

  /** Multiplying by a positive number, with products p and q, keeps the order. */
  lemma Compare(x: real, y: real, k: real, p: real, q: real)
    requires k > 0.0 && p == x * k && q == y * k
    ensures x < y <==> p < q
    ensures x == y <==> p == q
  {
    if x < y {
      ProductPositive(y - x, k);
      Distribute(y - x, x, k);
    } else if y < x {
      ProductPositive(x - y, k);
      Distribute(x - y, y, k);
    }
  }

  lemma CrossMultiply(a: real, b: real, c: real, d: real)
    requires b > 0.0 && d > 0.0 && a * d <= c * b
    ensures a / b <= c / d
  {
    var x, y := a / b, c / d;
    QuotientTimes(a, b);
    QuotientTimes(c, d);
    CompareQuotients(a, b, c, d, x, y);
  }

  lemma CompareQuotients(a: real, b: real, c: real, d: real, x: real, y: real)
    requires b > 0.0 && d > 0.0 && x * b == a && y * d == c && a * d <= c * b
    ensures x <= y
  {
    Regroup(x, b, d);
    Regroup(y, d, b);
    Commute(b, d);
    ProductPositive(b, d);
    Compare(y, x, b * d, c * b, a * d);
  }

  /** The same for quotients of integers. */
  lemma CrossMultiplyIntegers(a: int, b: int, c: int, d: int)
    requires b > 0 && d > 0 && a * d <= c * b
    ensures a as real / b as real <= c as real / d as real
  {
    CastProduct(a, d);
    CastProduct(c, b);
    CrossMultiply(a as real, b as real, c as real, d as real);
  }
}
