/** Math.round of an exact quotient: the nearest integer, halves going up. */
module Rounding {

  /** floor(num / den + 1/2). Dafny's division by a positive number is floor division. */
  function RoundHalfUp(num: int, den: int): int
    requires den > 0
  {
    (2 * num + den) / (2 * den)
  }

  /** The rounded value is the only integer r with r - 1/2 <= num/den < r + 1/2. */
  lemma RoundHalfUpMeaning(num: int, den: int, r: int)
    requires den > 0
    ensures r == RoundHalfUp(num, den) <==> 2 * den * r <= 2 * num + den < 2 * den * r + 2 * den
  {
    var q := RoundHalfUp(num, den);
    assert 2 * den * q <= 2 * num + den < 2 * den * q + 2 * den;
    Cancel(2 * den, r, q + 1);
    Cancel(2 * den, q, r + 1);
    assert 2 * den * (q + 1) == 2 * den * q + 2 * den;
    assert 2 * den * (r + 1) == 2 * den * r + 2 * den;
  }

  lemma MulLe(k: int, a: int, b: int)
    requires k >= 0 && a <= b
    ensures k * a <= k * b
  {
  }

  lemma Cancel(k: int, a: int, b: int)
    requires k > 0
    ensures k * a < k * b ==> a < b
  {
    if b <= a {
      MulLe(k, b, a);
    }
  }
}
