/**
 The percentage of votes, as computed in doubles and as exact half-up rounding would have
 it, and exactly where the two differ.
 */
module Percentages {
  import opened Reals
  import opened Rounding
  import opened Doubles
  import opened Ties

  /** The two counts of a total, and a counter in a row, are non-negative 32-bit integers. */
  const COUNT_LIMIT := 0x1_0000_0000

  predicate InRange(score: int) {
    0 <= score <= 100
  }

  /** Half-up rounding of the exact quotient. */
  function ExactPercentage(votes: nat, totalVotes: nat): int {
    if totalVotes == 0 then 0 else RoundHalfUp(100 * votes, totalVotes)
  }

  /** Math.round((votes / totalVotes) * 100): both results are rounded to doubles. */
  function PercentageScore(votes: nat, totalVotes: nat): int {
    if totalVotes == 0 then 0 else (Hundredfold(votes as real / totalVotes as real) + 0.5).Floor
  }

  // ----- range and order

  lemma HundredfoldError(share: real)
    requires 0.0 <= share <= 1.0
    ensures 100.0 * share - 0.000000000001 <= Hundredfold(share) <= 100.0 * share + 0.000000000001
  {
    ToDoubleError(share);
    ToDoubleError(ToDouble(share) * 100.0);
    hide ToDouble;
  }

  lemma ShareAtMostOne(votes: nat, totalVotes: nat)
    requires votes <= totalVotes && totalVotes > 0
    ensures 0.0 <= votes as real / totalVotes as real <= 1.0
  {
    CrossMultiplyIntegers(votes, totalVotes, 1, 1);
    CrossMultiplyIntegers(0, 1, votes, totalVotes);
  }

  lemma PercentageInRange(votes: nat, totalVotes: nat)
    requires votes <= totalVotes
    ensures InRange(PercentageScore(votes, totalVotes))
  {
    hide Hundredfold;
    if totalVotes > 0 {
      ShareAtMostOne(votes, totalVotes);
      HundredfoldError(votes as real / totalVotes as real);
    }
  }

  /** A larger share never has the lower percentage. */
  lemma PercentageMonotone(votes: nat, total: nat, votes': nat, total': nat)
    requires total > 0 && total' > 0 && votes * total' <= votes' * total
    ensures PercentageScore(votes, total) <= PercentageScore(votes', total')
  {
    CrossMultiplyIntegers(votes, total, votes', total');
    var q, q' := votes as real / total as real, votes' as real / total' as real;
    assert q >= 0.0;
    HundredfoldMonotone(q, q');
    hide Hundredfold;
  }

  lemma HundredfoldMonotone(q: real, q': real)
    requires 0.0 <= q <= q'
    ensures Hundredfold(q) <= Hundredfold(q')
  {
    hide ToDouble;
    ToDoubleMonotone(q, q');
    ToDoubleError(q);
    ToDoubleMonotone(ToDouble(q) * 100.0, ToDouble(q') * 100.0);
  }

  // ----- half-point ties

  /** A share is a half-point tie when its exact percentage ends in one half. */
  predicate HalfPoint(votes: nat, totalVotes: nat)
    requires totalVotes > 0
  {
    2 * ((100 * votes) % totalVotes) == totalVotes
  }

  /** A tie is the share m / 200 for an odd m, and is rounded up to (m + 1) / 2 when it is exact. */
  lemma TieIsOddOver200(votes: nat, totalVotes: nat) returns (m: nat)
    requires votes <= totalVotes && totalVotes > 0 && HalfPoint(votes, totalVotes)
    ensures m % 2 == 1 && 0 < m < 200 && 200 * votes == m * totalVotes
    ensures ExactPercentage(votes, totalVotes) == (m + 1) / 2
  {
    var t := totalVotes;
    var k, r := (100 * votes) / t, (100 * votes) % t;
    assert 100 * votes == t * k + r;
    RoundAt(t, k, r);
    m := 2 * k + 1;
    assert m * t == 2 * (t * k) + t;
    if m >= 200 {
      MulLe(t, 100, k);
    }
  }

  lemma RoundAt(t: int, k: int, r: int)
    requires 0 <= r < t
    ensures RoundHalfUp(t * k + r, t) == if 2 * r >= t then k + 1 else k
  {
    var q := if 2 * r >= t then k + 1 else k;
    assert 2 * t * (k + 1) == 2 * (t * k) + 2 * t;
    assert 2 * t * k == 2 * (t * k);
    RoundHalfUpMeaning(t * k + r, t, q);
  }

  lemma RemainderAt(t: int, k: int, r: int)
    requires 0 <= r < t
    ensures (t * k + r) % t == r
  {
    var q := (t * k + r) / t;
    var s := (t * k + r) % t;
    assert t * k + r == t * q + s;
    if q < k { assert t * (q + 1) <= t * k by { MulLe(t, q + 1, k); } }
    if k < q { assert t * (k + 1) <= t * q by { MulLe(t, k + 1, q); } }
  }

  /** The four shares whose tie the double arithmetic rounds down. */
  predicate RoundedDown(votes: nat, totalVotes: nat) {
    200 * votes in {29 * totalVotes, 57 * totalVotes, 113 * totalVotes, 115 * totalVotes}
  }

  // ----- shares off the ties

  lemma QuotientOrder(a: real, b: real, t: real)
    requires a <= b && t > 0.0
    ensures a / t <= b / t
  {
  }

  /** Where the exact share lies around the point at which its rounded value begins. */
  lemma ShareAboveHalf(votes: nat, totalVotes: nat)
    requires 0 < totalVotes < COUNT_LIMIT
    ensures var share, r := 100.0 * (votes as real / totalVotes as real), ExactPercentage(votes, totalVotes) as real;
            && share <= r + 0.5 - 0.0000000001
            && (if HalfPoint(votes, totalVotes) then share == r - 0.5 else share >= r - 0.5 + 0.0000000001)
  {
    var r := ExactPercentage(votes, totalVotes);
    RoundHalfUpMeaning(100 * votes, totalVotes, r);
    var above := 200 * votes + totalVotes - 2 * totalVotes * r;
    HalfPointIsBoundary(votes, totalVotes);
    ShareFromBoundary(votes as real, totalVotes as real, r as real, above as real);
    ShareOfOne(above as real, totalVotes as real);
  }

  lemma HalfPointIsBoundary(votes: nat, totalVotes: nat)
    requires totalVotes > 0
    ensures HalfPoint(votes, totalVotes)
            <==> 200 * votes + totalVotes == 2 * totalVotes * ExactPercentage(votes, totalVotes)
  {
    var t := totalVotes;
    var k, m := (100 * votes) / t, (100 * votes) % t;
    assert 100 * votes == t * k + m;
    RoundAt(t, k, m);
    assert 2 * t * (k + 1) == 2 * (t * k) + 2 * t;
    assert 2 * t * k == 2 * (t * k);
  }

  lemma ShareFromBoundary(v: real, t: real, r: real, above: real)
    requires t > 0.0 && above == 200.0 * v + t - 2.0 * t * r
    ensures 100.0 * (v / t) == r - 0.5 + 0.5 * (above / t)
  {
    var q := v / t;
    var d := above / t;
    assert q * t == v && d * t == above;
    assert t * (200.0 * q + 1.0 - 2.0 * r) == 200.0 * (q * t) + t - 2.0 * t * r;
    assert t * d == d * t;
    Cancels(t, 200.0 * q + 1.0 - 2.0 * r, d);
  }

  lemma Cancels(t: real, a: real, b: real)
    requires t > 0.0 && t * a == t * b
    ensures a == b
  {
  }

  lemma ShareOfOne(above: real, t: real)
    requires 0.0 < t <= 4294967296.0 && 0.0 <= above <= 2.0 * t - 1.0 && (above == 0.0 || above >= 1.0)
    ensures above / t <= 2.0 - 0.0000000002
    ensures above == 0.0 ==> above / t == 0.0
    ensures above >= 1.0 ==> above / t >= 0.0000000002
  {
    var u := 1.0 / t;
    assert u * t == 1.0;
    assert u >= 0.0000000002 by {
      assert 4294967296.0 * u >= t * u;
    }
    QuotientOrder(above, 2.0 * t - 1.0, t);
    assert (2.0 * t - 1.0) / t == 2.0 - u;
    if above >= 1.0 {
      QuotientOrder(1.0, above, t);
    }
  }

  // ----- where the two percentages differ

  lemma OffTiesExact(votes: nat, totalVotes: nat)
    requires votes <= totalVotes && 0 < totalVotes < COUNT_LIMIT && !HalfPoint(votes, totalVotes)
    ensures PercentageScore(votes, totalVotes) == ExactPercentage(votes, totalVotes)
  {
    hide Hundredfold, ExactPercentage, HalfPoint;
    ShareAtMostOne(votes, totalVotes);
    HundredfoldError(votes as real / totalVotes as real);
    ShareAboveHalf(votes, totalVotes);
  }

  lemma SameShare(votes: nat, totalVotes: nat, m: nat)
    requires totalVotes > 0 && 200 * votes == m * totalVotes
    ensures votes as real / totalVotes as real == m as real / 200.0
  {
    CrossMultiplyIntegers(votes, totalVotes, m, 200);
    CrossMultiplyIntegers(m, 200, votes, totalVotes);
  }

  lemma DownIsOver200(votes: nat, totalVotes: nat, m: int)
    requires totalVotes > 0 && 200 * votes == m * totalVotes
    ensures RoundedDown(votes, totalVotes) <==> DownOver200(m)
  {
    SameMultiple(totalVotes, m, 29);
    SameMultiple(totalVotes, m, 57);
    SameMultiple(totalVotes, m, 113);
    SameMultiple(totalVotes, m, 115);
  }

  lemma SameMultiple(t: int, m: int, n: int)
    requires t > 0
    ensures m * t == n * t <==> m == n
  {
    if m < n {
      MulLe(t, m + 1, n);
    } else if n < m {
      MulLe(t, n + 1, m);
    }
  }

  /** Each of the four shares is a tie. */
  lemma DownIsHalfPoint(votes: nat, totalVotes: nat)
    requires votes <= totalVotes && totalVotes > 0 && RoundedDown(votes, totalVotes)
    ensures HalfPoint(votes, totalVotes)
  {
    var t := totalVotes;
    var n := 200 * votes;
    var k := if n == 29 * t then 14 else if n == 57 * t then 28 else if n == 113 * t then 56 else 57;
    assert 2 * (100 * votes) == 2 * (t * k) + t;
    RemainderAt(t, k, t / 2);
  }

  /**
   The percentage that the services compute is the exact half-up percentage if and only if the
   share is none of 29/200, 57/200, 113/200 and 115/200; for these it is one lower.
   */
  lemma PercentageIsExactIff(votes: nat, totalVotes: nat)
    requires votes <= totalVotes && 0 < totalVotes < COUNT_LIMIT
    ensures PercentageScore(votes, totalVotes) == ExactPercentage(votes, totalVotes)
            <==> !RoundedDown(votes, totalVotes)
    ensures RoundedDown(votes, totalVotes)
            ==> PercentageScore(votes, totalVotes) == ExactPercentage(votes, totalVotes) - 1
  {
    if HalfPoint(votes, totalVotes) {
      var m := TieIsOddOver200(votes, totalVotes);
      SameShare(votes, totalVotes, m);
      TieIsComputed(m);
      DownIsOver200(votes, totalVotes, m);
      hide Hundredfold, ExactPercentage, HalfPoint, RoundedDown;
    } else {
      OffTiesExact(votes, totalVotes);
      if RoundedDown(votes, totalVotes) {
        DownIsHalfPoint(votes, totalVotes);
      }
    }
  }

  /** The smallest of them: 57 votes in 200 are 28 percent, where half-up rounding of 28.5 gives 29. */
  lemma FiftySevenOfTwoHundred()
    ensures PercentageScore(57, 200) == 28 && ExactPercentage(57, 200) == 29
  {
    PercentageIsExactIff(57, 200);
    hide PercentageScore;
  }

  /** With at least one vote the exact percentages sum to 100, or to 101 exactly when both are half-point ties. */
  lemma ExactPercentagesSum(forVotes: nat, againstVotes: nat)
    requires forVotes + againstVotes > 0
    ensures var total := forVotes + againstVotes;
            var sum := ExactPercentage(forVotes, total) + ExactPercentage(againstVotes, total);
            && (sum == 100 || sum == 101)
            && (sum == 101 <==> HalfPoint(forVotes, total) && HalfPoint(againstVotes, total))
            && (HalfPoint(forVotes, total) <==> HalfPoint(againstVotes, total))
  {
    var t := forVotes + againstVotes;
    var k, r := (100 * forVotes) / t, (100 * forVotes) % t;
    assert 100 * forVotes == t * k + r;
    RoundAt(t, k, r);
    RemainderAt(t, k, r);
    OtherShare(t, k, r, 100 * againstVotes);
    hide RoundHalfUp;
  }

  /** The other share of a total that splits into t * k + r and the rest of t * 100. */
  lemma OtherShare(t: int, k: int, r: int, rest: int)
    requires 0 <= r < t && (t * k + r) + rest == t * 100
    ensures RoundHalfUp(rest, t) == if 2 * r > t then 99 - k else 100 - k
    ensures rest % t == if r == 0 then 0 else t - r
  {
    assert t * (100 - k) == t * 100 - t * k;
    if r == 0 {
      RoundAt(t, 100 - k, 0);
      RemainderAt(t, 100 - k, 0);
    } else {
      assert t * (99 - k) == t * (100 - k) - t;
      RoundAt(t, 99 - k, t - r);
      RemainderAt(t, 99 - k, t - r);
    }
  }

  /**
   With at least one vote the two computed percentages sum to 100, or to 101 exactly when both
   shares are ties and neither is one of the four.
   */
  lemma PercentagesSum(forVotes: nat, againstVotes: nat)
    requires 0 < forVotes + againstVotes < COUNT_LIMIT
    ensures var total := forVotes + againstVotes;
            var sum := PercentageScore(forVotes, total) + PercentageScore(againstVotes, total);
            && (sum == 100 || sum == 101)
            && (sum == 101 <==> HalfPoint(forVotes, total)
                                && !RoundedDown(forVotes, total) && !RoundedDown(againstVotes, total))
  {
    var total := forVotes + againstVotes;
    PercentageIsExactIff(forVotes, total);
    PercentageIsExactIff(againstVotes, total);
    ExactPercentagesSum(forVotes, againstVotes);
    assert !(RoundedDown(forVotes, total) && RoundedDown(againstVotes, total));
    if RoundedDown(forVotes, total) {
      DownIsHalfPoint(forVotes, total);
    } else if RoundedDown(againstVotes, total) {
      DownIsHalfPoint(againstVotes, total);
    }
    hide PercentageScore, ExactPercentage, HalfPoint, RoundedDown;
  }
}
