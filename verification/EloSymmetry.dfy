/**
 Why AGAINST may be given the negative of FOR's rounded delta: with 10 ** x and integer
 ratings no unrounded gain is ever halfway between two integers.
 */
module EloSymmetry {
  import opened Elo

  ghost predicate SumToProduct(pow: Power, x: real, y: real) {
    pow(x + y) == pow(x) * pow(y)
  }

  /** Of all positive monotone functions only 10 ** x has these two properties. */
  ghost predicate PowersOfTen(pow: Power) {
    pow(1.0) == 10.0 && forall x, y :: SumToProduct(pow, x, y)
  }

  lemma PowerOfZero(pow: Power)
    requires PowersOfTen(pow)
    ensures pow(0.0) == 1.0
  {
    assert SumToProduct(pow, 0.0, 1.0) && 0.0 + 1.0 == 1.0;
  }

  lemma OppositePowers(pow: Power, x: real)
    requires PowersOfTen(pow)
    ensures pow(x) * pow(-x) == 1.0
  {
    PowerOfZero(pow);
    assert SumToProduct(pow, x, -x) && x + -x == 0.0;
  }

  lemma Same(x: real, y: real, k: real)
    requires k > 0.0 && x * k == y * k
    ensures x == y
  {
  }

  /** What both players are expected to score adds up to one point. */
  lemma ExpectationsSumToOne(pow: Power, me: int, opponent: int)
    requires PowersOfTen(pow)
    ensures ExpectedScore(pow, me, opponent) + ExpectedScore(pow, opponent, me) == 1.0
  {
    var x := (opponent - me) as real / 400.0;
    assert (me - opponent) as real / 400.0 == -x;
    OppositePowers(pow, x);
    SharesOfOne(pow(x), pow(-x));
  }

  lemma SharesOfOne(p: real, q: real)
    requires p > 0.0 && q > 0.0 && p * q == 1.0
    ensures 1.0 / (1.0 + p) + 1.0 / (1.0 + q) == 1.0
  {
    var a, b := 1.0 / (1.0 + p), 1.0 / (1.0 + q);
    assert a * (1.0 + p) == 1.0 && b * (1.0 + q) == 1.0;
    assert (p * a) * (1.0 + q) == p * a + (p * q) * a;
    Same(p * a, b, 1.0 + q);
  }

  /** Equal players: a win is worth 16, a loss costs 16, a draw changes nothing. */
  lemma EqualPlayers(pow: Power, elo: int)
    requires PowersOfTen(pow)
    ensures EloDelta(pow, elo, elo, WIN) == 16
    ensures EloDelta(pow, elo, elo, Result.DRAW) == 0
    ensures EloDelta(pow, elo, elo, LOSS) == -16
  {
    ExpectationsSumToOne(pow, elo, elo);
    assert ExpectedScore(pow, elo, elo) == 0.5;
  }

  lemma OddsOf(pow: Power, me: int, opponent: int)
    ensures var e := ExpectedScore(pow, me, opponent); e * pow((opponent - me) as real / 400.0) == 1.0 - e
  {
    var p := pow((opponent - me) as real / 400.0);
    ShareAndRest(p);
  }

  lemma ShareAndRest(p: real)
    requires p > 0.0
    ensures (1.0 / (1.0 + p)) * p == 1.0 - 1.0 / (1.0 + p)
  {
    var e := 1.0 / (1.0 + p);
    assert e * (1.0 + p) == 1.0;
    assert e * (1.0 + p) == e + e * p;
  }

  /** A lead of 400 points more multiplies the odds by ten. */
  lemma FourHundredPointsAreTenToOne(pow: Power, me: int, opponent: int)
    requires PowersOfTen(pow)
    ensures var e, e' := ExpectedScore(pow, me, opponent), ExpectedScore(pow, me + 400, opponent);
            e' * (1.0 - e) == 10.0 * (e * (1.0 - e'))
  {
    var x := (opponent - (me + 400)) as real / 400.0;
    assert (opponent - me) as real / 400.0 == x + 1.0;
    assert SumToProduct(pow, x, 1.0);
    OddsOf(pow, me, opponent);
    OddsOf(pow, me + 400, opponent);
    TenTimes(ExpectedScore(pow, me, opponent), ExpectedScore(pow, me + 400, opponent), pow(x));
  }

  lemma TenTimes(e: real, e': real, p: real)
    requires e * (p * 10.0) == 1.0 - e && e' * p == 1.0 - e'
    ensures e' * (1.0 - e) == 10.0 * (e * (1.0 - e'))
  {
    assert e' * (e * (p * 10.0)) == 10.0 * (e * (e' * p));
  }

  /** So a favourite by 400 points wins 3 or loses 29, and the other player wins 29 or loses 3. */
  lemma FavouriteBy400(pow: Power, elo: int)
    requires PowersOfTen(pow)
    ensures EloDelta(pow, elo + 400, elo, WIN) == 3 && EloDelta(pow, elo + 400, elo, LOSS) == -29
    ensures EloDelta(pow, elo, elo + 400, WIN) == 29 && EloDelta(pow, elo, elo + 400, LOSS) == -3
  {
    ExpectationsSumToOne(pow, elo, elo);
    FourHundredPointsAreTenToOne(pow, elo, elo);
    ExpectationsSumToOne(pow, elo + 400, elo);
    TenElevenths(ExpectedScore(pow, elo + 400, elo));
    hide ExpectedScore;
  }

  lemma TenElevenths(e: real)
    requires e * 0.5 == 10.0 * (0.5 * (1.0 - e))
    ensures e == 10.0 / 11.0
  {
  }

  // ----- integer powers

  function Times(a: int, b: int): int {
    a * b
  }

  function IntPow(b: int, n: nat): int {
    if n == 0 then 1 else Times(IntPow(b, n - 1), b)
  }

  lemma {:induction false} OddPower(b: int, n: nat)
    requires b % 2 == 1
    ensures IntPow(b, n) % 2 == 1
  {
    if n > 0 {
      OddPower(b, n - 1);
      OddProduct(IntPow(b, n - 1), b);
      hide Times;
    }
  }

  lemma OddProduct(a: int, b: int)
    requires a % 2 == 1 && b % 2 == 1
    ensures Times(a, b) % 2 == 1
  {
    var i, j := a / 2, b / 2;
    assert a * b == 2 * (2 * i * j + i + j) + 1;
  }

  function Multiple(x: real, n: nat): real {
    if n == 0 then 0.0 else Multiple(x, n - 1) + x
  }

  lemma {:induction false} MultipleIsProduct(x: real, n: nat)
    ensures Multiple(x, n) == n as real * x
  {
    if n > 0 {
      MultipleIsProduct(x, n - 1);
      assert n as real == (n - 1) as real + 1.0;
      Distribute((n - 1) as real, x);
    }
  }

  lemma Distribute(y: real, x: real)
    ensures (y + 1.0) * x == y * x + x
  {
  }

  /** y is the fraction a / b. */
  ghost predicate IsFraction(y: real, a: int, b: int) {
    y * b as real == a as real
  }

  /** If 10 ** x is the fraction a / b, then 10 ** (x + ... + x) is a ** n / b ** n. */
  lemma {:induction false} PowerOfMultiple(pow: Power, x: real, n: nat, a: int, b: int)
    requires PowersOfTen(pow) && IsFraction(pow(x), a, b)
    ensures IsFraction(pow(Multiple(x, n)), IntPow(a, n), IntPow(b, n))
  {
    hide Times;
    if n == 0 {
      PowerOfZero(pow);
    } else {
      PowerOfMultiple(pow, x, n - 1, a, b);
      assert SumToProduct(pow, Multiple(x, n - 1), x);
      PowerOfSum(pow, Multiple(x, n - 1), IntPow(a, n - 1), IntPow(b, n - 1), x, a, b);
    }
  }

  lemma PowerOfSum(pow: Power, x: real, p: int, q: int, y: real, a: int, b: int)
    requires SumToProduct(pow, x, y) && IsFraction(pow(x), p, q) && IsFraction(pow(y), a, b)
    ensures IsFraction(pow(x + y), Times(p, a), Times(q, b))
  {
    var u, v := pow(x), pow(y);
    assert (u * v) * (q as real * b as real) == (u * q as real) * (v * b as real);
  }

  /** If 10 ** (d / 400) is the fraction a / b, then 10 ** d * b ** 400 is a ** 400. */
  lemma FractionTo400(pow: Power, d: nat, a: int, b: int)
    requires PowersOfTen(pow) && IsFraction(pow(d as real / 400.0), a, b)
    ensures Times(IntPow(10, d), IntPow(b, 400)) == IntPow(a, 400)
  {
    var x := d as real / 400.0;
    PowerOfMultiple(pow, x, 400, a, b);
    MultipleIsProduct(x, 400);
    PowerOfTen(pow, d);
    WholeFraction(IntPow(10, d), IntPow(a, 400), IntPow(b, 400));
    hide *;
  }

  lemma WholeFraction(t: int, a: int, b: int)
    requires IsFraction(t as real, a, b)
    ensures Times(t, b) == a
  {
  }

  /** An odd fraction is never 10 ** (d / 400) for a positive d: its 400th power is odd, a power of ten is not. */
  lemma NoOddFraction(pow: Power, d: int, a: int, b: int)
    requires PowersOfTen(pow) && d > 0 && a % 2 == 1 && b % 2 == 1
    ensures !IsFraction(pow(d as real / 400.0), a, b)
  {
    hide IsFraction, PowersOfTen, Times;
    EvenProduct(IntPow(10, d - 1), IntPow(b, 400));
    OddPower(a, 400);
    if IsFraction(pow(d as real / 400.0), a, b) {
      FractionTo400(pow, d, a, b);
    }
  }

  lemma PowerOfTen(pow: Power, d: nat)
    requires PowersOfTen(pow)
    ensures pow(d as real) == IntPow(10, d) as real
  {
    PowerOfMultiple(pow, 1.0, d, 10, 1);
    MultipleIsProduct(1.0, d);
    OnePower(d);
    hide PowersOfTen, Multiple, IntPow;
  }

  lemma EvenProduct(t: int, q: int)
    ensures Times(Times(t, 10), q) % 2 == 0
  {
    assert (t * 10) * q == 10 * (t * q);
    EvenIfDouble(Times(Times(t, 10), q), 5 * (t * q));
  }

  lemma EvenIfDouble(y: int, z: int)
    requires y == 2 * z
    ensures y % 2 == 0
  {
  }

  lemma {:induction false} OnePower(n: nat)
    ensures IntPow(1, n) == 1
  {
    if n > 0 {
      OnePower(n - 1);
    }
  }

  // ----- rounding

  /** The unrounded gain of the player is a whole number and a half. */
  ghost predicate HalfwayGain(pow: Power, me: int, opponent: int, r: Result) {
    var gain := 32.0 * (ScoreForResult(r) - ExpectedScore(pow, me, opponent));
    gain - gain.Floor as real == 0.5
  }

  /** A halfway gain would make 10 ** ((opponent - me) / 400) an odd number over an odd number. */
  lemma HalfwayIsOddFraction(pow: Power, me: int, opponent: int, r: Result) returns (k: int)
    requires HalfwayGain(pow, me, opponent, r)
    ensures k % 2 == 1
    ensures IsFraction(pow((opponent - me) as real / 400.0), 64 - k, k)
  {
    var e := ExpectedScore(pow, me, opponent);
    var gain := 32.0 * (ScoreForResult(r) - e);
    var full := match r case WIN => 32 case DRAW => 16 case LOSS => 0;
    k := 2 * (full - gain.Floor) - 1;
    assert 64.0 * e == k as real;
    var p := pow((opponent - me) as real / 400.0);
    assert e * (1.0 + p) == 1.0;
    assert 64.0 * (e * (1.0 + p)) == (64.0 * e) * (1.0 + p);
  }

  lemma InvertedFraction(p: real, q: real, a: int, b: int)
    requires p * q == 1.0 && IsFraction(p, a, b)
    ensures IsFraction(q, b, a)
  {
    assert q * (p * b as real) == (p * q) * b as real;
  }

  /** With integer ratings an unrounded gain is never a whole number and a half. */
  lemma NeverHalfway(pow: Power, me: int, opponent: int, r: Result)
    requires PowersOfTen(pow)
    ensures !HalfwayGain(pow, me, opponent, r)
  {
    if HalfwayGain(pow, me, opponent, r) {
      var k := HalfwayIsOddFraction(pow, me, opponent, r);
      NoOddPower(pow, opponent - me, 64 - k, k);
    }
  }

  /** Unless both are the same, two odd numbers have no quotient 10 ** (d / 400). */
  lemma NoOddPower(pow: Power, d: int, a: int, b: int)
    requires PowersOfTen(pow) && a % 2 == 1 && b % 2 == 1 && IsFraction(pow(d as real / 400.0), a, b)
    ensures a == b
  {
    var x := d as real / 400.0;
    PowerOfZero(pow);
    OppositePowers(pow, x);
    if d > 0 {
      NoOddFraction(pow, d, a, b);
    } else if d < 0 {
      assert (-d) as real / 400.0 == -x;
      InvertedFraction(pow(x), pow(-x), a, b);
      NoOddFraction(pow, -d, b, a);
    } else {
      assert x == 0.0;
    }
  }

  /** The delta that the formula gives AGAINST for the opposite result is the negative of FOR's, for all ratings. */
  lemma NegatedDeltaIsOwnDelta(pow: Power, me: int, opponent: int, r: Result)
    requires PowersOfTen(pow)
    ensures EloDelta(pow, opponent, me, OppositeResult(r)) == -EloDelta(pow, me, opponent, r)
  {
    ExpectationsSumToOne(pow, me, opponent);
    NeverHalfway(pow, me, opponent, r);
    var gain := 32.0 * (ScoreForResult(r) - ExpectedScore(pow, me, opponent));
    assert ScoreForResult(OppositeResult(r)) == 1.0 - ScoreForResult(r);
    var other := 32.0 * (ScoreForResult(OppositeResult(r)) - ExpectedScore(pow, opponent, me));
    assert other == -gain;
    RoundedOpposites(gain, other);
  }

  lemma RoundedOpposites(x: real, y: real)
    requires y == -x && x - x.Floor as real != 0.5
    ensures (y + 0.5).Floor == -(x + 0.5).Floor
  {
    var n := x.Floor;
    var d := x - n as real;
    FloorIs(x + 0.5, if d < 0.5 then n else n + 1);
    FloorIs(y + 0.5, if d < 0.5 then -n else -n - 1);
  }

  lemma FloorIs(z: real, n: int)
    requires n as real <= z < n as real + 1.0
    ensures z.Floor == n
  {
  }
}
