/**
 The double arithmetic of a percentage whose exact value ends in one half: m / 200 for an
 odd m. Two roundings to doubles, followed in integers, leave only four m rounded down.
 */
module Ties {
  import opened Reals
  import opened Rounding
  import opened Doubles

  /** (share) * 100 for a share that is not yet a double. */
  function Hundredfold(share: real): real {
    ToDouble(ToDouble(share) * 100.0)
  }

  // ----- quotients

  /** The integer nearest to n / d, a half going to the even one. */
  function EvenQuotient(n: int, d: int): int
    requires d > 0
  {
    if 2 * (n % d) < d || (2 * (n % d) == d && (n / d) % 2 == 0) then n / d else n / d + 1
  }

  /** n / d lies between 2 ** 52 and 2 ** 53. */
  predicate InBinade(n: int, d: int) {
    4503599627370496 * d <= n < 9007199254740992 * d
  }

  lemma RoundOfQuotient(n: int, d: int)
    requires d > 0
    ensures RoundHalfEven(n as real / d as real) == EvenQuotient(n, d)
  {
    var q, r := n / d, n % d;
    var z, f := n as real / d as real, r as real / d as real;
    assert n == q * d + r;
    assert z == q as real + f by { SplitQuotient(n, d, q, r); }
    assert 0.0 <= f < 1.0 && (f < 0.5 <==> 2 * r < d) && (f == 0.5 <==> 2 * r == d) by { Half(r, d); }
    assert z.Floor == q;
  }

  lemma SplitQuotient(n: int, d: int, q: int, r: int)
    requires d > 0 && n == q * d + r
    ensures n as real / d as real == q as real + r as real / d as real
  {
    var k, f := d as real, r as real / d as real;
    CastProduct(q, d);
    QuotientTimes(r as real, k);
    Distribute(q as real, f, k);
    QuotientIs(q as real + f, n as real, k);
  }

  lemma Half(r: int, d: int)
    requires 0 <= r < d
    ensures var f := r as real / d as real; 0.0 <= f < 1.0 && (f < 0.5 <==> 2 * r < d) && (f == 0.5 <==> 2 * r == d)
  {
    QuotientTimes(r as real, d as real);
    HalfByProduct(r as real / d as real, r, d);
  }

  lemma HalfByProduct(f: real, r: int, d: int)
    requires 0 <= r < d && f * d as real == r as real
    ensures 0.0 <= f < 1.0 && (f < 0.5 <==> 2 * r < d) && (f == 0.5 <==> 2 * r == d)
  {
    var k := d as real;
    Compare(f, 0.0, k, r as real, 0.0);
    Compare(f, 0.5, k, r as real, 0.5 * k);
    Compare(f, 1.0, k, r as real, k);
  }

  lemma FloorOfQuotient(n: int, c: int)
    requires c > 0
    ensures (n as real / c as real + 0.5).Floor == RoundHalfUp(n, c)
  {
    var r, k := RoundHalfUp(n, c), c as real;
    HalfUpBounds(n, c);
    hide RoundHalfUp;
    QuotientTimes(n as real, k);
    CastProduct(r, c);
    Between(n as real / k, k, r as real, n, r * c, c);
  }

  lemma HalfUpBounds(n: int, c: int)
    requires c > 0
    ensures var p := RoundHalfUp(n, c) * c; 2 * p <= 2 * n + c < 2 * p + 2 * c
  {
    var r := RoundHalfUp(n, c);
    RoundHalfUpMeaning(n, c, r);
    hide RoundHalfUp;
    assert 2 * c * r == 2 * (r * c);
  }

  lemma Between(z: real, c: real, r: real, n: int, p: int, d: int)
    requires c > 0.0 && z * c == n as real && r * c == p as real && c == d as real
    requires 2 * p <= 2 * n + d < 2 * p + 2 * d
    ensures r <= z + 0.5 < r + 1.0
  {
    Distribute(z, 0.5, c);
    Distribute(r, 1.0, c);
    Compare(z + 0.5, r, c, n as real + 0.5 * c, p as real);
    Compare(z + 0.5, r + 1.0, c, n as real + 0.5 * c, p as real + c);
  }

  // ----- the two roundings as integer arithmetic

  /** How m / 200 fares when 2 ** 52 of its units make its binade and a unit is 1 / c, and d units of it one after. */
  function TieScore(m: int, c: int, d: int): int
    requires c > 0 && d > 0
  {
    RoundHalfUp(EvenQuotient(100 * EvenQuotient(m * c, 200), d) * d, c)
  }

  lemma UnitShare(m: int, c: int, u: real)
    requires c > 0 && c as real * u == 1.0
    ensures Times((m * c) as real / 200.0, u) == m as real / 200.0
  {
    CastProduct(m, c);
    Regroup(m as real, c as real, u);
    Hundredths((m * c) as real, u);
  }

  lemma Hundredths(n: real, u: real)
    ensures (n / 200.0) * u == (n * u) / 200.0
  {
  }

  lemma UnitProduct(k: int, d: int, u: real)
    requires d > 0
    ensures Times((100 * k) as real / d as real, d as real * u) == Scaled(k, u) * 100.0
  {
    var z := (100 * k) as real / d as real;
    QuotientTimes((100 * k) as real, d as real);
    Regroup(z, d as real, u);
    assert (100 * k) as real == 100.0 * k as real;
    Regroup(100.0, k as real, u);
    Commute(100.0, k as real * u);
  }

  lemma UnitScore(y: int, d: int, c: int, u: real)
    requires c > 0 && c as real * u == 1.0
    ensures Scaled(y, d as real * u) == (y * d) as real / c as real
  {
    CastProduct(y, d);
    Regroup(y as real, d as real, u);
    var n := (y * d) as real;
    Regroup(n, u, c as real);
    Commute(u, c as real);
    QuotientIs(n * u, n, c as real);
  }

  lemma QuotientInBinade(z: real, n: int, d: int)
    requires d > 0 && InBinade(n, d) && z * d as real == n as real
    ensures 4503599627370496.0 <= z < 9007199254740992.0
  {
    var k := d as real;
    Compare(z, 4503599627370496.0, k, n as real, 4503599627370496.0 * k);
    Compare(z, 9007199254740992.0, k, n as real, 9007199254740992.0 * k);
  }

  lemma BinadeBounds(z: real, e: int)
    requires 4503599627370496.0 <= z < 9007199254740992.0
    ensures Pow2(e) <= Times(z, Pow2(e - 52)) < Pow2(e + 1)
  {
    UnitsOfBinade(e);
    var u := Pow2(e - 52);
    hide Pow2;
    Compare(z, 4503599627370496.0, u, Times(z, u), Pow2(e));
    Compare(z, 9007199254740992.0, u, Times(z, u), Pow2(e + 1));
  }

  lemma UnitLater(e: int, d: int) returns (f: int)
    requires d == 64 || d == 128
    ensures f == (if d == 64 then e + 6 else e + 7) && Pow2(f - 52) == d as real * Pow2(e - 52)
  {
    f := if d == 64 then e + 6 else e + 7;
    NextPower(e - 52); NextPower(e - 51); NextPower(e - 50); NextPower(e - 49);
    NextPower(e - 48); NextPower(e - 47); NextPower(e - 46);
    hide Pow2;
  }

  /** Rounding n / d units of size u. */
  lemma RoundedQuotient(x: real, e: int, n: int, d: int)
    requires LEAST_EXPONENT <= e <= GREATEST_EXPONENT && d > 0 && InBinade(n, d)
    requires x == Times(n as real / d as real, Pow2(e - 52))
    ensures ToDouble(x) == Scaled(EvenQuotient(n, d), Pow2(e - 52))
  {
    hide Pow2, ToDouble, EvenQuotient, InBinade, Times, RoundHalfEven;
    var z := n as real / d as real;
    QuotientTimes(n as real, d as real);
    QuotientInBinade(z, n, d);
    BinadeBounds(z, e);
    RoundedIn(x, e, z);
    RoundOfQuotient(n, d);
  }

  /** The double arithmetic of the share m / 200 is the integer arithmetic of TieScore. */
  lemma TieByIntegers(m: int, e: int, c: int, d: int)
    requires LEAST_EXPONENT <= e <= GREATEST_EXPONENT - 7 && c > 0 && c as real * Pow2(e - 52) == 1.0
    requires d == 64 || d == 128
    requires InBinade(m * c, 200) && InBinade(100 * EvenQuotient(m * c, 200), d)
    ensures (Hundredfold(m as real / 200.0) + 0.5).Floor == TieScore(m, c, d)
  {
    hide Pow2, EvenQuotient, InBinade, ToDouble, Scaled, Times, RoundHalfUp;
    var u, k := Pow2(e - 52), EvenQuotient(m * c, 200);
    UnitShare(m, c, u);
    SecondRounding(k, e, c, d);
    RoundedQuotient(m as real / 200.0, e, m * c, 200);
    assert ToDouble(m as real / 200.0) == Scaled(k, u);
  }

  lemma SecondRounding(k: int, e: int, c: int, d: int)
    requires LEAST_EXPONENT <= e <= GREATEST_EXPONENT - 7 && c > 0 && c as real * Pow2(e - 52) == 1.0
    requires (d == 64 || d == 128) && InBinade(100 * k, d)
    ensures (ToDouble(Scaled(k, Pow2(e - 52)) * 100.0) + 0.5).Floor == RoundHalfUp(EvenQuotient(100 * k, d) * d, c)
  {
    hide *;
    var u := Pow2(e - 52);
    var f := UnitLater(e, d);
    UnitProduct(k, d, u);
    RoundedQuotient(Scaled(k, u) * 100.0, f, 100 * k, d);
    UnitScore(EvenQuotient(100 * k, d), d, c, u);
    FloorOfQuotient(EvenQuotient(100 * k, d) * d, c);
  }

  // ----- the remainders

  /** The units of the binades of 1/2, 1/4, ... 1/256. */
  function UnitsOfOne(e: int): int {
    match -e
    case 1 => 0x20_0000_0000_0000
    case 2 => 0x40_0000_0000_0000
    case 3 => 0x80_0000_0000_0000
    case 4 => 0x100_0000_0000_0000
    case 5 => 0x200_0000_0000_0000
    case 6 => 0x400_0000_0000_0000
    case 7 => 0x800_0000_0000_0000
    case _ => 0x1000_0000_0000_0000
  }

  lemma {:induction false} UnitsOfOneAre(e: int)
    requires -8 <= e < 0
    ensures UnitsOfOne(e) as real * Pow2(e - 52) == 1.0
    decreases -e
  {
    if e == -1 {
      NextPower(-1);
      UnitsOfBinade(-1);
    } else {
      UnitsOfOneAre(e + 1);
      NextPower(e - 52);
      assert UnitsOfOne(e) == 2 * UnitsOfOne(e + 1);
    }
    hide Pow2;
  }

  /** The binade of m / 200. */
  function BinadeOf(m: int): int {
    if m >= 100 then -1 else if m >= 50 then -2 else if m >= 25 then -3 else if m >= 13 then -4
    else if m >= 7 then -5 else if m >= 4 then -6 else if m >= 2 then -7 else -8
  }

  /** Whether m / 2 lies six binades above m / 200, or seven. */
  function Later(m: int): int {
    if 100 <= m < 128 || 50 <= m < 64 || 25 <= m < 32 || 13 <= m < 16 || m == 7 then 64 else 128
  }

  predicate DownOver200(m: int) {
    m == 29 || m == 57 || m == 113 || m == 115
  }

  /** The remainder of n by 200 that is nearest to zero. */
  function NearRemainder(n: int): int {
    if n % 200 <= 100 then n % 200 else n % 200 - 200
  }

  /** What the remainder of the first rounding does to the second one. */
  lemma TieByRemainder(m: int, n: int, c: int, d: int)
    requires m % 2 == 1 && n == m * c && c > 256 && c % 256 == 0 && n % 256 == 0
    requires d == 64 || d == 128
    requires -100 < NearRemainder(n) < 100
    ensures TieScore(m, c, d) == (m + 1) / 2 - (if d == 64 && NearRemainder(n) > 64 then 1 else 0)
    ensures 2 * (100 * EvenQuotient(n, 200)) == n - NearRemainder(n)
  {
    var r := NearRemainder(n);
    FirstQuotient(n);
    var k := EvenQuotient(n, 200);
    SecondQuotient(n, k, r);
    hide EvenQuotient, NearRemainder;
    WholeScore(m, n, c, if d == 128 || -64 <= r <= 64 then 0 else if r > 64 then -64 else 64);
  }

  lemma FirstQuotient(n: int)
    requires -100 < NearRemainder(n) < 100
    ensures 200 * EvenQuotient(n, 200) == n - NearRemainder(n)
  {
  }

  /** A number that lies within half of 64 or of 128 around an even multiple. */
  lemma NearestMultiple(x: int, d: int, y: int)
    requires d == 64 || d == 128
    requires -d < 2 * (x - d * y) < d || (y % 2 == 0 && -d <= 2 * (x - d * y) <= d)
    ensures EvenQuotient(x, d) == y
  {
    if d == 64 {
      assert x / 64 == (if x - 64 * y >= 0 then y else y - 1);
    } else {
      assert x / 128 == (if x - 128 * y >= 0 then y else y - 1);
    }
  }

  /** The second rounding recovers n / 2, unless it works in 64 units and the remainder exceeds 64. */
  lemma SecondQuotient(n: int, k: int, r: int)
    requires n % 256 == 0 && 200 * k == n - r && -100 < r < 100
    ensures EvenQuotient(100 * k, 128) * 128 == n / 2
    ensures EvenQuotient(100 * k, 64) * 64 == n / 2 + (if -64 <= r <= 64 then 0 else if r > 64 then -64 else 64)
  {
    hide EvenQuotient;
    var w := n / 256;
    assert n == 256 * w && 2 * (100 * k) == 256 * w - r;
    NearestMultiple(100 * k, 128, w);
    NearestMultiple(100 * k, 64, 2 * w + (if -64 <= r <= 64 then 0 else if r > 64 then -1 else 1));
  }

  lemma WholeScore(m: int, n: int, c: int, off: int)
    requires m % 2 == 1 && n == m * c && c > 256 && n % 2 == 0 && -64 <= off <= 64
    ensures RoundHalfUp(n / 2 + off, c) == (m + 1) / 2 - (if off < 0 then 1 else 0)
  {
    var h := (m + 1) / 2;
    assert n + c == 2 * c * h by {
      assert (m + 1) * c == m * c + c;
    }
    assert 2 * c * (h - 1) == 2 * c * h - 2 * c;
    RoundHalfUpMeaning(n / 2 + off, c, if off < 0 then h - 1 else h);
  }

  /** The unit of each binade modulo 200. */
  function Step(e: int): int {
    match -e
    case 1 => -8
    case 2 => -16
    case 3 => -32
    case 4 => -64
    case 5 => 72
    case 6 => -56
    case 7 => 88
    case _ => -24
  }

  lemma RemainderOfUnit(m: int, e: int)
    requires -8 <= e < 0
    ensures NearRemainder(m * UnitsOfOne(e)) == NearRemainder(m * Step(e))
  {
    var c, s := UnitsOfOne(e), Step(e);
    var a := (c - s) / 200;
    assert c == 200 * a + s;
    SameRemainder(m, a, s);
  }

  lemma SameRemainder(m: int, a: int, s: int)
    ensures (m * (200 * a + s)) % 200 == (m * s) % 200
  {
    Spread(m, a, s);
    AddMultiple(m * a, m * s);
  }

  lemma Spread(m: int, a: int, s: int)
    ensures m * (200 * a + s) == 200 * (m * a) + m * s
  {
  }

  lemma AddMultiple(p: int, q: int)
    ensures (200 * p + q) % 200 == q % 200
  {
  }

  /** Only four odd m below 200 have both: a remainder above 64 and a second rounding by 64 units. */
  lemma FourRemainders(m: int)
    requires 0 < m < 200 && m % 2 == 1
    ensures var r := NearRemainder(m * Step(BinadeOf(m)));
            && -100 < r < 100
            && (Later(m) == 64 && r > 64 <==> DownOver200(m))
            && (m == 1 ==> r < 0)
  {
  }

  lemma UnitsAreWide(e: int)
    ensures UnitsOfOne(e) > 256 && UnitsOfOne(e) % 256 == 0
  {
  }

  lemma WideProduct(m: int, c: int)
    requires c % 256 == 0
    ensures (m * c) % 256 == 0
  {
    var a := c / 256;
    assert c == 256 * a;
    var p := m * a;
    assert m * c == 256 * p;
  }

  /** Of all odd m below 200 only four are rounded down, by the residue of m times the unit modulo 200. */
  lemma TieScores(m: int)
    requires 0 < m < 200 && m % 2 == 1
    ensures var c, d := UnitsOfOne(BinadeOf(m)), Later(m);
            && InBinade(m * c, 200) && InBinade(100 * EvenQuotient(m * c, 200), d)
            && TieScore(m, c, d) == (m + 1) / 2 - (if DownOver200(m) then 1 else 0)
  {
    var e := BinadeOf(m);
    var c := UnitsOfOne(e);
    UnitsAreWide(e);
    WideProduct(m, c);
    RemainderOfUnit(m, e);
    FourRemainders(m);
    TieByRemainder(m, m * c, c, Later(m));
    BinadesOfTie(m, EvenQuotient(m * c, 200), NearRemainder(m * c));
  }

  lemma BinadesOfTie(m: int, k: int, r: int)
    requires 0 < m < 200 && m % 2 == 1 && 200 * k == m * UnitsOfOne(BinadeOf(m)) - r && -100 < r < 100
    requires m == 1 ==> r < 0
    ensures InBinade(m * UnitsOfOne(BinadeOf(m)), 200) && InBinade(100 * k, Later(m))
  {
  }

  /** What Math.round finally sees of the share m / 200. */
  lemma TieIsComputed(m: int)
    requires 0 < m < 200 && m % 2 == 1
    ensures (Hundredfold(m as real / 200.0) + 0.5).Floor == (m + 1) / 2 - (if DownOver200(m) then 1 else 0)
  {
    var e := BinadeOf(m);
    UnitsOfOneAre(e);
    TieScores(m);
    hide Pow2, Hundredfold, TieScore, InBinade, EvenQuotient, UnitsOfOne;
    TieByIntegers(m, e, UnitsOfOne(e), Later(m));
  }
}
