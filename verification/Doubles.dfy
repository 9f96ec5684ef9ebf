/**
 Rounding of non-negative reals to doubles: 53 significant bits, to the nearest, ties to
 the even neighbour. No double of these services comes near underflow or overflow.
 */
module Doubles {

  function Pow2(n: int): (p: real)
    ensures p > 0.0
    decreases if n < 0 then -n else n
  {
    if n == 0 then 1.0 else if n > 0 then 2.0 * Pow2(n - 1) else Pow2(n + 1) / 2.0
  }

  const LEAST_EXPONENT := -64
  const GREATEST_EXPONENT := 63

  /** The magnitudes that are rounded here; the bounds only keep the search for an exponent finite. */
  predicate Normal(x: real) {
    Pow2(LEAST_EXPONENT) <= x < Pow2(GREATEST_EXPONENT + 1)
  }

  function ExponentFrom(x: real, e: int): int
    decreases e - LEAST_EXPONENT
  {
    if e <= LEAST_EXPONENT || Pow2(e) <= x then e else ExponentFrom(x, e - 1)
  }

  /** The largest e with 2 ** e <= x. */
  function Exponent(x: real): int {
    ExponentFrom(x, GREATEST_EXPONENT)
  }

  /** The distance between neighbouring doubles around x. */
  function Unit(x: real): (u: real)
    ensures u > 0.0
  {
    Pow2(Exponent(x) - 52)
  }

  /** The nearest integer, a half going to the even one. */
  function RoundHalfEven(z: real): int {
    var n := z.Floor;
    var d := z - n as real;
    if d < 0.5 || (d == 0.5 && n % 2 == 0) then n else n + 1
  }

  function InUnits(x: real, u: real): real
    requires u > 0.0
  {
    x / u
  }

  function Times(z: real, u: real): real {
    z * u
  }

  function Scaled(n: int, u: real): real {
    Times(n as real, u)
  }

  function ToDouble(x: real): real {
    if Normal(x) then Scaled(RoundHalfEven(InUnits(x, Unit(x))), Unit(x)) else x
  }

  // ----- powers of two

  lemma NextPower(n: int)
    ensures Pow2(n + 1) == 2.0 * Pow2(n)
  {
  }

  lemma {:induction false} PowersRise(a: int, b: int)
    requires a <= b
    ensures Pow2(a) <= Pow2(b)
    decreases b - a
  {
    if a < b {
      PowersRise(a, b - 1);
      NextPower(b - 1);
    }
  }

  lemma ThirteenDoublings(e: int)
    ensures Pow2(e) == 8192.0 * Pow2(e - 13)
  {
    NextPower(e - 1); NextPower(e - 2); NextPower(e - 3); NextPower(e - 4); NextPower(e - 5);
    NextPower(e - 6); NextPower(e - 7); NextPower(e - 8); NextPower(e - 9); NextPower(e - 10);
    NextPower(e - 11); NextPower(e - 12); NextPower(e - 13);
    hide Pow2;
  }

  // ----- exponents

  lemma {:induction false} ExponentFromIsLast(x: real, e: int)
    requires Pow2(LEAST_EXPONENT) <= x < Pow2(e + 1) && e >= LEAST_EXPONENT
    ensures var k := ExponentFrom(x, e); LEAST_EXPONENT <= k <= e && Pow2(k) <= x < Pow2(k + 1)
    decreases e - LEAST_EXPONENT
  {
    if e > LEAST_EXPONENT && x < Pow2(e) {
      ExponentFromIsLast(x, e - 1);
    }
  }

  lemma ExponentBounds(x: real)
    requires Normal(x)
    ensures LEAST_EXPONENT <= Exponent(x) <= GREATEST_EXPONENT
    ensures Pow2(Exponent(x)) <= x < Pow2(Exponent(x) + 1)
  {
    ExponentFromIsLast(x, GREATEST_EXPONENT);
  }

  lemma ExponentIs(x: real, e: int)
    requires LEAST_EXPONENT <= e <= GREATEST_EXPONENT && Pow2(e) <= x < Pow2(e + 1)
    ensures Normal(x) && Exponent(x) == e
  {
    hide Pow2, Exponent;
    PowersRise(LEAST_EXPONENT, e);
    PowersRise(e + 1, GREATEST_EXPONENT + 1);
    ExponentBounds(x);
    var k := Exponent(x);
    if k < e {
      PowersRise(k + 1, e);
    } else if e < k {
      PowersRise(e + 1, k);
    }
  }

  // ----- rounding

  lemma RoundHalfEvenIsNear(z: real, lo: int, hi: int)
    requires lo as real <= z <= hi as real
    ensures lo <= RoundHalfEven(z) <= hi
    ensures z - 0.5 <= RoundHalfEven(z) as real <= z + 0.5
  {
  }

  lemma RoundHalfEvenMonotone(y: real, z: real)
    requires y <= z
    ensures RoundHalfEven(y) <= RoundHalfEven(z)
  {
  }

  lemma Scale(u: real, y: real, z: real)
    requires u > 0.0
    ensures y <= z ==> y * u <= z * u
    ensures y < z ==> y * u < z * u
  {
  }

  /** Comparing with whole numbers of units. */
  lemma InUnitsBounds(x: real, u: real, lo: int, hi: int)
    requires u > 0.0 && Scaled(lo, u) <= x <= Scaled(hi, u)
    ensures lo as real <= InUnits(x, u) <= hi as real
  {
    var z := x / u;
    assert z * u == x;
    Scale(u, z, lo as real);
    Scale(u, hi as real, z);
  }

  lemma ScaledNear(x: real, u: real, n: int)
    requires u > 0.0 && InUnits(x, u) - 0.5 <= n as real <= InUnits(x, u) + 0.5
    ensures x - 0.5 * u <= Scaled(n, u) <= x + 0.5 * u
  {
    var z := x / u;
    assert z * u == x;
    Scale(u, z - 0.5, n as real);
    Scale(u, n as real, z + 0.5);
    assert (z - 0.5) * u == x - 0.5 * u && (z + 0.5) * u == x + 0.5 * u;
  }

  lemma ScaledOrder(u: real, m: int, n: int)
    requires u > 0.0 && m <= n
    ensures Scaled(m, u) <= Scaled(n, u)
  {
    Scale(u, m as real, n as real);
  }

  lemma InUnitsOrder(x: real, y: real, u: real)
    requires u > 0.0 && x <= y
    ensures InUnits(x, u) <= InUnits(y, u)
  {
  }

  /** 2 ** 52 units of the binade of 2 ** e make 2 ** e. */
  lemma UnitsOfBinade(e: int)
    ensures Pow2(e) == Scaled(4503599627370496, Pow2(e - 52)) && Pow2(e + 1) == Scaled(9007199254740992, Pow2(e - 52))
  {
    hide Pow2;
    ThirteenDoublings(e);
    ThirteenDoublings(e - 13);
    ThirteenDoublings(e - 26);
    ThirteenDoublings(e - 39);
    NextPower(e);
  }

  /** A double stays within its binade and errs by at most half a unit. */
  lemma RoundedUnits(x: real)
    requires Normal(x)
    ensures x - 0.5 * Unit(x) <= ToDouble(x) <= x + 0.5 * Unit(x)
    ensures Pow2(Exponent(x)) <= ToDouble(x) <= Pow2(Exponent(x) + 1)
  {
    ExponentBounds(x);
    UnitsOfBinade(Exponent(x));
    var u := Unit(x);
    hide Pow2, Exponent, RoundHalfEven, InUnits, Scaled;
    InUnitsBounds(x, u, 4503599627370496, 9007199254740992);
    var n := RoundHalfEven(InUnits(x, u));
    RoundHalfEvenIsNear(InUnits(x, u), 4503599627370496, 9007199254740992);
    ScaledNear(x, u, n);
    ScaledOrder(u, 4503599627370496, n);
    ScaledOrder(u, n, 9007199254740992);
  }

  /** The relative error of a double is at most 2 ** -53. */
  lemma ToDoubleError(x: real)
    requires x >= 0.0
    ensures x - x / 9007199254740992.0 <= ToDouble(x) <= x + x / 9007199254740992.0
  {
    if Normal(x) {
      RoundedUnits(x);
      ExponentBounds(x);
      UnitsOfBinade(Exponent(x));
      hide Pow2, Exponent, ToDouble, Normal;
    }
  }

  /** Rounding keeps the order. */
  lemma ToDoubleMonotone(x: real, y: real)
    requires 0.0 <= x <= y
    ensures ToDouble(x) <= ToDouble(y)
  {
    if Normal(x) {
      ExponentBounds(x);
      RoundedUnits(x);
      if Normal(y) {
        NormalMonotone(x, y);
      } else {
        PowersRise(Exponent(x) + 1, GREATEST_EXPONENT + 1);
      }
    } else if Normal(y) {
      ExponentBounds(y);
      RoundedUnits(y);
      PowersRise(LEAST_EXPONENT, Exponent(y));
    }
    hide Pow2, Exponent;
  }

  lemma NormalMonotone(x: real, y: real)
    requires Normal(x) && Normal(y) && x <= y
    ensures ToDouble(x) <= ToDouble(y)
  {
    hide Pow2, Exponent, RoundHalfEven, InUnits, Scaled;
    ExponentBounds(x);
    ExponentBounds(y);
    RoundedUnits(x);
    RoundedUnits(y);
    if Exponent(x) == Exponent(y) {
      var u := Unit(x);
      InUnitsOrder(x, y, u);
      RoundHalfEvenMonotone(InUnits(x, u), InUnits(y, u));
      ScaledOrder(u, RoundHalfEven(InUnits(x, u)), RoundHalfEven(InUnits(y, u)));
    } else if Exponent(x) < Exponent(y) {
      PowersRise(Exponent(x) + 1, Exponent(y));
    } else {
      PowersRise(Exponent(y) + 1, Exponent(x));
    }
  }

  /** How a number of the binade of 2 ** e, given in its units, is rounded. */
  lemma RoundedIn(x: real, e: int, z: real)
    requires LEAST_EXPONENT <= e <= GREATEST_EXPONENT && Pow2(e) <= x < Pow2(e + 1) && x == Times(z, Pow2(e - 52))
    ensures ToDouble(x) == Scaled(RoundHalfEven(z), Pow2(e - 52))
  {
    ExponentIs(x, e);
    var u := Pow2(e - 52);
    hide Pow2, Exponent, RoundHalfEven, Times, InUnits;
    WholeQuotient(z, u);
  }

  lemma WholeQuotient(z: real, u: real)
    requires u > 0.0
    ensures InUnits(Times(z, u), u) == z
  {
  }
}
