/**
 * The tiered electricity tariff: the per-unit rate `tot_charge` of app.py and
 * the bill `total_units * tot_charge(total_units)` that the handlers compute.
 * Rates are exact reals; the floating-point rounding of app.py's `tot_charge` is not modelled.
 */
module Tariff {

  /** The five bands of the schedule, cheapest first. */
  datatype Tier = UpTo60 | From61To90 | From91To120 | From121To180 | Over180

  /** Position of a band in the schedule, 0 for the cheapest. */
  function Rank(t: Tier): nat
  {
    match t
    case UpTo60 => 0
    case From61To90 => 1
    case From91To120 => 2
    case From121To180 => 3
    case Over180 => 4
  }

  /** The range of unit counts a band covers, each band stated on its own. */
  predicate InTier(t: Tier, units: int)
  {
    match t
    case UpTo60 => units <= 60
    case From61To90 => 60 < units <= 90
    case From91To120 => 90 < units <= 120
    case From121To180 => 120 < units <= 180
    case Over180 => 180 < units
  }

  /** The band a unit count belongs to, chosen from the ranges in ascending order. */
  function TierOf(units: int): (t: Tier)
    ensures InTier(t, units)
  {
    if units <= 60 then UpTo60
    else if units <= 90 then From61To90
    else if units <= 120 then From91To120
    else if units <= 180 then From121To180
    else Over180
  }

  /**
   * The per-unit rate, written as the descending cascade of app.py's `tot_charge`
   * (`> 180`, then `180 >= u > 120`, then `120 >= u > 90`, then `90 >= u > 60`,
   * else the flat rate). Every division sits under a guard `u > 60`, so the
   * function is total on all integers: Dafny checks each divisor is non-zero.
   */
  function Rate(units: int): (r: real)
    ensures units <= 60 ==> r == 7.85
    ensures units > 60 ==> r > 10.0
  {
    if units > 180 then 89.0 + 2360.0 / (units as real)
    else if 180 >= units > 120 then 32.0 + 480.0 / (units as real)
    else if 120 >= units > 90 then 27.75 + 480.0 / (units as real)
    else if 90 >= units > 60 then 10.0 + 90.0 / (units as real)
    else 7.85
  }

  /** The bill for a number of units: units times the rate of their band. */
  function Charge(units: int): (r: real)
    ensures units <= 60 ==> r == 7.85 * (units as real)
  {
    (units as real) * Rate(units)
  }

  /** The bill of each band as a linear formula in the unit count. */
  function TierCharge(t: Tier, units: int): real
  {
    var u := units as real;
    match t
    case UpTo60 => 7.85 * u
    case From61To90 => 10.0 * u + 90.0
    case From91To120 => 27.75 * u + 480.0
    case From121To180 => 32.0 * u + 480.0
    case Over180 => 89.0 * u + 2360.0
  }

  /** Every unit count lies in exactly one band, and it is the one TierOf names. */
  lemma TierExactlyOne(units: int, t: Tier)
    ensures InTier(t, units) <==> t == TierOf(units)
  {
  }

  /** `b / u` multiplied back by `u` gives `b` when `u` is not zero. */
  lemma CancelQuotient(b: real, u: real)
    requires u != 0.0
    ensures u * (b / u) == b
  {
  }

  /**
   * The bill of each band is linear in the units: 7.85u, 10u + 90, 27.75u + 480,
   * 32u + 480 or 89u + 2360, the last four because `u * (b / u) == b`.
   */
  lemma ChargeByTier(units: int)
    ensures Charge(units) == TierCharge(TierOf(units), units)
  {
    var u := units as real;
    if units > 60 {
      CancelQuotient(90.0, u);
      CancelQuotient(480.0, u);
      CancelQuotient(2360.0, u);
    }
  }

  /** No consumption costs nothing; any positive consumption costs something. */
  lemma ChargeSign(units: int)
    ensures units == 0 ==> Charge(units) == 0.0
    ensures units > 0 ==> Charge(units) > 0.0
  {
    ChargeByTier(units);
  }

  /** Using more units never costs less: the bill is strictly increasing on naturals,
      including across each band boundary, where it jumps up. */
  lemma ChargeIncreasing(u: nat, v: nat)
    requires u < v
    ensures Charge(u) < Charge(v)
  {
    ChargeByTier(u);
    ChargeByTier(v);
  }

  /** Bounds `b / u` with the ends of the range `u` lies in. */
  lemma QuotientBetween(b: real, u: int, lo: int, hi: int)
    requires 0.0 < b && 0 < lo <= u <= hi
    ensures b / (hi as real) <= b / (u as real) <= b / (lo as real)
  {
    var x, l, h := u as real, lo as real, hi as real;
    CancelQuotient(b, x);
    CancelQuotient(b, l);
    CancelQuotient(b, h);
    var q, ql, qh := b / x, b / l, b / h;
    assert h * q >= x * q == b == h * qh;
    assert l * q <= x * q == b == l * ql;
    assert l * (ql - q) >= 0.0 && h * (q - qh) >= 0.0;
  }

  /** A dearer band always has a higher per-unit rate than a cheaper one. */
  lemma RateRisesWithTier(u: int, v: int)
    requires Rank(TierOf(u)) < Rank(TierOf(v))
    ensures Rate(u) < Rate(v)
  {
    RateWithinTier(u);
    RateWithinTier(v);
  }

  /** The range of rates one band can yield. */
  lemma RateWithinTier(units: int)
    ensures TierOf(units) == UpTo60 ==> Rate(units) == 7.85
    ensures TierOf(units) == From61To90 ==> 11.0 <= Rate(units) < 11.5
    ensures TierOf(units) == From91To120 ==> 31.75 <= Rate(units) < 33.1
    ensures TierOf(units) == From121To180 ==> 34.6 < Rate(units) < 36.0
    ensures TierOf(units) == Over180 ==> 89.0 < Rate(units)
  {
    match TierOf(units)
    case UpTo60 =>
    case From61To90 => QuotientBetween(90.0, units, 61, 90);
    case From91To120 => QuotientBetween(480.0, units, 91, 120);
    case From121To180 => QuotientBetween(480.0, units, 121, 180);
    case Over180 => assert 2360.0 / (units as real) > 0.0;
  }

  /** The values at and just above each band boundary. */
  lemma BoundaryRates()
    ensures Rate(180) == 32.0 + 480.0 / 180.0 && Rate(181) == 89.0 + 2360.0 / 181.0
    ensures Rate(120) == 31.75 && Rate(121) == 32.0 + 480.0 / 121.0
    ensures Rate(90) == 11.0 && Rate(91) == 27.75 + 480.0 / 91.0
    ensures Rate(60) == 7.85 && Rate(61) == 10.0 + 90.0 / 61.0
    ensures Rate(0) == 7.85 && Rate(-5) == 7.85
  {
  }
}
