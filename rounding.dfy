/**
 * Python's `round(x, 2)` and `round(x, 4)`, the two precisions the billing code uses,
 * taken on exact reals: the nearest multiple of 0.01 (or 0.0001), a tie going to the
 * even multiple.
 */
module Rounding {

  /** Decimal places kept by a rounding. */
  datatype Places = Two | Four

  /** Half of the last kept place: the furthest a rounded value may lie from the input. */
  function HalfUnit(places: Places): real {
    match places
    case Two => 0.005
    case Four => 0.00005
  }

  /** The integer nearest to `s`, a tie going to the even one. */
  function NearestInteger(s: real): (n: int)
    ensures -0.5 <= (n as real) - s <= 0.5
  {
    var f := s.Floor;
    var fraction := s - (f as real);
    if fraction < 0.5 then f
    else if fraction > 0.5 then f + 1
    else if f % 2 == 0 then f
    else f + 1
  }

  lemma NearestIntegerMonotone(s: real, t: real)
    requires s <= t
    ensures NearestInteger(s) <= NearestInteger(t)
  {
    assert s.Floor <= t.Floor;
  }

  /** `round(x, 2)` or `round(x, 4)`. */
  function Round(x: real, places: Places): real {
    match places
    case Two => (NearestInteger(x * 100.0) as real) / 100.0
    case Four => (NearestInteger(x * 10000.0) as real) / 10000.0
  }

  /** `x` has no more than the given number of decimal places. */
  predicate HasPlaces(x: real, places: Places) {
    match places
    case Two => ((x * 100.0).Floor as real) == x * 100.0
    case Four => ((x * 10000.0).Floor as real) == x * 10000.0
  }

  /** The rounded value keeps the requested places and lies within half a unit of the last place of `x`. */
  lemma RoundIsNearest(x: real, places: Places)
    ensures HasPlaces(Round(x, places), places)
    ensures -HalfUnit(places) <= Round(x, places) - x <= HalfUnit(places)
  {
  }

  /** Rounding never reverses the order of two numbers. */
  lemma RoundMonotone(x: real, y: real, places: Places)
    requires x <= y
    ensures Round(x, places) <= Round(y, places)
  {
    match places
    case Two => NearestIntegerMonotone(x * 100.0, y * 100.0);
    case Four => NearestIntegerMonotone(x * 10000.0, y * 10000.0);
  }

  /** A number that already has the requested places is left as it is. */
  lemma RoundExact(x: real, places: Places)
    requires HasPlaces(x, places)
    ensures Round(x, places) == x
  {
  }

  /** Scaling by a non-negative factor keeps the order; used for prices and escalated rates. */
  lemma ScaleByNonNegative(c: real, a: real, b: real)
    requires c >= 0.0 && a <= b
    ensures c * a <= c * b
  {
    assert c * b - c * a == c * (b - a);
  }
}
