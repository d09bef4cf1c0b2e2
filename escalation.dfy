/** The arithmetic of stepwise annual tariff escalation. */
module Escalation {
  import opened Rounding

  /** `x` raised to the power `k`. */
  function Pow(x: real, k: nat): real {
    if k == 0 then 1.0 else x * Pow(x, k - 1)
  }

  lemma {:induction false} PowAtLeastOne(x: real, k: nat)
    requires x >= 1.0
    ensures Pow(x, k) >= 1.0
  {
    if k > 0 {
      PowAtLeastOne(x, k - 1);
      ProductAtLeastOne(x, Pow(x, k - 1));
    }
  }

  lemma ProductAtLeastOne(a: real, b: real)
    requires a >= 1.0 && b >= 1.0
    ensures a * b >= b
  {
    assert a * b - b == (a - 1.0) * b;
  }

  /** With a growth factor of at least one, more periods never give a smaller power. */
  lemma {:induction false} PowMonotone(x: real, j: nat, k: nat)
    requires x >= 1.0 && j <= k
    ensures Pow(x, j) <= Pow(x, k)
    decreases k - j
  {
    if j < k {
      PowMonotone(x, j, k - 1);
      PowAtLeastOne(x, k - 1);
      ProductAtLeastOne(x, Pow(x, k - 1));
    }
  }

  /**
   * Python's `int(days / 365.25)`: the whole escalation years in `days`, the quotient
   * truncated toward zero, so that any negative day count gives zero or less.
   */
  function EscalationPeriods(days: int): (k: int)
    ensures days >= 0 ==> 0 <= k && (k as real) <= (days as real) / 365.25 < (k as real) + 1.0
    ensures days < 0 ==> k <= 0 && (k as real) - 1.0 < (days as real) / 365.25 <= (k as real)
  {
    if days >= 0 then (4 * days) / 1461 else -((-4 * days) / 1461)
  }

  /** A day count between `years` and `years + 1` periods of 365.25 days counts exactly `years` periods. */
  lemma EscalationPeriodsWindow(days: int, years: nat)
    requires 1461 * years <= 4 * days < 1461 * (years + 1)
    ensures EscalationPeriods(days) == years
  {
    var r := 4 * days - 1461 * years;
    assert 0 <= r < 1461 && 4 * days == 1461 * years + r;
  }

  lemma EscalationPeriodsMonotone(d1: int, d2: int)
    requires d1 <= d2
    ensures EscalationPeriods(d1) <= EscalationPeriods(d2)
  {
  }

  /** The number of passes of `for _ in range(k)`. */
  function RangeLength(k: int): nat {
    if k > 0 then k else 0
  }

  /** The base rate after `periods` annual escalations at `escalationRate`. */
  function EscalatedRate(baseRate: real, escalationRate: real, periods: nat): real {
    baseRate * Pow(1.0 + escalationRate, periods)
  }

  /** One more period multiplies the escalated rate by one plus the escalation rate. */
  lemma EscalatedRateStep(baseRate: real, escalationRate: real, periods: nat)
    ensures EscalatedRate(baseRate, escalationRate, periods + 1)
      == EscalatedRate(baseRate, escalationRate, periods) * (1.0 + escalationRate)
  {
    var x := 1.0 + escalationRate;
    assert Pow(x, periods + 1) == x * Pow(x, periods);
    assert baseRate * (x * Pow(x, periods)) == (baseRate * Pow(x, periods)) * x;
  }

  /** With a non-negative base and escalation rate, the escalated rate never falls as periods accrue. */
  lemma EscalatedRateMonotone(baseRate: real, escalationRate: real, j: nat, k: nat)
    requires baseRate >= 0.0 && escalationRate >= 0.0 && j <= k
    ensures EscalatedRate(baseRate, escalationRate, j) <= EscalatedRate(baseRate, escalationRate, k)
  {
    PowMonotone(1.0 + escalationRate, j, k);
    ScaleByNonNegative(baseRate, Pow(1.0 + escalationRate, j), Pow(1.0 + escalationRate, k));
  }
}
