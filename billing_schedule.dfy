/**
 * The next-billing-date rule of `update_ppa_billing`, as written and as evidently intended,
 * and the billing update that uses the intended rule.
 */
module BillingSchedule {
  import opened Wrappers
  import opened Calendar
  import opened PpaModel
  import PpaCreation

  /**
   * What a billing update stores as the next billing date: a date, nothing (a cycle with
   * no branch), or the `TypeError` raised when the base date it adds days to is `None`.
   */
  datatype NextBilling = Scheduled(date: DateTime) | Unscheduled | BaseDateMissing

  /**
   * The rule as written: the PPA's last billing date as loaded (before this update), plus
   * 32 days for a monthly cycle or 92 for a quarterly one, moved back to the first of its month.
   */
  function NextBillingAsWritten(cycle: string, lastBillingDate: Option<DateTime>): (r: NextBilling)
    ensures r.BaseDateMissing? <==> lastBillingDate.None? && (cycle == Monthly || cycle == Quarterly)
    ensures r.Unscheduled? <==> cycle != Monthly && cycle != Quarterly
    ensures r.Scheduled? ==> r.date.day == 1 && lastBillingDate.Some?
    ensures r.Scheduled? ==>
      Ordinal(lastBillingDate.value) < Ordinal(r.date) <= Ordinal(lastBillingDate.value) + (if cycle == Monthly then 32 else 92)
  {
    if cycle != Monthly && cycle != Quarterly then Unscheduled
    else match lastBillingDate
      case None => BaseDateMissing
      case Some(last) =>
        var shift := if cycle == Monthly then 32 else 92;
        AddDaysOrdinal(last, shift);
        Scheduled(FirstOfMonth(AddDays(last, shift)))
  }

  /** Calendar months in each billing cycle; none for a cycle the source does not know. */
  function MonthsInCycle(cycle: string): Option<nat> {
    if cycle == Monthly then Some(1)
    else if cycle == Quarterly then Some(3)
    else if cycle == Annually then Some(12)
    else None
  }

  /**
   * The rule as evidently intended: the first of the month one, three or twelve calendar
   * months after the billing that is being recorded.
   */
  function NextBillingDate(cycle: string, billedAt: DateTime): (r: NextBilling)
    ensures r.Scheduled? <==> MonthsInCycle(cycle).Some?
    ensures !r.BaseDateMissing?
    ensures r.Scheduled? ==> r.date.day == 1 && r.date.usec == billedAt.usec
    ensures r.Scheduled? ==> MonthIndex(r.date) == MonthIndex(billedAt) + MonthsInCycle(cycle).value
    ensures r.Scheduled? ==> Ordinal(billedAt) < Ordinal(r.date)
  {
    match MonthsInCycle(cycle)
    case None => Unscheduled
    case Some(months) =>
      FirstOfMonthAfterIsLater(billedAt, months);
      Scheduled(FirstOfMonthAfter(billedAt, months))
  }

  /**
   * `update_ppa_billing`, with the intended rule: adds the amount to the billed total,
   * records `now` as the last billing date and returns the next billing date, which stands
   * for the `next_billing_date` field the update writes to the stored record.
   */
  method UpdatePpaBilling(p: Ppa, amount: real, now: DateTime) returns (next: NextBilling)
    modifies p`totalBilled, p`lastBillingDate
    ensures p.totalBilled == old(p.totalBilled) + amount
    ensures p.lastBillingDate == Some(now)
    ensures next == NextBillingDate(p.billingTerms.billingCycle, now)
    ensures !p.ShouldGenerateInvoice(now)
    ensures amount != 0.0 && old(p.LedgerBalanced()) ==> !p.LedgerBalanced()
  {
    p.totalBilled := p.totalBilled + amount;
    p.lastBillingDate := Some(now);
    next := NextBillingDate(p.billingTerms.billingCycle, now);
  }

  /**
   * `update_ppa_billing` as written: the next billing date is computed from the last billing
   * date as loaded. When that is missing for a monthly or quarterly PPA the `TypeError` is
   * raised before the store is written, so nothing changes and the PPA still has no last
   * billing date the next time: every later billing update of it fails the same way.
   */
  method UpdatePpaBillingAsWritten(p: Ppa, amount: real, now: DateTime) returns (next: NextBilling)
    modifies p`totalBilled, p`lastBillingDate
    ensures next == NextBillingAsWritten(p.billingTerms.billingCycle, old(p.lastBillingDate))
    ensures next.BaseDateMissing? ==> p.totalBilled == old(p.totalBilled) && p.lastBillingDate == old(p.lastBillingDate)
    ensures !next.BaseDateMissing? ==> p.totalBilled == old(p.totalBilled) + amount && p.lastBillingDate == Some(now)
    ensures old(p.lastBillingDate).None? && (p.billingTerms.billingCycle == Monthly || p.billingTerms.billingCycle == Quarterly) ==>
      next == BaseDateMissing && p.lastBillingDate.None? && p.totalBilled == old(p.totalBilled)
  {
    next := NextBillingAsWritten(p.billingTerms.billingCycle, p.lastBillingDate);
    if !next.BaseDateMissing? {
      p.totalBilled := p.totalBilled + amount;
      p.lastBillingDate := Some(now);
    }
  }

  /** Adding at least the days left in a month passes through the first of the next month. */
  lemma AddDaysAcrossMonth(d: DateTime, n: nat)
    requires n >= DaysInMonth(d.year, d.month) - d.day + 1
    ensures AddDays(d, n) == AddDays(FirstOfMonthAfter(d, 1), n - (DaysInMonth(d.year, d.month) - d.day + 1))
  {
    var k := DaysInMonth(d.year, d.month) - d.day + 1;
    AddDaysSplit(d, k, n - k);
    AddDaysToNextMonth(d);
  }

  /** The month after `d`, as a (year, month) pair. */
  lemma NextMonth(d: DateTime)
    ensures var f := FirstOfMonthAfter(d, 1);
      if d.month == 12 then f.year == d.year + 1 && f.month == 1 else f.year == d.year && f.month == d.month + 1
  {
    var index := MonthIndex(d) + 1;
    if d.month < 12 {
      assert index == d.year * 12 + d.month;
    } else {
      assert index == (d.year + 1) * 12;
    }
  }

  /**
   * Moved back to the first of its month, `n` days after `d` that pass the end of its month
   * give the first of the next month while the days beyond fit in that month, and the first
   * of the month after otherwise.
   */
  lemma FirstOfMonthAfterDays(d: DateTime, n: nat)
    requires DaysInMonth(d.year, d.month) - d.day + 1 <= n
    requires var f1 := FirstOfMonthAfter(d, 1);
      n < DaysInMonth(d.year, d.month) - d.day + 1 + DaysInMonth(f1.year, f1.month) + 28
    ensures var f1 := FirstOfMonthAfter(d, 1);
      FirstOfMonth(AddDays(d, n)) ==
        if n - (DaysInMonth(d.year, d.month) - d.day + 1) < DaysInMonth(f1.year, f1.month) then f1
        else FirstOfMonthAfter(d, 2)
  {
    var f1 := FirstOfMonthAfter(d, 1);
    var beyond := n - (DaysInMonth(d.year, d.month) - d.day + 1);
    AddDaysAcrossMonth(d, n);
    if beyond < DaysInMonth(f1.year, f1.month) {
      AddDaysWithinMonth(f1, beyond);
    } else {
      AddDaysThroughMonth(f1, beyond);
      FirstOfMonthAfterCompose(d, 1, 1);
    }
  }

  /**
   * Exactly when the as-written monthly rule gives the intended date: from day `day` of a month
   * of `L1` days followed by a month of `L2` days, 32 days stay in the next month if and only if
   * `day <= L1 + L2 - 32`; past that the rule skips to the first of the month after.
   */
  lemma MonthlyAsWrittenExact(last: DateTime)
    ensures var f1 := FirstOfMonthAfter(last, 1);
      var agrees := last.day <= DaysInMonth(last.year, last.month) + DaysInMonth(f1.year, f1.month) - 32;
      NextBillingAsWritten(Monthly, Some(last)) == if agrees then NextBillingDate(Monthly, last) else Scheduled(FirstOfMonthAfter(last, 2))
    ensures var f1 := FirstOfMonthAfter(last, 1);
      NextBillingAsWritten(Monthly, Some(last)) == NextBillingDate(Monthly, last) <==>
        last.day <= DaysInMonth(last.year, last.month) + DaysInMonth(f1.year, f1.month) - 32
  {
    FirstOfMonthAfterDays(last, 32);
  }

  /** For instance, a monthly PPA last billed on 31 January 2025 is next billed on 1 March 2025, not 1 February. */
  lemma MonthlyFromJanuary31SkipsFebruary()
    ensures NextBillingAsWritten(Monthly, Some(Civil(2025, 1, 31, 0))) == Scheduled(Civil(2025, 3, 1, 0))
  {
    var jan31: DateTime := Civil(2025, 1, 31, 0);
    NextMonth(jan31);
    MonthlyAsWrittenExact(jan31);
    assert FirstOfMonthAfter(jan31, 2) == Civil(2025, 3, 1, 0);
  }

  /** The skip is not confined to month ends: last billed on 28 January 2025, the next billing is 1 March 2025. */
  lemma MonthlyFromJanuary28SkipsFebruary()
    ensures NextBillingAsWritten(Monthly, Some(Civil(2025, 1, 28, 0))) == Scheduled(Civil(2025, 3, 1, 0))
  {
    var jan28: DateTime := Civil(2025, 1, 28, 0);
    NextMonth(jan28);
    MonthlyAsWrittenExact(jan28);
    assert FirstOfMonthAfter(jan28, 2) == Civil(2025, 3, 1, 0);
  }

  /**
   * The as-written rule reads the last billing date from before the update, which a new
   * PPA does not have: its first monthly or quarterly billing update fails.
   */
  lemma FirstBillingHasNoBaseDate(p: Ppa, newId: string, customerId: string, specs: SystemSpecifications,
                                  terms: BillingTerms, start: DateTime, end: DateTime, now: DateTime)
    requires PpaCreation.IsInitialState(p, newId, customerId, specs, terms, start, end, now)
    requires terms.billingCycle == Monthly || terms.billingCycle == Quarterly
    ensures NextBillingAsWritten(p.billingTerms.billingCycle, p.lastBillingDate) == BaseDateMissing
  {
  }

  /**
   * Later on, the stale base can schedule the next billing before the billing being recorded:
   * last billed 1 January 2025 and billed again on 15 March 2025, the next date is 1 February 2025.
   */
  lemma StaleBaseSchedulesInThePast()
    ensures NextBillingAsWritten(Monthly, Some(Civil(2025, 1, 1, 0))) == Scheduled(Civil(2025, 2, 1, 0))
    ensures Ordinal(Civil(2025, 2, 1, 0)) < Ordinal(Civil(2025, 3, 15, 0))
  {
    var jan1: DateTime := Civil(2025, 1, 1, 0);
    MonthlyAgreesOnFirstOfMonth(jan1);
    NextMonth(jan1);
  }

  /** The as-written rule has no annual branch: an annual PPA never gets a next billing date. */
  lemma AnnualCycleUnscheduled(lastBillingDate: Option<DateTime>)
    ensures NextBillingAsWritten(Annually, lastBillingDate) == Unscheduled
  {
  }

  /** From the first of a month, its length plus up to 27 days lands in the next month. */
  lemma AddDaysThroughMonth(d: DateTime, n: nat)
    requires d.day == 1 && DaysInMonth(d.year, d.month) <= n < DaysInMonth(d.year, d.month) + 28
    ensures AddDays(d, n) == FirstOfMonthAfter(d, 1).(day := n + 1 - DaysInMonth(d.year, d.month))
  {
    var f1 := FirstOfMonthAfter(d, 1);
    var m0 := DaysInMonth(d.year, d.month);
    AddDaysAcrossMonth(d, n);
    assert AddDays(d, n) == AddDays(f1, n - m0);
    AddDaysWithinMonth(f1, n - m0);
  }

  /** From the first of a month, +32 days moved back to the first is the first of the next month. */
  lemma MonthlyAgreesOnFirstOfMonth(last: DateTime)
    requires last.day == 1
    ensures NextBillingAsWritten(Monthly, Some(last)) == NextBillingDate(Monthly, last)
  {
    AddDaysThroughMonth(last, 32);
  }

  /** Days in the three calendar months starting with the month of `d`. */
  function QuarterLength(d: DateTime): int {
    var f1 := FirstOfMonthAfter(d, 1);
    var f2 := FirstOfMonthAfter(f1, 1);
    DaysInMonth(d.year, d.month) + DaysInMonth(f1.year, f1.month) + DaysInMonth(f2.year, f2.month)
  }

  /** Any three consecutive months hold between 89 and 92 days. */
  lemma QuarterLengthBounds(d: DateTime)
    ensures 89 <= QuarterLength(d) <= 92
  {
    NextMonth(d);
    NextMonth(FirstOfMonthAfter(d, 1));
  }

  /** From the first of a month, two months' length plus up to 27 days lands in the month two months on. */
  lemma AddDaysThroughTwoMonths(d: DateTime, n: nat)
    requires d.day == 1
    requires var f1 := FirstOfMonthAfter(d, 1);
      var two := DaysInMonth(d.year, d.month) + DaysInMonth(f1.year, f1.month);
      two <= n < two + 28
    ensures var f1 := FirstOfMonthAfter(d, 1);
      AddDays(d, n) == FirstOfMonthAfter(d, 2).(day := n + 1 - DaysInMonth(d.year, d.month) - DaysInMonth(f1.year, f1.month))
  {
    var f1 := FirstOfMonthAfter(d, 1);
    var m0 := DaysInMonth(d.year, d.month);
    AddDaysAcrossMonth(d, n);
    assert AddDays(d, n) == AddDays(f1, n - m0);
    AddDaysThroughMonth(f1, n - m0);
    FirstOfMonthAfterCompose(d, 1, 1);
  }

  /** From the first of a month, a quarter's length plus up to 27 days lands in the month three months on. */
  lemma AddDaysThroughQuarter(d: DateTime, n: nat)
    requires d.day == 1 && QuarterLength(d) <= n < QuarterLength(d) + 28
    ensures AddDays(d, n) == FirstOfMonthAfter(d, 3).(day := n + 1 - QuarterLength(d))
  {
    var f1 := FirstOfMonthAfter(d, 1);
    var m0 := DaysInMonth(d.year, d.month);
    AddDaysAcrossMonth(d, n);
    assert AddDays(d, n) == AddDays(f1, n - m0);
    AddDaysThroughTwoMonths(f1, n - m0);
    FirstOfMonthAfterCompose(d, 1, 2);
  }

  /** From the first of a month, +92 days moved back to the first is the first of the month three months on. */
  lemma QuarterlyAgreesOnFirstOfMonth(last: DateTime)
    requires last.day == 1
    ensures NextBillingAsWritten(Quarterly, Some(last)) == NextBillingDate(Quarterly, last)
  {
    QuarterLengthBounds(last);
    AddDaysThroughQuarter(last, 92);
  }

  /** At least the days left in the quarter starting with `d`'s month pass through the first of the month three on. */
  lemma AddDaysAcrossQuarter(d: DateTime, n: nat)
    requires n >= QuarterLength(d) - d.day + 1
    ensures AddDays(d, n) == AddDays(FirstOfMonthAfter(d, 3), n - (QuarterLength(d) - d.day + 1))
  {
    var f1 := FirstOfMonthAfter(d, 1);
    var f2 := FirstOfMonthAfter(f1, 1);
    var rest := n - (DaysInMonth(d.year, d.month) - d.day + 1);
    AddDaysAcrossMonth(d, n);
    assert AddDays(d, n) == AddDays(f1, rest);
    AddDaysAcrossMonth(f1, rest);
    assert AddDays(f1, rest) == AddDays(f2, rest - DaysInMonth(f1.year, f1.month));
    AddDaysAcrossMonth(f2, rest - DaysInMonth(f1.year, f1.month));
    FirstOfMonthAfterCompose(d, 1, 1);
    FirstOfMonthAfterCompose(d, 2, 1);
  }

  /**
   * Moved back to the first of its month, `n` days after `d` that pass the end of its quarter
   * give the first of the month three on while the days beyond fit in that month, and the
   * first of the month four on otherwise.
   */
  lemma FirstOfMonthAfterQuarterDays(d: DateTime, n: nat)
    requires QuarterLength(d) - d.day + 1 <= n
    requires var f3 := FirstOfMonthAfter(d, 3);
      n < QuarterLength(d) - d.day + 1 + DaysInMonth(f3.year, f3.month) + 28
    ensures var f3 := FirstOfMonthAfter(d, 3);
      FirstOfMonth(AddDays(d, n)) ==
        if n - (QuarterLength(d) - d.day + 1) < DaysInMonth(f3.year, f3.month) then f3
        else FirstOfMonthAfter(d, 4)
  {
    var f3 := FirstOfMonthAfter(d, 3);
    var beyond := n - (QuarterLength(d) - d.day + 1);
    AddDaysAcrossQuarter(d, n);
    if beyond < DaysInMonth(f3.year, f3.month) {
      AddDaysWithinMonth(f3, beyond);
    } else {
      AddDaysThroughMonth(f3, beyond);
      FirstOfMonthAfterCompose(d, 3, 1);
    }
  }

  /**
   * Exactly when the as-written quarterly rule gives the intended date: from day `day` of a
   * quarter of `Q` days followed by a month of `L` days, 92 days stay in that month if and
   * only if `day <= Q + L - 92`; past that the rule skips to the first of the month four on.
   */
  lemma QuarterlyAsWrittenExact(last: DateTime)
    ensures var f3 := FirstOfMonthAfter(last, 3);
      var agrees := last.day <= QuarterLength(last) + DaysInMonth(f3.year, f3.month) - 92;
      NextBillingAsWritten(Quarterly, Some(last)) == if agrees then NextBillingDate(Quarterly, last) else Scheduled(FirstOfMonthAfter(last, 4))
    ensures var f3 := FirstOfMonthAfter(last, 3);
      NextBillingAsWritten(Quarterly, Some(last)) == NextBillingDate(Quarterly, last) <==>
        last.day <= QuarterLength(last) + DaysInMonth(f3.year, f3.month) - 92
  {
    QuarterLengthBounds(last);
    FirstOfMonthAfterQuarterDays(last, 92);
  }

  /** For instance, a quarterly PPA last billed on 31 January 2025 is next billed on 1 May 2025, not 1 April. */
  lemma QuarterlyFromJanuary31SkipsApril()
    ensures NextBillingAsWritten(Quarterly, Some(Civil(2025, 1, 31, 0))) == Scheduled(Civil(2025, 5, 1, 0))
    ensures NextBillingDate(Quarterly, Civil(2025, 1, 31, 0)) == Scheduled(Civil(2025, 4, 1, 0))
  {
    var jan31: DateTime := Civil(2025, 1, 31, 0);
    NextMonth(jan31);
    NextMonth(FirstOfMonthAfter(jan31, 1));
    NextMonth(FirstOfMonthAfter(jan31, 2));
    FirstOfMonthAfterCompose(jan31, 1, 1);
    FirstOfMonthAfterCompose(jan31, 2, 1);
    QuarterlyAsWrittenExact(jan31);
    assert FirstOfMonthAfter(jan31, 4) == Civil(2025, 5, 1, 0);
  }
}
