/**
 * The PPA (power purchase agreement) record: its activity window, its billing cadence,
 * its escalating tariff and its append-only ledgers of production, billing and payment.
 * The wall clock the source reads is the parameter `now` throughout.
 */
module PpaModel {
  import opened Wrappers
  import opened Calendar
  import opened Rounding
  import opened Escalation

  const Active: string := "active"
  const Draft: string := "draft"

  const Monthly: string := "monthly"
  const Quarterly: string := "quarterly"
  const Annually: string := "annually"

  datatype SystemSpecifications = SystemSpecifications(
    capacityKw: real,
    panelType: string,
    inverterType: string,
    installationDate: DateTime,
    estimatedAnnualProduction: real)

  datatype BillingTerms = BillingTerms(
    tariffRate: real,
    escalationRate: real,
    billingCycle: string,
    paymentTerms: string)

  datatype ProductionRecord = ProductionRecord(kwh: real, date: DateTime, tariffRate: real)
  datatype BillingRecord = BillingRecord(amount: real, date: DateTime, tariffRate: real)
  datatype PaymentRecord = PaymentRecord(amount: real, date: DateTime)

  function KwhOf(r: ProductionRecord): real { r.kwh }
  function BilledOf(r: BillingRecord): real { r.amount }
  function PaidOf(r: PaymentRecord): real { r.amount }

  /** The sum of `amount` over a history. */
  function Total<T>(records: seq<T>, amount: T -> real): real
    decreases |records|
  {
    if records == [] then 0.0 else amount(records[0]) + Total(records[1..], amount)
  }

  lemma {:induction false} TotalAppend<T>(records: seq<T>, r: T, amount: T -> real)
    ensures Total(records + [r], amount) == Total(records, amount) + amount(r)
    decreases |records|
  {
    if records != [] {
      assert (records + [r])[1..] == records[1..] + [r];
      TotalAppend(records[1..], r, amount);
    }
  }

  /** Whole days that must pass between two invoices under each billing cycle; none for an unknown cycle. */
  function CycleThresholdDays(cycle: string): Option<nat> {
    if cycle == Monthly then Some(30)
    else if cycle == Quarterly then Some(90)
    else if cycle == Annually then Some(365)
    else None
  }

  /** The loop of `calculate_current_tariff`: `for _ in range(periods)`, multiplying by one plus the escalation rate. */
  method Escalate(baseRate: real, escalationRate: real, periods: int) returns (rate: real)
    ensures rate == EscalatedRate(baseRate, escalationRate, RangeLength(periods))
  {
    rate := baseRate;
    var i := 0;
    while i < periods
      invariant 0 <= i <= RangeLength(periods)
      invariant rate == EscalatedRate(baseRate, escalationRate, i)
    {
      EscalatedRateStep(baseRate, escalationRate, i);
      rate := rate * (1.0 + escalationRate);
      i := i + 1;
    }
  }

  class Ppa {
    var id: Option<string>
    var customerId: string
    var systemSpecs: SystemSpecifications
    var billingTerms: BillingTerms
    var startDate: DateTime
    var endDate: DateTime
    var status: string
    var createdAt: DateTime
    var signedAt: Option<DateTime>
    var totalEnergyProduced: real
    var totalBilled: real
    var totalPaid: real
    var lastBillingDate: Option<DateTime>
    var contractDurationYears: real
    var currentTariffRate: real
    var nextEscalationDate: DateTime
    var paymentHistory: seq<PaymentRecord>
    var energyProductionHistory: seq<ProductionRecord>
    var billingHistory: seq<BillingRecord>
    var filePath: Option<string>

    /** A record built from the given values, every other field at its declared default. */
    constructor (
      id: Option<string>, customerId: string, systemSpecs: SystemSpecifications, billingTerms: BillingTerms,
      startDate: DateTime, endDate: DateTime, status: string, createdAt: DateTime,
      contractDurationYears: real, currentTariffRate: real, nextEscalationDate: DateTime)
      ensures this.id == id && this.customerId == customerId && this.systemSpecs == systemSpecs
      ensures this.billingTerms == billingTerms && this.startDate == startDate && this.endDate == endDate
      ensures this.status == status && this.createdAt == createdAt && signedAt == None
      ensures totalEnergyProduced == 0.0 && totalBilled == 0.0 && totalPaid == 0.0 && lastBillingDate == None
      ensures this.contractDurationYears == contractDurationYears && this.currentTariffRate == currentTariffRate
      ensures this.nextEscalationDate == nextEscalationDate
      ensures paymentHistory == [] && energyProductionHistory == [] && billingHistory == [] && filePath == None
    {
      this.id := id;
      this.customerId := customerId;
      this.systemSpecs := systemSpecs;
      this.billingTerms := billingTerms;
      this.startDate := startDate;
      this.endDate := endDate;
      this.status := status;
      this.createdAt := createdAt;
      signedAt := None;
      totalEnergyProduced, totalBilled, totalPaid := 0.0, 0.0, 0.0;
      lastBillingDate := None;
      this.contractDurationYears := contractDurationYears;
      this.currentTariffRate := currentTariffRate;
      this.nextEscalationDate := nextEscalationDate;
      paymentHistory, energyProductionHistory, billingHistory := [], [], [];
      filePath := None;
    }

    /**
     * `is_active`: the stored status says active and `now`, the clock, lies in the contract
     * term, both ends included; so an active PPA has a term that does not end before it starts.
     */
    predicate IsActive(now: DateTime)
      reads this
      ensures IsActive(now) ==> status == Active && Instant(startDate) <= Instant(endDate)
    {
      status == Active && Instant(startDate) <= Instant(now) <= Instant(endDate)
    }

    /**
     * `should_generate_invoice`: only an active contract is invoiced; it is invoiced at once
     * if it was never billed, and otherwise once its cycle's day threshold has passed.
     */
    function ShouldGenerateInvoice(now: DateTime): (due: bool)
      reads this
      ensures due ==> IsActive(now)
      ensures due && lastBillingDate.Some? ==> Instant(now) - Instant(lastBillingDate.value) >= 30 * MicrosPerDay
    {
      if !IsActive(now) then false
      else match lastBillingDate
        case None => true
        case Some(last) =>
          if billingTerms.billingCycle == Monthly then WholeDays(now, last) >= 30
          else if billingTerms.billingCycle == Quarterly then WholeDays(now, last) >= 90
          else if billingTerms.billingCycle == Annually then WholeDays(now, last) >= 365
          else false
    }

    /**
     * The value `calculate_current_tariff(date)` returns when the wall clock reads `now`:
     * zero unless the contract is active now, otherwise the base rate escalated once per
     * whole 365.25-day year from the start to `date`, rounded to four places.
     */
    function Tariff(now: DateTime, date: DateTime): (rate: real)
      reads this
      ensures !IsActive(now) ==> rate == 0.0
    {
      if !IsActive(now) then 0.0
      else
        var periods := RangeLength(EscalationPeriods(WholeDays(date, startDate)));
        Round(EscalatedRate(billingTerms.tariffRate, billingTerms.escalationRate, periods), Four)
    }

    /** `calculate_current_tariff`, which escalates the rate in a loop, one pass per year. */
    method CalculateCurrentTariff(now: DateTime, currentDate: DateTime) returns (rate: real)
      ensures rate == Tariff(now, currentDate)
    {
      if !IsActive(now) {
        return 0.0;
      }
      var escalationPeriods := EscalationPeriods(WholeDays(currentDate, startDate));
      var currentRate := Escalate(billingTerms.tariffRate, billingTerms.escalationRate, escalationPeriods);
      rate := Round(currentRate, Four);
    }

    /** `mark_ppa_as_signed`: the record becomes active and is stamped as signed at `now`. */
    method MarkAsSigned(now: DateTime)
      modifies this`status, this`signedAt
      ensures status == Active && signedAt == Some(now)
      ensures IsActive(now) <==> Instant(startDate) <= Instant(now) <= Instant(endDate)
    {
      status := Active;
      signedAt := Some(now);
    }

    /** Each running total is the sum of its history. */
    ghost predicate LedgerBalanced()
      reads this
    {
      && totalEnergyProduced == Total(energyProductionHistory, KwhOf)
      && totalBilled == Total(billingHistory, BilledOf)
      && totalPaid == Total(paymentHistory, PaidOf)
    }

    /** `add_energy_production`: one record, priced at the tariff of the reading date, and the produced total. */
    method AddEnergyProduction(kwh: real, readingDate: DateTime, now: DateTime)
      modifies this`energyProductionHistory, this`totalEnergyProduced
      ensures energyProductionHistory
        == old(energyProductionHistory) + [ProductionRecord(kwh, readingDate, old(Tariff(now, readingDate)))]
      ensures totalEnergyProduced == old(totalEnergyProduced) + kwh
      ensures old(LedgerBalanced()) ==> LedgerBalanced()
    {
      var rate := CalculateCurrentTariff(now, readingDate);
      var entry := ProductionRecord(kwh, readingDate, rate);
      TotalAppend(energyProductionHistory, entry, KwhOf);
      energyProductionHistory := energyProductionHistory + [entry];
      totalEnergyProduced := totalEnergyProduced + kwh;
    }

    /**
     * `add_billing_record`: one record, priced at the tariff of the billing date, the billed
     * total, and the last billing date, so that no invoice is due at that same instant.
     */
    method AddBillingRecord(amount: real, billingDate: DateTime, now: DateTime)
      modifies this`billingHistory, this`totalBilled, this`lastBillingDate
      ensures billingHistory == old(billingHistory) + [BillingRecord(amount, billingDate, old(Tariff(now, billingDate)))]
      ensures totalBilled == old(totalBilled) + amount
      ensures lastBillingDate == Some(billingDate)
      ensures !ShouldGenerateInvoice(billingDate)
      ensures old(LedgerBalanced()) ==> LedgerBalanced()
    {
      var rate := CalculateCurrentTariff(now, billingDate);
      var entry := BillingRecord(amount, billingDate, rate);
      TotalAppend(billingHistory, entry, BilledOf);
      billingHistory := billingHistory + [entry];
      totalBilled := totalBilled + amount;
      lastBillingDate := Some(billingDate);
    }

    /** `add_payment_record`: one record and the paid total. */
    method AddPaymentRecord(amount: real, paymentDate: DateTime)
      modifies this`paymentHistory, this`totalPaid
      ensures paymentHistory == old(paymentHistory) + [PaymentRecord(amount, paymentDate)]
      ensures totalPaid == old(totalPaid) + amount
      ensures old(LedgerBalanced()) ==> LedgerBalanced()
    {
      var entry := PaymentRecord(amount, paymentDate);
      TotalAppend(paymentHistory, entry, PaidOf);
      paymentHistory := paymentHistory + [entry];
      totalPaid := totalPaid + amount;
    }
  }

  /** A contract active at two moments is active at every moment between them. */
  lemma ActiveBetween(p: Ppa, a: DateTime, b: DateTime, c: DateTime)
    requires p.IsActive(a) && p.IsActive(c)
    requires Instant(a) <= Instant(b) <= Instant(c)
    ensures p.IsActive(b)
  {
  }

  /**
   * While the contract is active, an invoice is due exactly when none was ever billed or the
   * billing cycle is known and at least its threshold of whole days has passed since the last one.
   */
  lemma InvoiceDueIff(p: Ppa, now: DateTime)
    requires p.IsActive(now)
    ensures p.ShouldGenerateInvoice(now) <==>
      || p.lastBillingDate.None?
      || (CycleThresholdDays(p.billingTerms.billingCycle).Some? &&
          WholeDays(now, p.lastBillingDate.value) >= CycleThresholdDays(p.billingTerms.billingCycle).value)
  {
  }

  /** Once due, an invoice stays due as time passes, for as long as the contract stays active. */
  lemma InvoiceStaysDue(p: Ppa, now: DateTime, later: DateTime)
    requires p.ShouldGenerateInvoice(now)
    requires Instant(now) <= Instant(later) && p.IsActive(later)
    ensures p.ShouldGenerateInvoice(later)
  {
    if p.lastBillingDate.Some? {
      WholeDaysMonotone(now, later, p.lastBillingDate.value);
    }
  }

  /** A cycle the source does not know never makes an invoice due again once the contract has been billed. */
  lemma UnknownCycleBilledOnce(p: Ppa, now: DateTime)
    requires CycleThresholdDays(p.billingTerms.billingCycle).None? && p.lastBillingDate.Some?
    ensures !p.ShouldGenerateInvoice(now)
  {
  }

  /** Up to 365 whole days after the start (and at any date before it) the tariff is the base rate, rounded. */
  lemma TariffFirstYear(p: Ppa, now: DateTime, date: DateTime)
    requires p.IsActive(now) && WholeDays(date, p.startDate) <= 365
    ensures p.Tariff(now, date) == Round(p.billingTerms.tariffRate, Four)
  {
    var k := EscalationPeriods(WholeDays(date, p.startDate));
    assert k <= 0;
    assert EscalatedRate(p.billingTerms.tariffRate, p.billingTerms.escalationRate, RangeLength(k))
      == p.billingTerms.tariffRate;
  }

  /** Between `years` and `years + 1` periods of 365.25 days after the start, the rate has escalated `years` times. */
  lemma TariffAfterYears(p: Ppa, now: DateTime, date: DateTime, years: nat)
    requires p.IsActive(now)
    requires 1461 * years <= 4 * WholeDays(date, p.startDate) < 1461 * (years + 1)
    ensures p.Tariff(now, date) == Round(EscalatedRate(p.billingTerms.tariffRate, p.billingTerms.escalationRate, years), Four)
  {
    EscalationPeriodsWindow(WholeDays(date, p.startDate), years);
  }

  /** With a non-negative base and escalation rate, the tariff never falls as the date moves on. */
  lemma TariffMonotone(p: Ppa, now: DateTime, d1: DateTime, d2: DateTime)
    requires p.billingTerms.tariffRate >= 0.0 && p.billingTerms.escalationRate >= 0.0
    requires Instant(d1) <= Instant(d2)
    ensures p.Tariff(now, d1) <= p.Tariff(now, d2)
  {
    if p.IsActive(now) {
      WholeDaysMonotone(d1, d2, p.startDate);
      var k1 := EscalationPeriods(WholeDays(d1, p.startDate));
      var k2 := EscalationPeriods(WholeDays(d2, p.startDate));
      EscalationPeriodsMonotone(WholeDays(d1, p.startDate), WholeDays(d2, p.startDate));
      EscalatedRateMonotone(p.billingTerms.tariffRate, p.billingTerms.escalationRate, RangeLength(k1), RangeLength(k2));
      RoundMonotone(
        EscalatedRate(p.billingTerms.tariffRate, p.billingTerms.escalationRate, RangeLength(k1)),
        EscalatedRate(p.billingTerms.tariffRate, p.billingTerms.escalationRate, RangeLength(k2)),
        Four);
    }
  }

  /**
   * On the first anniversary of the start the rate has escalated only when the year just
   * completed held a 29 February (366 days); otherwise the first escalation waits one more day.
   */
  lemma AnniversaryTariff(p: Ppa, now: DateTime)
    requires p.IsActive(now)
    ensures p.Tariff(now, OneYearLater(p.startDate))
      == Round(EscalatedRate(p.billingTerms.tariffRate, p.billingTerms.escalationRate,
                             if SpansLeapDay(p.startDate) then 1 else 0), Four)
    ensures p.Tariff(now, AddDays(OneYearLater(p.startDate), 1))
      == Round(EscalatedRate(p.billingTerms.tariffRate, p.billingTerms.escalationRate, 1), Four)
  {
    var start := p.startDate;
    var anniversary := OneYearLater(start);
    var after := AddDays(anniversary, 1);
    AddDaysOrdinal(anniversary, 1);
    assert Instant(anniversary) - Instant(start) == (Ordinal(anniversary) - Ordinal(start)) * MicrosPerDay;
    assert WholeDays(anniversary, start) == Ordinal(anniversary) - Ordinal(start);
    assert WholeDays(after, start) == Ordinal(anniversary) - Ordinal(start) + 1;
    if SpansLeapDay(start) {
      TariffAfterYears(p, now, anniversary, 1);
    } else {
      TariffAfterYears(p, now, anniversary, 0);
    }
    TariffAfterYears(p, now, after, 1);
  }
}
