/**
 * `generate_ppa`: validating a request for a new PPA and building its initial record.
 * The document id the store hands out and the wall clock are parameters.
 */
module PpaCreation {
  import opened Wrappers
  import opened Calendar
  import opened Rounding
  import opened Escalation
  import opened PpaModel

  /** The reasons a request is refused, one per `ValueError` the validation raises. */
  datatype CreationError =
    | StartNotBeforeEnd
    | StartTooFarInPast
    | StartTooFarInFuture
    | NonPositiveCapacity
    | MissingPanelType
    | MissingInverterType
    | NonPositiveTariff
    | NegativeEscalation
    | InvalidBillingCycle
    | InvalidPaymentTerms

  const BillingCycles: seq<string> := [Monthly, Quarterly, Annually]
  const PaymentTerms: seq<string> := ["net15", "net30", "net45", "net60"]

  /** The order in which the validation checks run. */
  function Rank(e: CreationError): nat {
    match e
    case StartNotBeforeEnd => 0
    case StartTooFarInPast => 1
    case StartTooFarInFuture => 2
    case NonPositiveCapacity => 3
    case MissingPanelType => 4
    case MissingInverterType => 5
    case NonPositiveTariff => 6
    case NegativeEscalation => 7
    case InvalidBillingCycle => 8
    case InvalidPaymentTerms => 9
  }

  /** Whether the request breaks the rule behind `e`, judged on its own. */
  predicate Violated(e: CreationError, specs: SystemSpecifications, terms: BillingTerms,
                     start: DateTime, end: DateTime, now: DateTime)
  {
    match e
    case StartNotBeforeEnd => Instant(start) >= Instant(end)
    case StartTooFarInPast => Instant(start) < Instant(now) - 365 * MicrosPerDay
    case StartTooFarInFuture => Instant(start) > Instant(now) + 730 * MicrosPerDay
    case NonPositiveCapacity => specs.capacityKw <= 0.0
    case MissingPanelType => specs.panelType == ""
    case MissingInverterType => specs.inverterType == ""
    case NonPositiveTariff => terms.tariffRate <= 0.0
    case NegativeEscalation => terms.escalationRate < 0.0
    case InvalidBillingCycle => terms.billingCycle !in BillingCycles
    case InvalidPaymentTerms => terms.paymentTerms !in PaymentTerms
  }

  /**
   * The validation of `generate_ppa`, check by check: the error of the first rule the request
   * breaks, or none when it breaks no rule at all.
   */
  function CreationCheck(specs: SystemSpecifications, terms: BillingTerms,
                         start: DateTime, end: DateTime, now: DateTime): (r: Option<CreationError>)
    ensures r.Some? ==> Violated(r.value, specs, terms, start, end, now)
    ensures r.Some? ==> forall e :: Rank(e) < Rank(r.value) ==> !Violated(e, specs, terms, start, end, now)
    ensures r.None? ==> forall e :: !Violated(e, specs, terms, start, end, now)
  {
    if Instant(start) >= Instant(end) then Some(StartNotBeforeEnd)
    else if Instant(start) < Instant(now) - 365 * MicrosPerDay then Some(StartTooFarInPast)
    else if Instant(start) > Instant(now) + 730 * MicrosPerDay then Some(StartTooFarInFuture)
    else if specs.capacityKw <= 0.0 then Some(NonPositiveCapacity)
    else if specs.panelType == "" then Some(MissingPanelType)
    else if specs.inverterType == "" then Some(MissingInverterType)
    else if terms.tariffRate <= 0.0 then Some(NonPositiveTariff)
    else if terms.escalationRate < 0.0 then Some(NegativeEscalation)
    else if terms.billingCycle !in BillingCycles then Some(InvalidBillingCycle)
    else if terms.paymentTerms !in PaymentTerms then Some(InvalidPaymentTerms)
    else None
  }

  /** The record `generate_ppa` builds for an accepted request. */
  ghost predicate IsInitialState(p: Ppa, newId: string, customerId: string, specs: SystemSpecifications,
                                 terms: BillingTerms, start: DateTime, end: DateTime, now: DateTime)
    reads p
  {
    && p.id == Some(newId) && p.customerId == customerId
    && p.systemSpecs == specs && p.billingTerms == terms
    && p.startDate == start && p.endDate == end
    && (p.status == Active <==> Instant(start) <= Instant(now))
    && (p.status == Draft <==> Instant(now) < Instant(start))
    && p.createdAt == now && p.signedAt == None
    && p.totalEnergyProduced == 0.0 && p.totalBilled == 0.0 && p.totalPaid == 0.0
    && p.lastBillingDate == None
    && p.contractDurationYears == (WholeDays(end, start) as real) / 365.25
    && p.currentTariffRate == terms.tariffRate
    && p.nextEscalationDate == OneYearLater(start)
    && p.paymentHistory == [] && p.energyProductionHistory == [] && p.billingHistory == []
    && p.filePath == None
  }

  /**
   * `generate_ppa`: refuses a request with the first error the validation finds; otherwise
   * a new record, active when it starts no later than `now` and a draft otherwise.
   */
  method GeneratePpa(newId: string, customerId: string, specs: SystemSpecifications, terms: BillingTerms,
                     start: DateTime, end: DateTime, now: DateTime) returns (r: Result<Ppa, CreationError>)
    ensures r.Failure? <==> CreationCheck(specs, terms, start, end, now).Some?
    ensures r.Failure? ==> r.error == CreationCheck(specs, terms, start, end, now).value
    ensures r.Success? ==> fresh(r.value) && IsInitialState(r.value, newId, customerId, specs, terms, start, end, now)
  {
    var check := CreationCheck(specs, terms, start, end, now);
    if check.Some? {
      return Failure(check.value);
    }
    var durationYears := (WholeDays(end, start) as real) / 365.25;
    var initialStatus := if Instant(start) <= Instant(now) then Active else Draft;
    var p := new Ppa(Some(newId), customerId, specs, terms, start, end, initialStatus, now,
                     durationYears, terms.tariffRate, OneYearLater(start));
    return Success(p);
  }

  /** A new record is active at the moment of creation exactly when its term has begun and not yet ended. */
  lemma NewPpaActiveIff(p: Ppa, newId: string, customerId: string, specs: SystemSpecifications,
                        terms: BillingTerms, start: DateTime, end: DateTime, now: DateTime)
    requires IsInitialState(p, newId, customerId, specs, terms, start, end, now)
    ensures p.IsActive(now) <==> Instant(start) <= Instant(now) <= Instant(end)
  {
  }

  /** An accepted request starts no earlier than 365 days ago, so on creation the tariff is the base rate. */
  lemma NewPpaTariffIsBase(p: Ppa, newId: string, customerId: string, specs: SystemSpecifications,
                           terms: BillingTerms, start: DateTime, end: DateTime, now: DateTime)
    requires CreationCheck(specs, terms, start, end, now).None?
    requires IsInitialState(p, newId, customerId, specs, terms, start, end, now)
    requires p.IsActive(now)
    ensures p.Tariff(now, now) == Round(terms.tariffRate, Four)
  {
    assert !Violated(StartTooFarInPast, specs, terms, start, end, now);
    assert WholeDays(now, start) <= 365;
    TariffFirstYear(p, now, now);
  }

  /** A new record has never been billed, so an invoice is due for it exactly while it is active. */
  lemma NewPpaInvoiceDue(p: Ppa, newId: string, customerId: string, specs: SystemSpecifications,
                         terms: BillingTerms, start: DateTime, end: DateTime, now: DateTime, at: DateTime)
    requires IsInitialState(p, newId, customerId, specs, terms, start, end, now)
    ensures p.ShouldGenerateInvoice(at) <==> p.IsActive(at)
  {
  }

  /** A new record's totals agree with its (empty) histories. */
  lemma NewPpaBalanced(p: Ppa, newId: string, customerId: string, specs: SystemSpecifications,
                       terms: BillingTerms, start: DateTime, end: DateTime, now: DateTime)
    requires IsInitialState(p, newId, customerId, specs, terms, start, end, now)
    ensures p.LedgerBalanced()
  {
  }

  /**
   * The validation lets a 29 February start through: with the clock at 1 January 2028, a term
   * from 29 February 2028 to the same day of 2048 and otherwise valid terms raise no error.
   */
  lemma LeapDayStartIsAccepted()
    ensures
      var specs := SystemSpecifications(10.0, "mono", "string", Civil(2028, 1, 1, 0), 14000.0);
      var terms := BillingTerms(0.12, 0.02, Monthly, "net30");
      CreationCheck(specs, terms, Civil(2028, 2, 29, 0), Civil(2048, 2, 29, 0), Civil(2028, 1, 1, 0)).None?
  {
    var start: DateTime := Civil(2028, 2, 29, 0);
    var end: DateTime := Civil(2048, 2, 29, 0);
    var now: DateTime := Civil(2028, 1, 1, 0);
    assert Ordinal(start) == Ordinal(now) + 59;
    assert Ordinal(start) < Ordinal(end);
  }
}
