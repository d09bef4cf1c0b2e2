# Billing and PPA engine — Dafny model

A verified model of the rules at the heart of a solar power-purchase-agreement (PPA) billing
service: when a PPA is active, when it is due for an invoice, how its tariff escalates year by
year, how its ledgers of production, billing and payment grow, how a new PPA is validated and
initialised, when it is next billed, and how an invoice is priced, built and marked paid.

The modules follow the two source files:

- `wrappers.dfy` (`Wrappers`): `Option` and `Result`.
- `calendar.dfy` (`Calendar`): Python `datetime` arithmetic the engine relies on: civil
  date-times in UTC, instants in microseconds, `.days` of a difference (floor division),
  `+ timedelta(days=n)`, `replace(day=1)` and `replace(year=...)`.
- `rounding.dfy` (`Rounding`): Python's `round(x, 2)` and `round(x, 4)` on exact reals
  (nearest, ties to even).
- `escalation.dfy` (`Escalation`): `int(days / 365.25)`, `range(k)` and compound escalation.
- `ppa_model.dfy` (`PpaModel`): the `PPA` record as the class `Ppa`, with `is_active`,
  `should_generate_invoice`, `calculate_current_tariff` (its loop kept as a loop),
  `mark_ppa_as_signed` and the three `add_*` ledger methods.
- `ppa_creation.dfy` (`PpaCreation`): the validation chain and initial state of `generate_ppa`.
- `billing_schedule.dfy` (`BillingSchedule`): the next-billing-date rule of `update_ppa_billing`.
- `invoices.dfy` (`Invoices`): `calculate_invoice_amount`, `generate_invoice`, the invoice
  collection as a class holding a map from id to invoice, and `mark_invoice_as_paid`.

The wall clock (`datetime.now`) is the parameter `now` wherever the source reads it, and the
document ids the store hands out are parameters too.

## Model

| member | source | states |
|---|---|---|
| Calendar.WholeDays | ppa_generator.py:73 | `(later - earlier).days` is the whole number of days in the difference, rounded down: `days` days fit and `days + 1` do not |
| Calendar.WholeDaysMonotone | ppa_generator.py:73 | the later the moment, the more whole days have passed since a fixed date |
| Calendar.AddDaysOrdinal | ppa_generator.py:455 | adding `timedelta(days=n)` moves the date exactly `n` days on and keeps the time of day |
| Calendar.FirstOfMonth | ppa_generator.py:456 | `replace(day=1)` keeps year, month and time and moves back `day - 1` days |
| Calendar.ReplaceYear | ppa_generator.py:372 | `replace(year=y)` keeps month, day and time, and fails exactly for 29 February in a non-leap year |
| Calendar.LeapDayHasNoAnniversary | ppa_generator.py:372 | a 29 February start has no same-day date one year later |
| Calendar.OneYearLater | ppa_generator.py:372 | the same date a year later (28 February for a 29 February start) lies 366 days on when a 29 February falls in between and 365 days otherwise |
| Calendar.FirstOfMonthAfterIsLater | ppa_generator.py:454-459 | the first of any later month is a later day |
| Rounding.RoundIsNearest | ppa_generator.py:93 | `round(x, 2)`/`round(x, 4)` has at most two/four places and lies within half a unit of the last place of `x` |
| Rounding.RoundMonotone | ppa_generator.py:93 | rounding never reverses the order of two values |
| Rounding.RoundExact | invoice_generator.py:26 | a value that already has the places is returned unchanged |
| Escalation.EscalationPeriods | ppa_generator.py:86-87 | `int(days / 365.25)` truncates: for non-negative days `k <= days / 365.25 < k + 1`, and for negative days it rounds toward zero |
| Escalation.EscalationPeriodsWindow | ppa_generator.py:86-87 | a day count between `n` and `n + 1` periods of 365.25 days counts exactly `n` periods |
| Escalation.EscalationPeriodsMonotone | ppa_generator.py:86-87 | more days never count fewer periods |
| Escalation.EscalatedRateStep | ppa_generator.py:91 | one more pass multiplies the rate by `1 + escalation_rate` |
| Escalation.EscalatedRateMonotone | ppa_generator.py:89-91 | with non-negative base and escalation rate, more passes never lower the rate |
| PpaModel.TotalAppend | ppa_generator.py:97-120 | appending a record adds its amount to the sum of a history |
| PpaModel.Escalate | ppa_generator.py:89-91 | the loop returns the base rate times `(1 + escalation_rate)` to the power of the number of passes `range` makes: the period count when positive, none otherwise |
| PpaModel.Ppa.constructor | ppa_generator.py:32-53 | a new record has the given fields, no signature, zero totals, no last billing date, empty histories and no file |
| PpaModel.Ppa.ShouldGenerateInvoice | ppa_generator.py:63-79 | an invoice is only ever due for an active PPA, and for one billed before only after at least 30 days |
| PpaModel.Ppa.Tariff | ppa_generator.py:81-93 | the tariff is 0 whenever the PPA is not active |
| PpaModel.Ppa.CalculateCurrentTariff | ppa_generator.py:81-93 | the loop computes the rounded, escalated rate that `Tariff` specifies |
| PpaModel.Ppa.MarkAsSigned | ppa_generator.py:400-417 | signing sets the status to active and the signature time to now; the PPA is then active exactly when now lies in its term |
| PpaModel.Ppa.AddEnergyProduction | ppa_generator.py:95-102 | appends one record priced at the tariff of the reading date, adds the kWh to the produced total, touches no other field, and keeps totals equal to the sums of histories |
| PpaModel.Ppa.AddBillingRecord | ppa_generator.py:104-112 | appends one record priced at the tariff of the billing date, adds to the billed total, sets the last billing date, so no invoice is due at that instant, touches no other field, keeps the ledger balanced |
| PpaModel.Ppa.AddPaymentRecord | ppa_generator.py:114-120 | appends one payment record, adds to the paid total, touches no other field, keeps the ledger balanced |
| PpaModel.Ppa.IsActive | ppa_generator.py:55-61 | active means status "active" and the clock `now` between start and end, both ends included; an active PPA therefore has start no later than end |
| PpaModel.ActiveBetween | ppa_generator.py:55-61 | a PPA active at two moments is active at every moment between them |
| PpaModel.InvoiceDueIff | ppa_generator.py:63-79 | for an active PPA an invoice is due exactly when it was never billed or its cycle is known and 30, 90 or 365 whole days have passed |
| PpaModel.InvoiceStaysDue | ppa_generator.py:63-79 | once due, an invoice stays due for as long as the PPA stays active |
| PpaModel.UnknownCycleBilledOnce | ppa_generator.py:72-79 | with a cycle other than monthly, quarterly or annually, a billed PPA is never due again |
| PpaModel.TariffFirstYear | ppa_generator.py:83-93 | up to 365 whole days after the start, and before it, the tariff is the base rate rounded to four places |
| PpaModel.TariffAfterYears | ppa_generator.py:86-93 | between `n` and `n + 1` periods of 365.25 days after the start the tariff is the base rate escalated `n` times, rounded |
| PpaModel.TariffMonotone | ppa_generator.py:81-93 | with non-negative base and escalation rates the tariff never falls as the date advances |
| PpaModel.AnniversaryTariff | ppa_generator.py:86-93 | on the first anniversary the rate has escalated only if a 29 February fell in the year; a day later it always has |
| PpaCreation.CreationCheck | ppa_generator.py:303-341 | a request is refused with the first rule it breaks, in the order the checks run, and accepted exactly when it breaks none |
| PpaCreation.GeneratePpa | ppa_generator.py:295-382 | a refused request yields that error; an accepted one a new record: active iff it starts no later than now, else draft; zero totals, empty histories, no billing or signature, base rate as current rate, duration in 365.25-day years, next escalation a year after the start (28 February for a 29 February start, where the code raises `ValueError`) |
| PpaCreation.NewPpaActiveIff | ppa_generator.py:349-353 | a new PPA is active at creation exactly when its term has begun and not yet ended |
| PpaCreation.NewPpaTariffIsBase | ppa_generator.py:314-315 | an accepted start is at most 365 days back, so on creation the tariff is the base rate |
| PpaCreation.NewPpaInvoiceDue | ppa_generator.py:356-377 | a new PPA has never been billed, so an invoice is due for it exactly while it is active |
| PpaCreation.NewPpaBalanced | ppa_generator.py:356-377 | a new PPA's totals equal the sums of its empty histories |
| PpaCreation.LeapDayStartIsAccepted | ppa_generator.py:303-341 | the validation accepts a 29 February start |
| BillingSchedule.NextBillingAsWritten | ppa_generator.py:453-459 | the date is the first of a month 1 to 32 (monthly) or 92 (quarterly) days after the stale base; no base is an error; other cycles get no date |
| BillingSchedule.NextBillingDate | ppa_generator.py:453-459 | the first of the month one, three or twelve months after the billing, always later and never an error |
| BillingSchedule.UpdatePpaBilling | ppa_generator.py:437-462 | adds the amount to the billed total, records now as the last billing date, so no invoice is due then, and returns the next billing date, which stands for the `next_billing_date` field written to the store; a non-zero amount leaves the billed total out of step with the billing history |
| BillingSchedule.UpdatePpaBillingAsWritten | ppa_generator.py:437-462 | as written, the next date is computed from the last billing date as loaded; when that is missing for a monthly or quarterly PPA the error comes before the write, so the total and the missing last billing date are unchanged and the next update fails again; otherwise the total grows by the amount and now is recorded |
| BillingSchedule.MonthlyAsWrittenExact | ppa_generator.py:454-456 | as written, the monthly rule gives the first of the next month if and only if the day of the last billing is at most the lengths of its month and the next one minus 32; otherwise it gives the first of the month after next |
| BillingSchedule.MonthlyFromJanuary28SkipsFebruary | ppa_generator.py:454-456 | as written, a monthly PPA last billed on 28 January 2025 is next billed on 1 March 2025 |
| BillingSchedule.MonthlyFromJanuary31SkipsFebruary | ppa_generator.py:454-456 | as written, a monthly PPA last billed on 31 January 2025 is next billed on 1 March 2025 |
| BillingSchedule.FirstBillingHasNoBaseDate | ppa_generator.py:453-459 | as written, the first monthly or quarterly billing update of a new PPA has no base date |
| BillingSchedule.StaleBaseSchedulesInThePast | ppa_generator.py:453-456 | as written, a billing on 15 March 2025 of a PPA whose stored last billing date is 1 January 2025 schedules the next on 1 February 2025 (such a stored date can only come from a write outside `update_ppa_billing`) |
| BillingSchedule.AnnualCycleUnscheduled | ppa_generator.py:453-459 | as written, an annual PPA never gets a next billing date |
| BillingSchedule.MonthlyAgreesOnFirstOfMonth | ppa_generator.py:454-456 | from the first of a month, the written monthly rule gives the intended date |
| BillingSchedule.QuarterLengthBounds | ppa_generator.py:457-459 | any three consecutive months hold 89 to 92 days |
| BillingSchedule.QuarterlyAsWrittenExact | ppa_generator.py:457-459 | as written, the quarterly rule gives the first of the month three on if and only if the day of the last billing is at most the length of the three months starting with its month plus the length of the month after them, minus 92; otherwise it gives the first of the month four on |
| BillingSchedule.QuarterlyFromJanuary31SkipsApril | ppa_generator.py:457-459 | as written, a quarterly PPA last billed on 31 January 2025 is next billed on 1 May 2025, where the intended rule gives 1 April 2025 |
| BillingSchedule.QuarterlyAgreesOnFirstOfMonth | ppa_generator.py:457-459 | from the first of a month, the written quarterly rule gives the intended date |
| Invoices.CalculateInvoiceAmount | invoice_generator.py:24-26 | the amount has at most two places and is within half a cent of usage times rate |
| Invoices.AmountMonotoneInUsage | invoice_generator.py:24-26 | at a non-negative rate, more usage never costs less |
| Invoices.AmountExact | invoice_generator.py:24-26 | a charge already in whole cents is billed exactly |
| Invoices.BuildInvoice | invoice_generator.py:13-39 | customer, month, year and usage copied, rate stored unchanged, amount as computed, pending and unpaid |
| Invoices.MarkPaid | invoice_generator.py:71-73 | status paid, paid at now, every other field unchanged, pricing still consistent |
| Invoices.MarkPaidTwice | invoice_generator.py:71-73 | paying twice is paying once at the later time, and the status stays paid |
| Invoices.InvoiceStore.constructor | invoice_generator.py:42 | an empty collection |
| Invoices.InvoiceStore.GenerateInvoice | invoice_generator.py:28-47 | the built invoice is stored under the new id and is what `InvoiceById` then finds; nothing else changes; the new id joins the usage's customer's `CustomerInvoiceIds` and leaves every other customer's; all stored invoices stay consistently priced |
| Invoices.InvoiceStore.InvoiceById | invoice_generator.py:55-61 | the invoice under that id, or nothing when there is none; after `GenerateInvoice` and `MarkInvoiceAsPaid` it returns what they returned |
| Invoices.InvoiceStore.CustomerInvoiceIds | invoice_generator.py:49-53 | exactly the ids of the customer's invoices; `GenerateInvoice` adds the new id to one customer's ids only and `MarkInvoiceAsPaid` changes no customer's ids |
| Invoices.InvoiceStore.MarkInvoiceAsPaid | invoice_generator.py:63-76 | an unknown id gives nothing and changes nothing; a known one is replaced by its paid version, which is returned and which `InvoiceById` then finds; every customer keeps the same invoice ids |

## Left out

- Firestore reads and writes, `await` and `run_in_threadpool`: the store is a map (invoices) or the `Ppa` object itself (PPAs); a failed write is not modelled.
- The read-modify-write races of the `update_ppa_*` functions: concurrency is not modelled.
- `create_ppa_pdf`, the PDF utilities, the HTTP routes, Firebase set-up and the HTTP tests: rendering and I/O with no rule to state.
- `get_ppa_by_id`, `get_customer_ppas`: plain store reads.
- `update_ppa_energy_production` and `update_ppa_payment`: they add to a total on the stored record without appending a history entry, as `update_ppa_billing` does (`BillingSchedule.UpdatePpaBilling` states that this unbalances the ledger); only the billing update, whose next-date rule is the point, is modelled.
- BillingSchedule.UpdatePpaBilling, BillingSchedule.UpdatePpaBillingAsWritten: the result is the stored `next_billing_date`; the PPA object the function returns (the record as loaded with the total added, still carrying the old `last_billing_date`) is not modelled.
- PpaCreation.GeneratePpa: for a 29 February start the model accepts the request with the next escalation on 28 February of the next year, where the code raises `ValueError` (see the last finding); the model promises the intended anniversary, not the crash.
- PpaModel.Ppa.AddEnergyProduction, PpaModel.Ppa.AddBillingRecord, PpaModel.Ppa.AddPaymentRecord: amounts and kWh are not checked for sign, as in the source.
- Floating point: rates, amounts and durations are exact reals, so the IEEE-754 error of `/ 365.25`, of repeated multiplication and of `round` on binary fractions is not modelled.
- Time zones: every date-time is UTC. The naive `datetime.now()` of `mark_invoice_as_paid` and a naive start or end date compared with an aware clock (a `TypeError` in Python) are not modelled.
- The upper end of Python's calendar (year 9999) and the `OverflowError` past it are not modelled; years are unbounded.
- The defaults `created_at` of an invoice and `timestamp` of a usage reading are computed once, when the class is defined; the model passes that value in as `createdAt` and inside the reading.
- A start exactly two non-leap years back (730 days) counts one escalation period, because 730 / 365.25 < 2; the model follows the code here (`PpaModel.TariffAfterYears`).

## Findings

| source | as written | input that shows it | evidently intended | confidence | as-written member | corrected member |
|---|---|---|---|---|---|---|
| ppa_generator.py:454-456 | next monthly date = first of the month of last billing + 32 days | last billed 2025-01-31 or 2025-01-28: next billing 2025-03-01, February skipped; in general whenever the day exceeds the lengths of its month and the next minus 32 | first of the next calendar month | high, not executed | BillingSchedule.MonthlyAsWrittenExact | BillingSchedule.NextBillingDate |
| ppa_generator.py:453-459 | base is `ppa.last_billing_date` as loaded, before this billing | a new monthly PPA's first billing update: the base is `None` and `None + timedelta` raises `TypeError` before the write, so `last_billing_date` stays `None` and every later billing update fails too | count from the billing being recorded | high, not executed | BillingSchedule.UpdatePpaBillingAsWritten | BillingSchedule.UpdatePpaBilling |
| ppa_generator.py:457-459 | next quarterly date = first of the month of last billing + 92 days | last billed 2025-01-31: next billing 2025-05-01, April skipped; last billed 2024-11-30: next billing 2025-03-01; in general whenever the day exceeds the length of its quarter plus the next month's minus 92 | first of the calendar month three months on | high, not executed | BillingSchedule.QuarterlyAsWrittenExact | BillingSchedule.NextBillingDate |
| ppa_generator.py:453-459 | no branch for the annual cycle | any annual PPA: no next billing date is stored | first of the month twelve months on | medium, not executed | BillingSchedule.AnnualCycleUnscheduled | BillingSchedule.NextBillingDate |
| ppa_generator.py:372 | `start_date.replace(year=start_date.year + 1)` | start 2028-02-29 with clock 2028-01-01 passes validation, then `replace` raises `ValueError` | the anniversary, 28 February in a non-leap year | high, not executed | Calendar.LeapDayHasNoAnniversary | PpaCreation.GeneratePpa |
