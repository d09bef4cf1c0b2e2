/**
 * Invoices for metered energy usage: the amount charged, the record built for a usage
 * reading, and the invoice collection with its pending-to-paid transition. The document
 * store is a map from invoice id to invoice; the wall clock is the parameter `now`.
 */
module Invoices {
  import opened Wrappers
  import opened Calendar
  import opened Rounding

  const Pending: string := "pending"
  const Paid: string := "paid"

  /** A metered usage reading for one customer and billing month. */
  datatype EnergyUsage = EnergyUsage(customerId: string, month: int, year: int, usageKwh: real, timestamp: DateTime)

  datatype Invoice = Invoice(
    customerId: string,
    month: int,
    year: int,
    usageKwh: real,
    tariffRate: real,
    totalAmount: real,
    status: string,
    createdAt: DateTime,
    paidAt: Option<DateTime>)

  /** `calculate_invoice_amount`: usage times rate, to the nearest cent (ties to even). */
  function CalculateInvoiceAmount(usageKwh: real, tariffRate: real): (amount: real)
    ensures HasPlaces(amount, Two)
    ensures -0.005 <= amount - usageKwh * tariffRate <= 0.005
  {
    RoundIsNearest(usageKwh * tariffRate, Two);
    Round(usageKwh * tariffRate, Two)
  }

  /** At a non-negative rate, more usage never costs less. */
  lemma AmountMonotoneInUsage(u1: real, u2: real, tariffRate: real)
    requires 0.0 <= tariffRate && u1 <= u2
    ensures CalculateInvoiceAmount(u1, tariffRate) <= CalculateInvoiceAmount(u2, tariffRate)
  {
    ScaleByNonNegative(tariffRate, u1, u2);
    RoundMonotone(u1 * tariffRate, u2 * tariffRate, Two);
  }

  /** A charge already in whole cents is billed exactly. */
  lemma AmountExact(usageKwh: real, tariffRate: real)
    requires HasPlaces(usageKwh * tariffRate, Two)
    ensures CalculateInvoiceAmount(usageKwh, tariffRate) == usageKwh * tariffRate
  {
    RoundExact(usageKwh * tariffRate, Two);
  }

  /** The invoice charges what its own usage and rate come to. */
  predicate WellPriced(inv: Invoice) {
    inv.totalAmount == CalculateInvoiceAmount(inv.usageKwh, inv.tariffRate)
  }

  /**
   * The invoice `generate_invoice` builds: customer, month, year and usage copied from the
   * reading, the given rate, the computed amount, pending and unpaid.
   */
  function BuildInvoice(usage: EnergyUsage, tariffRate: real, createdAt: DateTime): (inv: Invoice)
    ensures inv.customerId == usage.customerId && inv.month == usage.month && inv.year == usage.year
    ensures inv.usageKwh == usage.usageKwh && inv.tariffRate == tariffRate
    ensures WellPriced(inv) && HasPlaces(inv.totalAmount, Two)
    ensures inv.status == Pending && inv.paidAt == None && inv.createdAt == createdAt
  {
    Invoice(usage.customerId, usage.month, usage.year, usage.usageKwh, tariffRate,
            CalculateInvoiceAmount(usage.usageKwh, tariffRate), Pending, createdAt, None)
  }

  /** The record `mark_invoice_as_paid` writes back: paid at `now`, nothing else touched. */
  function MarkPaid(inv: Invoice, now: DateTime): (r: Invoice)
    ensures r.status == Paid && r.paidAt == Some(now)
    ensures r.customerId == inv.customerId && r.month == inv.month && r.year == inv.year
    ensures r.usageKwh == inv.usageKwh && r.tariffRate == inv.tariffRate
    ensures r.totalAmount == inv.totalAmount && r.createdAt == inv.createdAt
    ensures WellPriced(inv) ==> WellPriced(r)
  {
    inv.(status := Paid, paidAt := Some(now))
  }

  /** Paying twice leaves the invoice paid, as if paid once at the later time. */
  lemma MarkPaidTwice(inv: Invoice, first: DateTime, second: DateTime)
    ensures MarkPaid(MarkPaid(inv, first), second) == MarkPaid(inv, second)
    ensures MarkPaid(MarkPaid(inv, first), second).status == MarkPaid(inv, first).status
  {
  }

  /** The `invoices` collection. */
  class InvoiceStore {
    var invoices: map<string, Invoice>

    constructor ()
      ensures invoices == map[]
    {
      invoices := map[];
    }

    /** Every stored invoice charges what its usage and rate come to. */
    ghost predicate AllWellPriced()
      reads this
    {
      forall id :: id in invoices ==> WellPriced(invoices[id])
    }

    /**
     * `generate_invoice`: builds the invoice and stores it under the id the store hands out.
     * `createdAt` is the default the invoice record takes.
     */
    method GenerateInvoice(usage: EnergyUsage, tariffRate: real, newId: string, createdAt: DateTime)
      returns (inv: Invoice)
      modifies this
      ensures inv == BuildInvoice(usage, tariffRate, createdAt)
      ensures invoices == old(invoices)[newId := inv]
      ensures InvoiceById(newId) == Some(inv)
      ensures forall c ::
        CustomerInvoiceIds(c) == (old(CustomerInvoiceIds(c)) - {newId}) + (if c == usage.customerId then {newId} else {})
      ensures old(AllWellPriced()) ==> AllWellPriced()
    {
      inv := BuildInvoice(usage, tariffRate, createdAt);
      invoices := invoices[newId := inv];
    }

    /** `get_invoice_by_id`. */
    function InvoiceById(invoiceId: string): (r: Option<Invoice>)
      reads this
      ensures r.Some? <==> invoiceId in invoices
      ensures r.Some? ==> r.value == invoices[invoiceId]
    {
      if invoiceId in invoices then Some(invoices[invoiceId]) else None
    }

    /** `get_customer_invoices`, as the ids of the invoices whose customer matches. */
    function CustomerInvoiceIds(customerId: string): (ids: set<string>)
      reads this
      ensures forall id :: id in ids <==> id in invoices && invoices[id].customerId == customerId
    {
      set id | id in invoices && invoices[id].customerId == customerId
    }

    /**
     * `mark_invoice_as_paid`: nothing for an unknown id, and no change; otherwise the
     * invoice marked paid at `now`, written back in place.
     */
    method MarkInvoiceAsPaid(invoiceId: string, now: DateTime) returns (r: Option<Invoice>)
      modifies this
      ensures invoiceId !in old(invoices) ==> r == None && invoices == old(invoices)
      ensures invoiceId in old(invoices) ==>
        r == Some(MarkPaid(old(invoices)[invoiceId], now)) && invoices == old(invoices)[invoiceId := r.value]
      ensures InvoiceById(invoiceId) == r
      ensures forall c :: CustomerInvoiceIds(c) == old(CustomerInvoiceIds(c))
      ensures old(AllWellPriced()) ==> AllWellPriced()
    {
      if invoiceId !in invoices {
        return None;
      }
      var paid := MarkPaid(invoices[invoiceId], now);
      invoices := invoices[invoiceId := paid];
      return Some(paid);
    }
  }
}
