/** Invoices: what is owed, what was paid, and the attempts made. */
module Invoices {
  import opened Wrappers
  import opened DomainEvents
  import opened Periods

  datatype InvoiceStatus = Draft | Open | Paid | Uncollectible | Void

  datatype InvoiceRow = InvoiceRow(
    id: Id,
    subscription: Id,
    customer: Id,
    amount: int,
    amountPaid: int,
    amountRemaining: int,
    status: InvoiceStatus,
    period: Option<Period>,
    attemptCount: int,
    attemptedAt: Option<int>,
    createdAt: int,
    updatedAt: int)

  /** An unpaid invoice, for a period when it bills a renewal. */
  function OpenInvoice(id: Id, subscription: Id, customer: Id, amount: int, period: Option<Period>, now: int)
    : InvoiceRow
  {
    InvoiceRow(id, subscription, customer, amount, 0, amount, Open, period, 0, None, now, now)
  }

  predicate CanBePaid(r: InvoiceRow) {
    r.status.Open? || r.status.Draft?
  }

  function PaymentError(r: InvoiceRow): Option<Error> {
    if CanBePaid(r) then None else if r.status.Paid? then Some(InvoiceAlreadyPaid) else Some(InvoiceNotPayable)
  }

  function PaidInvoice(r: InvoiceRow, now: int): InvoiceRow {
    r.(status := Paid, amountPaid := r.amount, amountRemaining := 0, attemptedAt := Some(now), updatedAt := now)
  }

  function FailedInvoice(r: InvoiceRow, now: int, isFinalAttempt: bool): InvoiceRow {
    r.(status := if isFinalAttempt then Uncollectible else Open,
       attemptCount := r.attemptCount + 1, attemptedAt := Some(now), updatedAt := now)
  }

  class Invoice {
    const id: Id
    const subscription: Id
    const customer: Id
    const amount: int
    var amountPaid: int
    var amountRemaining: int
    var status: InvoiceStatus
    const period: Option<Period>
    var attemptCount: int
    var attemptedAt: Option<int>
    const createdAt: int
    var updatedAt: int
    const domainEvents: EventBuffer

    function Row(): InvoiceRow
      reads this
    {
      InvoiceRow(id, subscription, customer, amount, amountPaid, amountRemaining, status, period,
                 attemptCount, attemptedAt, createdAt, updatedAt)
    }

    /** A new invoice, with or without a period, announces itself. */
    constructor New(id: Id, subscription: Id, customer: Id, amount: int, period: Option<Period>, now: int)
      ensures fresh(domainEvents)
      ensures Row() == OpenInvoice(id, subscription, customer, amount, period, now)
      ensures domainEvents.pending == [InvoiceCreated(id, amount, now)]
    {
      this.id, this.subscription, this.customer, this.amount := id, subscription, customer, amount;
      this.period := period;
      amountPaid, amountRemaining := 0, amount;
      status := Open;
      attemptCount, attemptedAt := 0, None;
      createdAt, updatedAt := now, now;
      domainEvents := new EventBuffer();
      new;
      domainEvents.Raise(InvoiceCreated(id, amount, now));
    }

    /** An invoice read back from its row has no events of its own. */
    constructor Load(r: InvoiceRow)
      ensures fresh(domainEvents)
      ensures Row() == r && domainEvents.pending == []
    {
      id, subscription, customer, amount := r.id, r.subscription, r.customer, r.amount;
      amountPaid, amountRemaining := r.amountPaid, r.amountRemaining;
      status := r.status;
      period := r.period;
      attemptCount, attemptedAt := r.attemptCount, r.attemptedAt;
      createdAt, updatedAt := r.createdAt, r.updatedAt;
      domainEvents := new EventBuffer();
    }

    method MarkPaid(now: int) returns (err: Option<Error>)
      modifies this, domainEvents
      ensures err == old(PaymentError(Row()))
      ensures err.None? ==> Row() == PaidInvoice(old(Row()), now)
      ensures err.None? ==> domainEvents.pending == old(domainEvents.pending) + [InvoicePaid(id, amount, now)]
      ensures err.Some? ==> Row() == old(Row()) && domainEvents.pending == old(domainEvents.pending)
    {
      if !CanBePaid(Row()) {
        if status == Paid {
          return Some(InvoiceAlreadyPaid);
        }
        return Some(InvoiceNotPayable);
      }
      status := Paid;
      amountPaid := amount;
      attemptedAt := Some(now);
      amountRemaining := 0;
      updatedAt := now;
      domainEvents.Raise(InvoicePaid(id, amount, now));
      return None;
    }

    /** As the source has it, there is no test that the invoice can still be paid. */
    method MarkPaymentFailed(now: int, isFinalAttempt: bool)
      modifies this, domainEvents
      ensures Row() == FailedInvoice(old(Row()), now, isFinalAttempt)
      ensures domainEvents.pending == old(domainEvents.pending) + [InvoicePaymentFailed(id, amount, now)]
    {
      attemptCount := attemptCount + 1;
      attemptedAt := Some(now);
      updatedAt := now;
      if isFinalAttempt {
        status := Uncollectible;
      } else {
        status := Open;
      }
      domainEvents.Raise(InvoicePaymentFailed(id, amount, now));
    }
  }
}
