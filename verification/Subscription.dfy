/** Subscriptions: their status and the billing period they are in. */
module Subscriptions {
  import opened Wrappers
  import opened DomainEvents
  import opened Pricing
  import opened Periods
  import opened Invoices

  datatype CancelMode = CancelImmediate | CancelAtPeriodEnd

  datatype SubscriptionRow = SubscriptionRow(
    id: Id,
    customer: Id,
    price: Id,
    status: SubscriptionStatus,
    period: Period,
    nextBillingAt: int,
    canceledAt: Option<int>,
    cancelAtPeriodEnd: bool,
    createdAt: int,
    updatedAt: int)

  function NewSubscription(id: Id, customer: Id, price: Id, period: Period, now: int): SubscriptionRow {
    SubscriptionRow(id, customer, price, Active, period, period.end, None, false, now, now)
  }

  function CanceledSubscription(r: SubscriptionRow, mode: CancelMode, now: int): SubscriptionRow {
    match mode
    case CancelImmediate =>
      r.(status := Canceled, canceledAt := Some(now), cancelAtPeriodEnd := false, updatedAt := now)
    case CancelAtPeriodEnd => r.(cancelAtPeriodEnd := true, updatedAt := now)
  }

  function CancelEvents(r: SubscriptionRow, mode: CancelMode, now: int): seq<Event> {
    match mode
    case CancelImmediate => [SubscriptionCanceled(r.id, false, now)]
    case CancelAtPeriodEnd => [SubscriptionUpdated(r.id, r.status, true, now)]
  }

  function RenewError(r: SubscriptionRow): Option<Error> {
    if r.status.Canceled? then Some(SubscriptionAlreadyCanceled)
    else if r.status.Unpaid? then Some(SubscriptionUnpaid)
    else None
  }

  function RenewedSubscription(r: SubscriptionRow, p: Price, now: int): SubscriptionRow
    requires r.period.start < r.period.end
  {
    var next := CatchUp(p, r.period, now);
    r.(period := next, nextBillingAt := next.end, updatedAt := now)
  }

  /** The invoice of a renewal bills the period after the one the subscription has just entered. */
  function RenewalInvoice(r: SubscriptionRow, p: Price, invoice: Id, now: int): InvoiceRow {
    OpenInvoice(invoice, r.id, r.customer, p.amount, Some(BilledPeriod(p, r.period)), now)
  }

  /** `MarkPaid` and `MarkPastDue`: nothing happens when the status is already the one asked for. */
  function WithStatus(r: SubscriptionRow, status: SubscriptionStatus, now: int): SubscriptionRow {
    if r.status == status then r else r.(status := status, updatedAt := now)
  }

  function StatusEvents(r: SubscriptionRow, status: SubscriptionStatus, now: int): seq<Event> {
    if r.status == status then [] else [SubscriptionUpdated(r.id, status, r.cancelAtPeriodEnd, now)]
  }

  /** `MarkCanceled`: a subscription that is already canceled stays as it is. */
  function ForceCanceled(r: SubscriptionRow, now: int): SubscriptionRow {
    if r.status.Canceled? then r else r.(status := Canceled, canceledAt := Some(now), updatedAt := now)
  }

  function ForceCancelEvents(r: SubscriptionRow, now: int): seq<Event> {
    if r.status.Canceled? then [] else [SubscriptionCanceled(r.id, r.cancelAtPeriodEnd, now)]
  }

  class Subscription {
    const id: Id
    const customer: Id
    const price: Id
    var status: SubscriptionStatus
    var currentPeriodStart: int
    var currentPeriodEnd: int
    var nextBillingAt: int
    var canceledAt: Option<int>
    var cancelAtPeriodEnd: bool
    const createdAt: int
    var updatedAt: int
    const domainEvents: EventBuffer

    function Row(): SubscriptionRow
      reads this
    {
      SubscriptionRow(id, customer, price, status, Period(currentPeriodStart, currentPeriodEnd),
                      nextBillingAt, canceledAt, cancelAtPeriodEnd, createdAt, updatedAt)
    }

    constructor New(id: Id, customer: Id, price: Id, periodStart: int, periodEnd: int, now: int)
      ensures fresh(domainEvents)
      ensures Row() == NewSubscription(id, customer, price, Period(periodStart, periodEnd), now)
      ensures domainEvents.pending == [SubscriptionCreated(id, price, periodEnd, now)]
    {
      this.id, this.customer, this.price := id, customer, price;
      status := Active;
      currentPeriodStart, currentPeriodEnd := periodStart, periodEnd;
      nextBillingAt := periodEnd;
      canceledAt, cancelAtPeriodEnd := None, false;
      createdAt, updatedAt := now, now;
      domainEvents := new EventBuffer();
      new;
      domainEvents.Raise(SubscriptionCreated(id, price, nextBillingAt, now));
    }

    constructor Load(r: SubscriptionRow)
      ensures fresh(domainEvents)
      ensures Row() == r && domainEvents.pending == []
    {
      id, customer, price := r.id, r.customer, r.price;
      status := r.status;
      currentPeriodStart, currentPeriodEnd := r.period.start, r.period.end;
      nextBillingAt := r.nextBillingAt;
      canceledAt, cancelAtPeriodEnd := r.canceledAt, r.cancelAtPeriodEnd;
      createdAt, updatedAt := r.createdAt, r.updatedAt;
      domainEvents := new EventBuffer();
    }

    method Cancel(mode: CancelMode, now: int) returns (err: Option<Error>)
      modifies this, domainEvents
      ensures err == if old(status) == Canceled then Some(SubscriptionAlreadyCanceled) else None
      ensures err.None? ==> Row() == CanceledSubscription(old(Row()), mode, now)
      ensures err.None? ==> domainEvents.pending == old(domainEvents.pending) + CancelEvents(old(Row()), mode, now)
      ensures err.Some? ==> Row() == old(Row()) && domainEvents.pending == old(domainEvents.pending)
    {
      if status == Canceled {
        return Some(SubscriptionAlreadyCanceled);
      }
      match mode {
        case CancelImmediate =>
          status := Canceled;
          canceledAt := Some(now);
          cancelAtPeriodEnd := false;
          domainEvents.Raise(SubscriptionCanceled(id, false, now));
        case CancelAtPeriodEnd =>
          cancelAtPeriodEnd := true;
          MarkUpdated(now);
      }
      updatedAt := now;
      return None;
    }

    method MarkUpdated(now: int)
      modifies this`updatedAt, domainEvents
      ensures updatedAt == now
      ensures domainEvents.pending == old(domainEvents.pending)
                                      + [SubscriptionUpdated(id, status, cancelAtPeriodEnd, now)]
    {
      updatedAt := now;
      domainEvents.Raise(SubscriptionUpdated(id, status, cancelAtPeriodEnd, now));
    }

    /** Moves the period on and issues the invoice for the period after it. */
    method Renew(now: int, p: Price, invoice: Id) returns (r: Result<Invoice, Error>)
      requires currentPeriodStart < currentPeriodEnd
      modifies this, domainEvents
      ensures r.Failure? <==> old(RenewError(Row())).Some?
      ensures r.Failure? ==> Some(r.error) == old(RenewError(Row()))
                             && Row() == old(Row()) && domainEvents.pending == old(domainEvents.pending)
      ensures r.Success? ==>
                && fresh(r.value) && fresh(r.value.domainEvents)
                && Row() == RenewedSubscription(old(Row()), p, now)
                && r.value.Row() == RenewalInvoice(Row(), p, invoice, now)
                && r.value.domainEvents.pending == [InvoiceCreated(invoice, p.amount, now)]
                && domainEvents.pending == old(domainEvents.pending)
                                           + [SubscriptionRenewed(id, invoice, p.amount, currentPeriodEnd, now)]
    {
      hide NextBillingDate;
      if status == Canceled {
        return Failure(SubscriptionAlreadyCanceled);
      }
      if status == Unpaid {
        return Failure(SubscriptionUnpaid);
      }
      if now > currentPeriodEnd {
        var periodDuration := currentPeriodEnd - currentPeriodStart;
        var missedPeriods := (now - currentPeriodEnd) / periodDuration;
        currentPeriodStart := currentPeriodEnd + periodDuration * missedPeriods;
      } else {
        currentPeriodStart := currentPeriodEnd;
      }
      currentPeriodEnd := NextBillingDate(p, currentPeriodStart);
      nextBillingAt := currentPeriodEnd;
      updatedAt := now;
      var inv := NewRenewalInvoice(p, invoice, now);
      domainEvents.Raise(SubscriptionRenewed(id, inv.id, inv.amount, currentPeriodEnd, now));
      return Success(inv);
    }

    /** Reads the period end after the renewal has moved it. */
    method NewRenewalInvoice(p: Price, invoice: Id, now: int) returns (inv: Invoice)
      ensures fresh(inv) && fresh(inv.domainEvents)
      ensures inv.Row() == RenewalInvoice(Row(), p, invoice, now)
      ensures inv.domainEvents.pending == [InvoiceCreated(invoice, p.amount, now)]
    {
      var periodStart := currentPeriodEnd;
      var periodEnd := NextBillingDate(p, periodStart);
      inv := new Invoice.New(invoice, id, customer, p.amount, Some(Period(periodStart, periodEnd)), now);
    }

    method MarkPaid(now: int)
      modifies this, domainEvents
      ensures Row() == WithStatus(old(Row()), Active, now)
      ensures domainEvents.pending == old(domainEvents.pending) + StatusEvents(old(Row()), Active, now)
    {
      if status == Active {
        return;
      }
      status := Active;
      MarkUpdated(now);
    }

    method MarkPastDue(now: int)
      modifies this, domainEvents
      ensures Row() == WithStatus(old(Row()), PastDue, now)
      ensures domainEvents.pending == old(domainEvents.pending) + StatusEvents(old(Row()), PastDue, now)
    {
      if status == PastDue {
        return;
      }
      status := PastDue;
      MarkUpdated(now);
    }

    method MarkCanceled(now: int)
      modifies this, domainEvents
      ensures Row() == ForceCanceled(old(Row()), now)
      ensures domainEvents.pending == old(domainEvents.pending) + ForceCancelEvents(old(Row()), now)
    {
      if status == Canceled {
        return;
      }
      status := Canceled;
      canceledAt := Some(now);
      updatedAt := now;
      domainEvents.Raise(SubscriptionCanceled(id, cancelAtPeriodEnd, now));
    }
  }
}
