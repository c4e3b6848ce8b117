/**
  The database tables and what each service transaction makes of them. A transaction
  either commits, giving new tables, or fails and leaves the tables as they were.
 */
module Transactions {
  import opened Wrappers
  import opened DomainEvents
  import opened OutboxEvents
  import opened Pricing
  import opened Periods
  import opened Subscriptions
  import opened Invoices
  import opened PaymentIntents

  /** Identifiers are handed out by counting up, so a new one is always fresh. */
  datatype Tables = Tables(
    customers: set<Id>,
    prices: map<Id, Price>,
    subscriptions: map<Id, SubscriptionRow>,
    invoices: map<Id, InvoiceRow>,
    intents: map<Id, IntentRow>,
    outbox: seq<OutboxRow>,
    nextId: Id)

  /** Billing dates are in order: every period ends when its price says, and billing is due then. */
  predicate OnTime(t: Tables) {
    && (forall p | p in t.prices :: t.prices[p].count >= 1)
    && (forall s | s in t.subscriptions ::
          var r := t.subscriptions[s];
          r.price in t.prices && OnSchedule(t.prices[r.price], r.period) && r.nextBillingAt == r.period.end)
  }

  lemma PeriodIsProper(t: Tables, s: Id)
    requires OnTime(t) && s in t.subscriptions
    ensures t.subscriptions[s].period.start < t.subscriptions[s].period.end
  {
    OnScheduleBounds(t.prices[t.subscriptions[s].price], t.subscriptions[s].period);
  }

  /** What the calls announce when they commit. */
  function CreationEvents(t: Tables, price: Id, now: int): seq<Event>
    requires price in t.prices
  {
    var p := t.prices[price];
    [SubscriptionCreated(t.nextId, price, NextBillingDate(p, now), now),
     InvoiceCreated(t.nextId + 1, p.amount, now),
     InvoicePaid(t.nextId + 1, p.amount, now)]
  }

  function RenewalEvents(r: SubscriptionRow, p: Price, invoice: Id, paid: bool, now: int): seq<Event>
    requires r.period.start < r.period.end
  {
    var moved := RenewedSubscription(r, p, now);
    [SubscriptionRenewed(r.id, invoice, p.amount, moved.period.end, now)]
    + StatusEvents(moved, if paid then Active else PastDue, now)
    + [InvoiceCreated(invoice, p.amount, now),
       if paid then InvoicePaid(invoice, p.amount, now) else InvoicePaymentFailed(invoice, p.amount, now)]
  }

  function ConfirmationEvents(pi: IntentRow, r: InvoiceRow, paid: bool, now: int): seq<Event> {
    if paid then [PaymentIntentSucceeded(pi.id, pi.invoice, pi.amount, now), InvoicePaid(r.id, r.amount, now)]
    else [PaymentIntentFailed(pi.id, pi.invoice, pi.amount, now), InvoicePaymentFailed(r.id, r.amount, now)]
  }

  function CreateSubscription(t: Tables, customer: Id, price: Id, now: int): Result<Tables, Error> {
    if customer !in t.customers then Failure(CustomerNotFound)
    else if price !in t.prices then Failure(PriceNotFound)
    else
      var p := t.prices[price];
      var s, i := t.nextId, t.nextId + 1;
      var sub := NewSubscription(s, customer, price, Period(now, NextBillingDate(p, now)), now);
      var inv := PaidInvoice(OpenInvoice(i, s, customer, p.amount, None, now), now);
      Success(t.(subscriptions := t.subscriptions[s := sub],
                 invoices := t.invoices[i := inv],
                 outbox := Dispatched(t.outbox, CreationEvents(t, price, now), now),
                 nextId := t.nextId + 2))
  }

  function CancelSubscription(t: Tables, s: Id, mode: CancelMode, now: int): Result<Tables, Error> {
    if s !in t.subscriptions then Failure(SubscriptionNotFound)
    else
      var r := t.subscriptions[s];
      if r.status.Canceled? then Failure(SubscriptionAlreadyCanceled)
      else Success(t.(subscriptions := t.subscriptions[s := CanceledSubscription(r, mode, now)],
                      outbox := Dispatched(t.outbox, CancelEvents(r, mode, now), now)))
  }

  /** Renewing before the billing date is no error and changes nothing. */
  function RenewSubscription(t: Tables, s: Id, paid: bool, now: int): Result<Tables, Error>
    requires OnTime(t)
  {
    if s !in t.subscriptions then Failure(SubscriptionNotFound)
    else
      var r := t.subscriptions[s];
      if r.nextBillingAt > now then Success(t)
      else if RenewError(r).Some? then Failure(RenewError(r).value)
      else
        PeriodIsProper(t, s);
        var p := t.prices[r.price];
        var i := t.nextId;
        var moved := RenewedSubscription(r, p, now);
        var issued := RenewalInvoice(moved, p, i, now);
        var status := if paid then Active else PastDue;
        var inv := if paid then PaidInvoice(issued, now) else FailedInvoice(issued, now, false);
        Success(t.(subscriptions := t.subscriptions[s := WithStatus(moved, status, now)],
                   invoices := t.invoices[i := inv],
                   outbox := Dispatched(t.outbox, RenewalEvents(r, p, i, paid, now), now),
                   nextId := t.nextId + 1))
  }

  /** The table refuses an intent over nothing. */
  function CreatePaymentIntent(t: Tables, invoice: Id, now: int): Result<Tables, Error> {
    if invoice !in t.invoices then Failure(InvoiceNotFound)
    else
      var r := t.invoices[invoice];
      if r.amount <= 0 then Failure(ConstraintViolated)
      else Success(t.(intents := t.intents[t.nextId := NewPaymentIntent(t.nextId, invoice, r.customer, r.amount, now)],
                      nextId := t.nextId + 1))
  }

  predicate IsFinalAttempt(r: InvoiceRow) {
    r.attemptCount + 1 >= 3
  }

  /** As the source has it: a decline is recorded on the invoice whatever state that is in. */
  function ConfirmPayment(t: Tables, intent: Id, paid: bool, now: int): Result<Tables, Error> {
    if intent !in t.intents then Failure(PaymentIntentNotFound)
    else
      var pi := t.intents[intent];
      if pi.invoice !in t.invoices then Failure(InvoiceNotFound)
      else
        var r := t.invoices[pi.invoice];
        if paid then
          if PaymentError(r).Some? then Failure(PaymentError(r).value)
          else Success(t.(intents := t.intents[intent := SucceededIntent(pi, now)],
                          invoices := t.invoices[pi.invoice := PaidInvoice(r, now)],
                          outbox := Dispatched(t.outbox, ConfirmationEvents(pi, r, true, now), now)))
        else Success(t.(intents := t.intents[intent := FailedIntent(pi, now)],
                        invoices := t.invoices[pi.invoice := FailedInvoice(r, now, IsFinalAttempt(r))],
                        outbox := Dispatched(t.outbox, ConfirmationEvents(pi, r, false, now), now)))
  }

  /** Open past its due date, which is the start of the period it bills; a first invoice has none. */
  predicate IsOverdue(r: InvoiceRow, before: int) {
    r.status.Open? && r.period.Some? && r.period.value.start < before
  }

  /** The worker of due invoices marks an active subscription past due, in the table alone: no event goes out. */
  function ActiveToPastDue(t: Tables, s: Id, now: int): Tables {
    if s in t.subscriptions && t.subscriptions[s].status.Active?
    then t.(subscriptions := t.subscriptions[s := WithStatus(t.subscriptions[s], PastDue, now)])
    else t
  }

  function MarkOverdue(t: Tables, invoice: Id, before: int, now: int): Tables {
    if invoice in t.invoices && IsOverdue(t.invoices[invoice], before)
    then ActiveToPastDue(t, t.invoices[invoice].subscription, now)
    else t
  }
}
