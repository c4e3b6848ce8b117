/** The billing and payment services: each method is one transaction over the tables. */
module Services {
  import opened Wrappers
  import opened DomainEvents
  import opened OutboxEvents
  import opened Pricing
  import opened Periods
  import opened Subscriptions
  import opened Invoices
  import opened PaymentIntents
  import opened Transactions

  class Database {
    var tables: Tables

    constructor (t: Tables)
      ensures tables == t
    {
      tables := t;
    }
  }

  /** What a transaction reports, and the tables it leaves behind. */
  predicate Commits(before: Tables, outcome: Result<Tables, Error>, err: Option<Error>, after: Tables) {
    match outcome
    case Success(t) => err == None && after == t
    case Failure(e) => err == Some(e) && after == before
  }

  class BillingService {
    const db: Database

    constructor (db: Database)
      ensures this.db == db
    {
      this.db := db;
    }

    method CreateSubscription(customer: Id, priceId: Id, now: int) returns (err: Option<Error>)
      modifies db
      ensures Commits(old(db.tables), Transactions.CreateSubscription(old(db.tables), customer, priceId, now),
                      err, db.tables)
    {
      var tx := db.tables;
      if customer !in tx.customers {
        return Some(CustomerNotFound);
      }
      if priceId !in tx.prices {
        return Some(PriceNotFound);
      }
      var price := tx.prices[priceId];
      var nextBilling := NextBillingDate(price, now);
      var sub := new Subscription.New(tx.nextId, customer, priceId, now, nextBilling, now);
      tx := tx.(subscriptions := tx.subscriptions[sub.id := sub.Row()], nextId := tx.nextId + 1);

      var inv := new Invoice.New(tx.nextId, sub.id, customer, price.amount, None, now);
      var paidErr := inv.MarkPaid(now);
      if paidErr.Some? {
        return paidErr;
      }
      tx := tx.(invoices := tx.invoices[inv.id := inv.Row()], nextId := tx.nextId + 1);

      var events := sub.domainEvents.ClearAndReturn();
      var invEvents := inv.domainEvents.ClearAndReturn();
      events := events + invEvents;
      var rows := Dispatch(tx.outbox, events, now);
      assert events == [SubscriptionCreated(sub.id, priceId, nextBilling, now),
                        InvoiceCreated(inv.id, price.amount, now), InvoicePaid(inv.id, price.amount, now)];
      db.tables := tx.(outbox := rows);
      return None;
    }

    method CancelSubscription(s: Id, atPeriodEnd: bool, now: int) returns (err: Option<Error>)
      modifies db
      ensures var mode := if atPeriodEnd then CancelAtPeriodEnd else CancelImmediate;
              Commits(old(db.tables), Transactions.CancelSubscription(old(db.tables), s, mode, now), err, db.tables)
    {
      var tx := db.tables;
      if s !in tx.subscriptions {
        return Some(SubscriptionNotFound);
      }
      var sub := new Subscription.Load(tx.subscriptions[s]);
      var mode := CancelImmediate;
      if atPeriodEnd {
        mode := CancelAtPeriodEnd;
      }
      var cancelErr := sub.Cancel(mode, now);
      if cancelErr.Some? {
        return cancelErr;
      }
      tx := tx.(subscriptions := tx.subscriptions[s := sub.Row()]);
      var events := sub.domainEvents.ClearAndReturn();
      var rows := Dispatch(tx.outbox, events, now);
      db.tables := tx.(outbox := rows);
      return None;
    }

    /** Records the outcome of the payment attempted for an invoice on it and on its subscription. */
    method Settle(sub: Subscription, inv: Invoice, paid: bool, now: int) returns (err: Option<Error>)
      requires sub.domainEvents != inv.domainEvents
      modifies sub, sub.domainEvents, inv, inv.domainEvents
      ensures err == if paid then old(PaymentError(inv.Row())) else None
      ensures paid && err.None? ==>
                && inv.Row() == PaidInvoice(old(inv.Row()), now)
                && inv.domainEvents.pending == old(inv.domainEvents.pending) + [InvoicePaid(inv.id, inv.amount, now)]
                && sub.Row() == WithStatus(old(sub.Row()), Active, now)
                && sub.domainEvents.pending == old(sub.domainEvents.pending) + StatusEvents(old(sub.Row()), Active, now)
      ensures var final := old(IsFinalAttempt(inv.Row()));
              !paid ==>
                && inv.Row() == FailedInvoice(old(inv.Row()), now, final)
                && inv.domainEvents.pending == old(inv.domainEvents.pending)
                                               + [InvoicePaymentFailed(inv.id, inv.amount, now)]
                && sub.Row() == (if final then ForceCanceled(old(sub.Row()), now)
                                 else WithStatus(old(sub.Row()), PastDue, now))
                && sub.domainEvents.pending == old(sub.domainEvents.pending)
                                               + (if final then ForceCancelEvents(old(sub.Row()), now)
                                                  else StatusEvents(old(sub.Row()), PastDue, now))
    {
      if paid {
        err := inv.MarkPaid(now);
        if err.Some? {
          return err;
        }
        sub.MarkPaid(now);
      } else {
        var isFinalAttempt := inv.attemptCount + 1 >= 3;
        if isFinalAttempt {
          sub.MarkCanceled(now);
        } else {
          sub.MarkPastDue(now);
        }
        inv.MarkPaymentFailed(now, isFinalAttempt);
        err := None;
      }
    }

    /** The outcome of the simulated payment is chosen outside. */
    method RenewSubscription(s: Id, paid: bool, now: int) returns (err: Option<Error>)
      requires OnTime(db.tables)
      modifies db
      ensures Commits(old(db.tables), Transactions.RenewSubscription(old(db.tables), s, paid, now), err, db.tables)
    {
      hide NextBillingDate, CatchUp, BilledPeriod, Dispatched;
      var tx := db.tables;
      if s !in tx.subscriptions {
        return Some(SubscriptionNotFound);
      }
      var sub := new Subscription.Load(tx.subscriptions[s]);
      var price := tx.prices[sub.price];
      if sub.nextBillingAt > now {
        return None;
      }
      PeriodIsProper(tx, s);
      var renewed := sub.Renew(now, price, tx.nextId);
      if renewed.Failure? {
        return Some(renewed.error);
      }
      var inv := renewed.value;
      var settleErr := Settle(sub, inv, paid, now);
      if settleErr.Some? {
        return settleErr;
      }
      tx := tx.(invoices := tx.invoices[inv.id := inv.Row()],
                subscriptions := tx.subscriptions[s := sub.Row()],
                nextId := tx.nextId + 1);
      var events := sub.domainEvents.ClearAndReturn();
      var invEvents := inv.domainEvents.ClearAndReturn();
      ghost var moved := RenewedSubscription(old(db.tables).subscriptions[s], price, now);
      assert events == [SubscriptionRenewed(sub.id, inv.id, price.amount, moved.period.end, now)]
                       + StatusEvents(moved, if paid then Active else PastDue, now);
      assert invEvents == [InvoiceCreated(inv.id, price.amount, now),
                           if paid then InvoicePaid(inv.id, price.amount, now)
                           else InvoicePaymentFailed(inv.id, price.amount, now)];
      events := events + invEvents;
      var rows := Dispatch(tx.outbox, events, now);
      db.tables := tx.(outbox := rows);
      return None;
    }
  }

  class PaymentService {
    const db: Database

    constructor (db: Database)
      ensures this.db == db
    {
      this.db := db;
    }

    method CreatePaymentIntent(invoice: Id, now: int) returns (err: Option<Error>)
      modifies db
      ensures Commits(old(db.tables), Transactions.CreatePaymentIntent(old(db.tables), invoice, now), err, db.tables)
    {
      var tx := db.tables;
      if invoice !in tx.invoices {
        return Some(InvoiceNotFound);
      }
      var inv := tx.invoices[invoice];
      var pi := new PaymentIntent.New(tx.nextId, invoice, inv.customer, inv.amount, now);
      if pi.amount <= 0 {
        return Some(ConstraintViolated);
      }
      db.tables := tx.(intents := tx.intents[pi.id := pi.Row()], nextId := tx.nextId + 1);
      return None;
    }

    /** The intent is changed before the invoice is looked at; an error undoes both. */
    method ConfirmPayment(intent: Id, paid: bool, now: int) returns (err: Option<Error>)
      modifies db
      ensures Commits(old(db.tables), Transactions.ConfirmPayment(old(db.tables), intent, paid, now), err, db.tables)
    {
      var tx := db.tables;
      if intent !in tx.intents {
        return Some(PaymentIntentNotFound);
      }
      var pi := new PaymentIntent.Load(tx.intents[intent]);
      if paid {
        pi.MarkSucceeded(now);
      } else {
        pi.MarkFailed(now);
      }
      if pi.invoice !in tx.invoices {
        return Some(InvoiceNotFound);
      }
      var inv := new Invoice.Load(tx.invoices[pi.invoice]);
      if paid {
        var paidErr := inv.MarkPaid(now);
        if paidErr.Some? {
          return paidErr;
        }
      } else {
        var isFinalAttempt := inv.attemptCount + 1 >= 3;
        inv.MarkPaymentFailed(now, isFinalAttempt);
      }
      tx := tx.(invoices := tx.invoices[pi.invoice := inv.Row()], intents := tx.intents[intent := pi.Row()]);
      var piEvents := pi.domainEvents.ClearAndReturn();
      var invEvents := inv.domainEvents.ClearAndReturn();
      var allEvents := piEvents + invEvents;
      var rows := Dispatch(tx.outbox, allEvents, now);
      db.tables := tx.(outbox := rows);
      return None;
    }
  }
}
