/** When a service call fails, and with what, in terms of the rows it finds. */
module Outcomes {
  import opened Wrappers
  import opened DomainEvents
  import opened OutboxEvents
  import opened Pricing
  import opened Periods
  import opened Subscriptions
  import opened Invoices
  import opened PaymentIntents
  import opened Transactions
  import opened BillingRuns

  /** Creation fails for an unknown customer, or else an unknown price, and in no other way. */
  lemma CreateFailsIff(t: Tables, c: Id, p: Id, now: int)
    requires OnTime(t)
    ensures var o := Outcome(t, Create(c, p, now));
            && (o == Failure(CustomerNotFound) <==> c !in t.customers)
            && (o == Failure(PriceNotFound) <==> c in t.customers && p !in t.prices)
            && (o.Success? <==> c in t.customers && p in t.prices)
  {
    hide NextBillingDate, Dispatched, OnTime;
  }

  /** Cancellation, in either mode, fails for a subscription that is unknown or canceled already. */
  lemma CancelFailsIff(t: Tables, s: Id, mode: CancelMode, now: int)
    requires OnTime(t)
    ensures var o := Outcome(t, Cancel(s, mode, now));
            && (o == Failure(SubscriptionNotFound) <==> s !in t.subscriptions)
            && (o == Failure(SubscriptionAlreadyCanceled) <==>
                  s in t.subscriptions && t.subscriptions[s].status == SubscriptionStatus.Canceled)
            && (o.Success? <==> s in t.subscriptions && t.subscriptions[s].status != SubscriptionStatus.Canceled)
  {
    hide Dispatched, OnTime;
  }

  /**
    Renewal fails for an unknown subscription, and for one that is due and canceled or unpaid;
    before the billing date it succeeds and changes nothing.
   */
  lemma RenewFailsIff(t: Tables, s: Id, paid: bool, now: int)
    requires OnTime(t)
    ensures var o := Outcome(t, Renew(s, paid, now));
            && (o == Failure(SubscriptionNotFound) <==> s !in t.subscriptions)
            && (o == Failure(SubscriptionAlreadyCanceled) <==>
                  s in t.subscriptions && t.subscriptions[s].nextBillingAt <= now
                  && t.subscriptions[s].status == SubscriptionStatus.Canceled)
            && (o == Failure(SubscriptionUnpaid) <==>
                  s in t.subscriptions && t.subscriptions[s].nextBillingAt <= now
                  && t.subscriptions[s].status == SubscriptionStatus.Unpaid)
            && (s in t.subscriptions && now < t.subscriptions[s].nextBillingAt ==> o == Success(t))
            && (o.Success? <==>
                  s in t.subscriptions
                  && (now < t.subscriptions[s].nextBillingAt
                      || (t.subscriptions[s].status != SubscriptionStatus.Canceled
                          && t.subscriptions[s].status != SubscriptionStatus.Unpaid)))
  {
    hide NextBillingDate, Dispatched, CatchUp, BilledPeriod, OnSchedule;
    if s in t.subscriptions {
      PeriodIsProper(t, s);
    }
  }

  /** A new intent fails for an invoice that is unknown or over nothing. */
  lemma CreateIntentFailsIff(t: Tables, i: Id, now: int)
    requires OnTime(t)
    ensures var o := Outcome(t, CreateIntent(i, now));
            && (o == Failure(InvoiceNotFound) <==> i !in t.invoices)
            && (o == Failure(ConstraintViolated) <==> i in t.invoices && t.invoices[i].amount <= 0)
            && (o.Success? <==> i in t.invoices && t.invoices[i].amount > 0)
  {
    hide OnTime;
  }

  /**
    A confirmation fails for an intent or an invoice that is unknown, and one that is paid for an
    invoice that is neither open nor a draft; a decline of a known invoice never fails.
   */
  lemma ConfirmFailsIff(t: Tables, q: Id, paid: bool, now: int)
    requires OnTime(t)
    ensures var o := Outcome(t, Confirm(q, paid, now));
            && (o == Failure(PaymentIntentNotFound) <==> q !in t.intents)
            && (o == Failure(InvoiceNotFound) <==> q in t.intents && t.intents[q].invoice !in t.invoices)
            && (q in t.intents && t.intents[q].invoice in t.invoices ==>
                  var status := t.invoices[t.intents[q].invoice].status;
                  && (o == Failure(InvoiceAlreadyPaid) <==> paid && status == Paid)
                  && (o == Failure(InvoiceNotPayable) <==> paid && (status == Uncollectible || status == Void))
                  && (o.Success? <==> !paid || status == Open || status == Draft))
  {
    hide OnTime, Dispatched, ConfirmationEvents;
  }

  /**
    Exactly when the worker of due invoices marks a subscription past due: it is active, and the
    invoice is its own, open, and bills a period that began before the worker's time.
   */
  lemma OverdueIff(t: Tables, i: Id, before: int, now: int, s: Id)
    requires OnTime(t) && s in t.subscriptions
    ensures var after := Apply(t, Overdue(i, before, now));
            && after.subscriptions.Keys == t.subscriptions.Keys
            && (after.subscriptions[s] != t.subscriptions[s] <==>
                  && t.subscriptions[s].status == Active
                  && i in t.invoices && t.invoices[i].subscription == s && t.invoices[i].status == Open
                  && t.invoices[i].period.Some? && t.invoices[i].period.value.start < before)
            && (after.subscriptions[s] != t.subscriptions[s] ==>
                  after.subscriptions[s] == t.subscriptions[s].(status := PastDue, updatedAt := now))
  {
    hide OnTime;
  }

  /** A capture request is refused unless the intent can be captured and the request is within what is left of it. */
  lemma CaptureRefusedIff(r: IntentRow, request: int, now: int)
    ensures var capturing := r.status == RequiresCapture || r.status == Processing;
            && (CaptureError(r, request) == Some(CannotCapture) <==> !capturing)
            && (CaptureError(r, request) == Some(InvalidCaptureAmount) <==>
                  capturing && (request < 1 || r.amountCaptured + request > r.amount))
            && (CaptureError(r, request) == None <==> CapturedIntent(r, request, now).amountCaptured > r.amountCaptured)
  {
  }

  /**
    What a forced cancellation makes of a subscription: canceled, with the time and one event that
    tells whether it was to end with its period; one canceled already stays as it is, in silence.
   */
  lemma ForcedCancellation(r: SubscriptionRow, now: int)
    ensures ForceCanceled(r, now).status == SubscriptionStatus.Canceled
    ensures r.status != SubscriptionStatus.Canceled ==>
              && ForceCanceled(r, now).canceledAt == Some(now) && ForceCanceled(r, now).updatedAt == now
              && ForceCanceled(r, now).period == r.period
              && ForceCancelEvents(r, now) == [SubscriptionCanceled(r.id, r.cancelAtPeriodEnd, now)]
    ensures r.status == SubscriptionStatus.Canceled ==> ForceCanceled(r, now) == r && ForceCancelEvents(r, now) == []
  {
  }
}
