/** Who is billed for what: the links between customers, subscriptions, invoices and intents, over whole runs. */
module Ownership {
  import opened DomainEvents
  import opened OutboxEvents
  import opened Pricing
  import opened Periods
  import opened Transactions
  import opened BillingRuns
  import opened Ledger

  /** A subscription is a customer's. */
  predicate SubscriptionOwned(t: Tables, s: Id)
    requires s in t.subscriptions
  {
    t.subscriptions[s].customer in t.customers && t.subscriptions[s].price in t.prices
  }

  /** An invoice bills the customer of its subscription the amount of its price. */
  predicate InvoiceOwned(t: Tables, i: Id)
    requires i in t.invoices
  {
    var inv := t.invoices[i];
    && inv.subscription in t.subscriptions
    && var r := t.subscriptions[inv.subscription];
    && inv.customer == r.customer
    && r.price in t.prices && inv.amount == t.prices[r.price].amount
  }

  /** An intent collects from the customer of its invoice the amount of that. */
  predicate IntentOwned(t: Tables, q: Id)
    requires q in t.intents
  {
    var pi := t.intents[q];
    && pi.invoice in t.invoices
    && pi.customer == t.invoices[pi.invoice].customer
    && pi.amount == t.invoices[pi.invoice].amount > 0
  }

  predicate AllOwned(t: Tables) {
    && KnownIds(t)
    && (forall s | s in t.subscriptions :: SubscriptionOwned(t, s))
    && (forall i | i in t.invoices :: InvoiceOwned(t, i))
    && (forall q | q in t.intents :: IntentOwned(t, q))
  }

  /** No call changes whose a row is, what it is over, or when it was made. */
  predicate Kept(t: Tables, after: Tables) {
    && after.customers == t.customers && after.prices == t.prices
    && (forall s | s in t.subscriptions ::
          && s in after.subscriptions
          && after.subscriptions[s].customer == t.subscriptions[s].customer
          && after.subscriptions[s].price == t.subscriptions[s].price
          && after.subscriptions[s].createdAt == t.subscriptions[s].createdAt)
    && (forall i | i in t.invoices ::
          && i in after.invoices
          && after.invoices[i].subscription == t.invoices[i].subscription
          && after.invoices[i].customer == t.invoices[i].customer
          && after.invoices[i].amount == t.invoices[i].amount
          && after.invoices[i].period == t.invoices[i].period
          && after.invoices[i].createdAt == t.invoices[i].createdAt)
    && (forall q | q in t.intents ::
          && q in after.intents
          && after.intents[q].invoice == t.intents[q].invoice
          && after.intents[q].customer == t.intents[q].customer
          && after.intents[q].amount == t.intents[q].amount
          && after.intents[q].createdAt == t.intents[q].createdAt)
  }

  /** What a call adds is what it was asked for: at most one subscription, one invoice and one intent. */
  predicate AddsAsAsked(t: Tables, op: Op, after: Tables) {
    && (forall s | s in after.subscriptions && s !in t.subscriptions ::
          && op.Create? && s == t.nextId
          && after.subscriptions[s].customer == op.customer
          && after.subscriptions[s].price == op.price
          && after.subscriptions[s].status == Active && !after.subscriptions[s].cancelAtPeriodEnd
          && after.subscriptions[s].period.start == after.subscriptions[s].createdAt == op.now)
    && (forall i | i in after.invoices && i !in t.invoices ::
          && after.invoices[i].createdAt == op.now
          && ((op.Create? && i == t.nextId + 1 && after.invoices[i].subscription == t.nextId
               && after.invoices[i].period.None?)
              || (op.Renew? && i == t.nextId && after.invoices[i].subscription == op.subscription
                  && after.invoices[i].period.Some?)))
    && (forall q | q in after.intents && q !in t.intents ::
          && op.CreateIntent? && q == t.nextId
          && after.intents[q].invoice == op.invoice && after.intents[q].createdAt == op.now
          && after.intents[q].amountCaptured == 0 && !after.intents[q].declined)
  }

  lemma CallKeeps(t: Tables, op: Op)
    requires OnTime(t) && KnownIds(t)
    ensures Kept(t, Apply(t, op))
  {
    hide NextBillingDate, Dispatched, CatchUp, BilledPeriod, OnSchedule, OnTime;
    CallKeepsInvoices(t, op);
    CallKeepsSubscriptions(t, op);
  }

  lemma CallKeepsInvoices(t: Tables, op: Op)
    requires OnTime(t) && KnownIds(t)
    ensures forall i | i in t.invoices ::
              && i in Apply(t, op).invoices
              && Apply(t, op).invoices[i].subscription == t.invoices[i].subscription
              && Apply(t, op).invoices[i].customer == t.invoices[i].customer
              && Apply(t, op).invoices[i].amount == t.invoices[i].amount
              && Apply(t, op).invoices[i].period == t.invoices[i].period
              && Apply(t, op).invoices[i].createdAt == t.invoices[i].createdAt
  {
    hide NextBillingDate, Dispatched, CatchUp, BilledPeriod, OnSchedule, OnTime;
  }

  lemma CallKeepsSubscriptions(t: Tables, op: Op)
    requires OnTime(t) && KnownIds(t)
    ensures forall s | s in t.subscriptions ::
              && s in Apply(t, op).subscriptions
              && Apply(t, op).subscriptions[s].customer == t.subscriptions[s].customer
              && Apply(t, op).subscriptions[s].price == t.subscriptions[s].price
              && Apply(t, op).subscriptions[s].createdAt == t.subscriptions[s].createdAt
  {
    hide NextBillingDate, Dispatched, CatchUp, BilledPeriod, OnSchedule, OnTime;
  }

  lemma CallAddsAsAsked(t: Tables, op: Op)
    requires OnTime(t) && KnownIds(t)
    ensures AddsAsAsked(t, op, Apply(t, op))
  {
    hide NextBillingDate, Dispatched, CatchUp, BilledPeriod, OnSchedule, OnTime;
  }

  /** What is new belongs where it should. */
  lemma NewSubscriptionsOwned(t: Tables, op: Op)
    requires OnTime(t) && AllOwned(t)
    ensures forall s | s in Apply(t, op).subscriptions && s !in t.subscriptions :: SubscriptionOwned(Apply(t, op), s)
  {
    hide NextBillingDate, Dispatched, CatchUp, BilledPeriod, OnSchedule, OnTime, InvoiceOwned, IntentOwned;
  }

  lemma NewInvoicesOwned(t: Tables, op: Op)
    requires OnTime(t) && AllOwned(t)
    ensures forall i | i in Apply(t, op).invoices && i !in t.invoices :: InvoiceOwned(Apply(t, op), i)
  {
    hide NextBillingDate, Dispatched, CatchUp, BilledPeriod, OnSchedule, SubscriptionOwned, IntentOwned;
  }

  lemma NewIntentsOwned(t: Tables, op: Op)
    requires OnTime(t) && AllOwned(t)
    ensures forall q | q in Apply(t, op).intents && q !in t.intents :: IntentOwned(Apply(t, op), q)
  {
    hide NextBillingDate, Dispatched, CatchUp, BilledPeriod, OnSchedule, OnTime, SubscriptionOwned, InvoiceOwned;
  }

  lemma CallKeepsOwned(t: Tables, op: Op)
    requires OnTime(t) && AllOwned(t)
    ensures AllOwned(Apply(t, op))
  {
    hide Apply, OnTime;
    KeepsKnownIds(t, op);
    CallKeeps(t, op);
    NewSubscriptionsOwned(t, op);
    NewInvoicesOwned(t, op);
    NewIntentsOwned(t, op);
    var after := Apply(t, op);
    forall i | i in t.invoices ensures InvoiceOwned(after, i) {
      assert InvoiceOwned(t, i);
    }
    forall q | q in t.intents ensures IntentOwned(after, q) {
      assert IntentOwned(t, q);
    }
    forall s | s in t.subscriptions ensures SubscriptionOwned(after, s) {
      assert SubscriptionOwned(t, s);
    }
  }

  lemma {:induction false} RunsStayOwned(t: Tables, ops: seq<Op>)
    requires OnTime(t) && AllOwned(t)
    ensures AllOwned(Run(t, ops)) && Kept(t, Run(t, ops))
    decreases |ops|
  {
    hide OnTime, Apply, AllOwned, KnownIds;
    if ops != [] {
      CallKeepsOwned(t, ops[0]);
      OwnedIdsKnown(t);
      CallKeeps(t, ops[0]);
      RunsStayOwned(Apply(t, ops[0]), ops[1..]);
    }
  }

  lemma OwnedIdsKnown(t: Tables)
    requires AllOwned(t)
    ensures KnownIds(t)
  {
  }

  /**
    After any run of the code as it stands from empty tables: every subscription is a known
    customer's; every invoice, the first one included, is of a subscription in the table, for its
    customer and over the amount of its price; and every intent is for the customer and over the
    amount of its invoice.
   */
  lemma BilledToOwner(t: Tables, ops: seq<Op>)
    requires Initial(t)
    ensures var after := Run(t, ops);
            && (forall s | s in after.subscriptions :: after.subscriptions[s].customer in t.customers)
            && (forall i | i in after.invoices ::
                  var inv := after.invoices[i];
                  && inv.subscription in after.subscriptions
                  && inv.customer == after.subscriptions[inv.subscription].customer
                  && after.subscriptions[inv.subscription].price in t.prices
                  && inv.amount == t.prices[after.subscriptions[inv.subscription].price].amount)
            && (forall q | q in after.intents ::
                  var pi := after.intents[q];
                  && pi.invoice in after.invoices
                  && pi.customer == after.invoices[pi.invoice].customer
                  && pi.amount == after.invoices[pi.invoice].amount > 0)
  {
    hide Run;
    RunsStayOwned(t, ops);
    var after := Run(t, ops);
    forall i | i in after.invoices ensures InvoiceOwned(after, i) {
    }
    forall q | q in after.intents ensures IntentOwned(after, q) {
    }
  }

  /** Over every run nobody's subscription, invoice or intent becomes somebody else's, or over something else. */
  lemma OwnersStay(t: Tables, first: seq<Op>, rest: seq<Op>)
    requires Initial(t)
    ensures Kept(Run(t, first), Run(t, first + rest))
  {
    hide Run;
    RunsStayOwned(t, first);
    RunAppend(t, first, rest);
    RunsStayOwned(Run(t, first), rest);
  }

  /**
    Exactly when a subscription is flagged to end with its period: a cancellation at period end
    sets the flag, and it stays until an immediate one; neither touches a subscription that is
    canceled already.
   */
  lemma FlaggedIff(t: Tables, op: Op, s: Id)
    requires OnTime(t) && s in t.subscriptions && s < t.nextId
    ensures s in Apply(t, op).subscriptions
    ensures Apply(t, op).subscriptions[s].cancelAtPeriodEnd
       <==> if op.Cancel? && op.subscription == s && t.subscriptions[s].status != Canceled
            then op.mode.CancelAtPeriodEnd? else t.subscriptions[s].cancelAtPeriodEnd
  {
    hide NextBillingDate, Dispatched, CatchUp, BilledPeriod, OnSchedule, OnTime;
  }

  /** Exactly when an intent is marked as declined: it was, or the call declines it. */
  lemma DeclinedIff(t: Tables, op: Op, q: Id)
    requires OnTime(t) && KnownIds(t) && q in t.intents
    ensures q in Apply(t, op).intents
    ensures Apply(t, op).intents[q].declined
       <==> t.intents[q].declined
            || (op.Confirm? && !op.paid && op.intent == q && t.intents[q].invoice in t.invoices)
  {
    hide NextBillingDate, Dispatched, CatchUp, BilledPeriod, OnSchedule, OnTime;
  }

  /** The time of cancellation is recorded exactly for the subscriptions that are canceled. */
  predicate CancellationsDated(t: Tables) {
    forall s | s in t.subscriptions :: t.subscriptions[s].status.Canceled? <==> t.subscriptions[s].canceledAt.Some?
  }

  lemma KeepsCancellationsDated(t: Tables, op: Op)
    requires OnTime(t) && CancellationsDated(t)
    ensures CancellationsDated(Apply(t, op))
  {
    hide NextBillingDate, Dispatched, CatchUp, BilledPeriod, OnSchedule, OnTime;
  }

  lemma {:induction false} RunsKeepCancellationsDated(t: Tables, ops: seq<Op>)
    requires OnTime(t) && CancellationsDated(t)
    ensures CancellationsDated(Run(t, ops))
    decreases |ops|
  {
    hide OnTime, Apply, CancellationsDated;
    if ops != [] {
      KeepsCancellationsDated(t, ops[0]);
      RunsKeepCancellationsDated(Apply(t, ops[0]), ops[1..]);
    }
  }
}
