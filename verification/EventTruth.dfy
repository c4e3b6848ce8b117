/** What the events say, not just how many there are: every row of the log is true of the tables. */
module EventTruth {
  import opened Wrappers
  import opened DomainEvents
  import opened OutboxEvents
  import opened Pricing
  import opened Periods
  import opened Subscriptions
  import opened Transactions
  import opened BillingRuns
  import opened Ledger
  import opened EventLog
  import opened Ownership

  /** What an event says that stays true for good. */
  predicate Truthful(t: Tables, e: Event) {
    match e
    case SubscriptionCreated(s, price, nextBillingAt, on) =>
      && s in t.subscriptions && t.subscriptions[s].price == price && t.subscriptions[s].createdAt == on
      && price in t.prices && nextBillingAt == NextBillingDate(t.prices[price], on)
    case SubscriptionRenewed(s, invoice, amount, newPeriodEnd, on) =>
      && invoice in t.invoices && t.invoices[invoice].subscription == s && t.invoices[invoice].amount == amount
      && t.invoices[invoice].period.Some? && t.invoices[invoice].period.value.start == newPeriodEnd
      && t.invoices[invoice].createdAt == on
    case SubscriptionUpdated(s, _, _, _) => s in t.subscriptions
    case SubscriptionCanceled(s, atPeriodEnd, on) =>
      && s in t.subscriptions && t.subscriptions[s].status.Canceled? && t.subscriptions[s].canceledAt == Some(on)
      && !atPeriodEnd && !t.subscriptions[s].cancelAtPeriodEnd
    case InvoiceCreated(i, amount, on) =>
      i in t.invoices && t.invoices[i].amount == amount && t.invoices[i].createdAt == on
    case InvoicePaid(i, amount, _) => i in t.invoices && t.invoices[i].amount == amount
    case InvoicePaymentFailed(i, amount, _) =>
      i in t.invoices && t.invoices[i].amount == amount && t.invoices[i].attemptCount >= 1
    case PaymentIntentSucceeded(q, invoice, amount, _) =>
      q in t.intents && t.intents[q].invoice == invoice && t.intents[q].amount == amount
    case PaymentIntentFailed(q, invoice, amount, _) =>
      q in t.intents && t.intents[q].invoice == invoice && t.intents[q].amount == amount && t.intents[q].declined
  }

  /** What an event says of the moment it was written. */
  predicate Current(t: Tables, e: Event) {
    match e
    case SubscriptionCreated(s, _, nextBillingAt, on) =>
      && s in t.subscriptions && t.subscriptions[s].status.Active?
      && t.subscriptions[s].nextBillingAt == nextBillingAt && t.subscriptions[s].updatedAt == on
    case SubscriptionRenewed(s, _, _, newPeriodEnd, on) =>
      s in t.subscriptions && t.subscriptions[s].nextBillingAt == newPeriodEnd && t.subscriptions[s].updatedAt == on
    case SubscriptionUpdated(s, status, cancelAtPeriodEnd, on) =>
      && s in t.subscriptions && t.subscriptions[s].status == status
      && t.subscriptions[s].cancelAtPeriodEnd == cancelAtPeriodEnd && t.subscriptions[s].updatedAt == on
    case SubscriptionCanceled(s, _, on) => s in t.subscriptions && t.subscriptions[s].updatedAt == on
    case InvoiceCreated(i, _, on) => i in t.invoices && t.invoices[i].updatedAt == on
    case InvoicePaid(i, amount, on) =>
      && i in t.invoices && t.invoices[i].status.Paid? && t.invoices[i].amountPaid == amount
      && t.invoices[i].attemptedAt == Some(on) && t.invoices[i].updatedAt == on
    case InvoicePaymentFailed(i, _, on) =>
      && i in t.invoices && (t.invoices[i].status.Open? || t.invoices[i].status.Uncollectible?)
      && t.invoices[i].attemptedAt == Some(on) && t.invoices[i].updatedAt == on
    case PaymentIntentSucceeded(q, _, amount, on) =>
      && q in t.intents && t.intents[q].status.Succeeded? && t.intents[q].amountCaptured == amount
      && t.intents[q].updatedAt == on
    case PaymentIntentFailed(q, _, _, on) =>
      q in t.intents && t.intents[q].status.RequiresPaymentMethod? && t.intents[q].updatedAt == on
  }

  /** The time every event carries is that of the call. */
  predicate Told(after: Tables, op: Op, e: Event) {
    Truthful(after, e) && Current(after, e) && e.occurredOn == op.now
  }

  lemma CreationTellsTruth(t: Tables, op: Op, e: Event)
    requires OnTime(t) && KnownIds(t) && op.Create? && e in Narrative(t, op)
    ensures Told(Apply(t, op), op, e)
  {
    hide NextBillingDate, Dispatched, OnSchedule, OnTime;
  }

  lemma CancelTellsTruth(t: Tables, op: Op, e: Event)
    requires OnTime(t) && KnownIds(t) && op.Cancel? && e in Narrative(t, op)
    ensures Told(Apply(t, op), op, e)
  {
    hide NextBillingDate, Dispatched, OnSchedule, OnTime;
  }

  lemma ConfirmTellsTruth(t: Tables, op: Op, e: Event)
    requires OnTime(t) && KnownIds(t) && AllMoneyKept(t) && op.Confirm? && e in Narrative(t, op)
    ensures Told(Apply(t, op), op, e)
  {
    hide NextBillingDate, Dispatched, OnSchedule, OnTime;
  }

  lemma RenewTellsTruth(t: Tables, op: Op, e: Event)
    requires OnTime(t) && KnownIds(t) && op.Renew? && e in Narrative(t, op)
    ensures Told(Apply(t, op), op, e)
  {
    hide NextBillingDate, Dispatched, OnSchedule, CatchUp, RenewError, Renews;
    if Renews(t, op.subscription, op.now) {
      RenewalRowsAfter(t, op.subscription, op.paid, op.now);
      RenewalEventsAre(t, op);
    } else {
      UndueRenewalIsSilent(t, op);
    }
  }

  /** The rows a renewal leaves. */
  lemma RenewalRowsAfter(t: Tables, s: Id, paid: bool, now: int)
    requires OnTime(t) && KnownIds(t) && Renews(t, s, now)
    ensures var after := Apply(t, Renew(s, paid, now));
            && s in after.subscriptions && t.nextId in after.invoices
            && var r, inv := after.subscriptions[s], after.invoices[t.nextId];
            && t.subscriptions[s].period.start < t.subscriptions[s].period.end
            && r.nextBillingAt == CatchUp(t.prices[r.price], t.subscriptions[s].period, now).end
            && r.status == (if paid then Active else PastDue) && r.updatedAt == now
            && r.cancelAtPeriodEnd == t.subscriptions[s].cancelAtPeriodEnd
            && inv.subscription == s && inv.amount == t.prices[r.price].amount && inv.createdAt == now
            && inv.period.Some? && inv.period.value.start == r.nextBillingAt
            && inv.attemptedAt == Some(now) && inv.updatedAt == now
            && (if paid then inv.status.Paid? && inv.amountPaid == inv.amount
                else inv.status.Open? && inv.attemptCount == 1)
            && r.price == t.subscriptions[s].price
  {
    hide NextBillingDate, Dispatched, OnSchedule, CatchUp;
    PeriodIsProper(t, s);
  }

  lemma RenewalEventsAre(t: Tables, op: Op)
    requires OnTime(t) && KnownIds(t) && op.Renew? && Renews(t, op.subscription, op.now)
    ensures var r := t.subscriptions[op.subscription];
            var amount := t.prices[r.price].amount;
            && r.period.start < r.period.end
            && forall e | e in Narrative(t, op) ::
                 || e == SubscriptionRenewed(op.subscription, t.nextId, amount,
                                             CatchUp(t.prices[r.price], r.period, op.now).end, op.now)
                 || e == SubscriptionUpdated(op.subscription, if op.paid then Active else PastDue,
                                             r.cancelAtPeriodEnd, op.now)
                 || e == InvoiceCreated(t.nextId, amount, op.now)
                 || (op.paid && e == InvoicePaid(t.nextId, amount, op.now))
                 || (!op.paid && e == InvoicePaymentFailed(t.nextId, amount, op.now))
  {
    hide NextBillingDate, Dispatched, OnSchedule, CatchUp, BilledPeriod;
    PeriodIsProper(t, op.subscription);
  }

  /** A call's events are true of the tables it leaves, carry its time, and describe the rows as it leaves them. */
  lemma CallTellsTruth(t: Tables, op: Op, e: Event)
    requires OnTime(t) && KnownIds(t) && AllMoneyKept(t) && e in Narrative(t, op)
    ensures Told(Apply(t, op), op, e)
  {
    hide Apply, OnTime, KnownIds, AllMoneyKept, Told, CreationEvents, CancelEvents, RenewalEvents, ConfirmationEvents;
    match op {
      case Create(c, p, now) => CreationTellsTruth(t, op, e);
      case Cancel(s, mode, now) => CancelTellsTruth(t, op, e);
      case Renew(s, paid, now) => RenewTellsTruth(t, op, e);
      case Confirm(q, paid, now) => ConfirmTellsTruth(t, op, e);
      case _ =>
    }
  }

  lemma CancellationStays(t: Tables, op: Op, s: Id)
    requires OnTime(t) && KnownIds(t) && s in t.subscriptions && t.subscriptions[s].status.Canceled?
    ensures s in Apply(t, op).subscriptions && Apply(t, op).subscriptions[s] == t.subscriptions[s]
  {
    hide NextBillingDate, Dispatched, CatchUp, BilledPeriod, OnSchedule, OnTime;
  }

  lemma DeclinesStay(t: Tables, op: Op, q: Id)
    requires OnTime(t) && KnownIds(t) && q in t.intents && t.intents[q].declined
    ensures q in Apply(t, op).intents && Apply(t, op).intents[q].declined
  {
    hide NextBillingDate, Dispatched, CatchUp, BilledPeriod, OnSchedule, OnTime;
  }

  lemma AttemptsStay(t: Tables, op: Op, i: Id)
    requires OnTime(t) && KnownIds(t) && i in t.invoices
    ensures i in Apply(t, op).invoices && Apply(t, op).invoices[i].attemptCount >= t.invoices[i].attemptCount
  {
    hide NextBillingDate, Dispatched, CatchUp, BilledPeriod, OnSchedule, OnTime;
  }

  lemma TruthStays(t: Tables, op: Op, e: Event)
    requires OnTime(t) && KnownIds(t) && Truthful(t, e)
    ensures Truthful(Apply(t, op), e)
  {
    hide Apply, OnTime, NextBillingDate, KnownIds;
    CallKeeps(t, op);
    match e {
      case SubscriptionCanceled(s, _, _) => CancellationStays(t, op, s);
      case PaymentIntentFailed(q, _, _, _) => DeclinesStay(t, op, q);
      case InvoicePaymentFailed(i, _, _) => AttemptsStay(t, op, i);
      case _ =>
    }
  }

  predicate AllTruthful(t: Tables) {
    forall e | e in EventsOf(t.outbox) :: Truthful(t, e)
  }

  lemma CallKeepsTruth(t: Tables, op: Op)
    requires OnTime(t) && KnownIds(t) && AllMoneyKept(t) && AllTruthful(t)
    ensures AllTruthful(Apply(t, op))
  {
    hide Apply, OnTime, KnownIds, AllMoneyKept, Truthful, Current, Narrative, EventsOf;
    CallTellsNarrative(t, op);
    forall e | e in EventsOf(Apply(t, op).outbox) ensures Truthful(Apply(t, op), e) {
      if e in EventsOf(t.outbox) {
        TruthStays(t, op, e);
      } else {
        CallTellsTruth(t, op, e);
      }
    }
  }

  lemma {:induction false} RunsStayTruthful(t: Tables, ops: seq<Op>)
    requires OnTime(t) && KnownIds(t) && AllMoneyKept(t) && AllTruthful(t)
    ensures AllTruthful(Run(t, ops))
    decreases |ops|
  {
    hide OnTime, Apply, KnownIds, AllMoneyKept, AllTruthful;
    if ops != [] {
      CallKeepsTruth(t, ops[0]);
      KeepsKnownIds(t, ops[0]);
      KeepsMoney(t, ops[0]);
      RunsStayTruthful(Apply(t, ops[0]), ops[1..]);
    }
  }

  /** After any run of the code as it stands from empty tables, every row of the log is true of the tables. */
  lemma LogIsTruthful(t: Tables, ops: seq<Op>, e: Event)
    requires Initial(t) && e in EventsOf(Run(t, ops).outbox)
    ensures Truthful(Run(t, ops), e)
  {
    hide Run, Truthful, EventsOf;
    EmptyLog(t);
    RunsStayTruthful(t, ops);
  }

  lemma EmptyLog(t: Tables)
    requires Initial(t)
    ensures AllTruthful(t)
  {
    assert EventsOf(t.outbox) == [];
  }

  /** How many renewals, status updates and failed intents a call announces. */
  function AnnouncedRows(t: Tables, op: Op, ty: EventType, id: Id): nat
    requires OnTime(t)
  {
    match ty
    case EventSubscriptionRenewed => One(op.Renew? && op.subscription == id && Renews(t, id, op.now))
    case EventSubscriptionUpdated =>
      One(id in t.subscriptions
          && ((op.Renew? && op.subscription == id && Renews(t, id, op.now)
               && t.subscriptions[id].status != if op.paid then Active else PastDue)
              || (op.Cancel? && op.subscription == id && op.mode.CancelAtPeriodEnd?
                  && t.subscriptions[id].status != Canceled)))
    case EventPaymentIntentFailed =>
      One(op.Confirm? && !op.paid && op.intent == id && id in t.intents && t.intents[id].invoice in t.invoices)
    case _ => 0
  }

  /**
    The events that the tables do not count: one renewed row for each renewal, one updated row for
    each change of status or flag that is announced, and one failed row for each decline.
   */
  lemma CallAnnounces(t: Tables, op: Op, ty: EventType, id: Id)
    requires OnTime(t) && KnownIds(t)
    requires ty.EventSubscriptionRenewed? || ty.EventSubscriptionUpdated? || ty.EventPaymentIntentFailed?
    ensures Count(Narrative(t, op), ty, id) == AnnouncedRows(t, op, ty, id)
  {
    hide Count, Narrative, OnTime, Renews, NextBillingDate;
    if Outcome(t, op).Failure? {
      FailedCallIsSilent(t, op);
      FailedAnnouncesNothing(t, op, ty, id);
    } else if op.Renew? {
      RenewAnnounces(t, op, ty, id);
    } else {
      OthersAnnounce(t, op, ty, id);
    }
  }

  lemma FailedAnnouncesNothing(t: Tables, op: Op, ty: EventType, id: Id)
    requires OnTime(t) && Outcome(t, op).Failure?
    ensures AnnouncedRows(t, op, ty, id) == 0
  {
    hide NextBillingDate, CatchUp, BilledPeriod, Dispatched;
  }

  lemma RenewAnnounces(t: Tables, op: Op, ty: EventType, id: Id)
    requires OnTime(t) && KnownIds(t) && op.Renew? && Outcome(t, op).Success?
    requires ty.EventSubscriptionRenewed? || ty.EventSubscriptionUpdated? || ty.EventPaymentIntentFailed?
    ensures Count(Narrative(t, op), ty, id) == AnnouncedRows(t, op, ty, id)
  {
    hide Count, NextBillingDate, CatchUp, BilledPeriod, Dispatched, OnSchedule;
    CountUpToFour(Narrative(t, op), ty, id);
  }

  lemma OthersAnnounce(t: Tables, op: Op, ty: EventType, id: Id)
    requires OnTime(t) && KnownIds(t) && !op.Renew? && Outcome(t, op).Success?
    requires ty.EventSubscriptionRenewed? || ty.EventSubscriptionUpdated? || ty.EventPaymentIntentFailed?
    ensures Count(Narrative(t, op), ty, id) == AnnouncedRows(t, op, ty, id)
  {
    hide Count, NextBillingDate, Dispatched, OnTime;
    CountUpToFour(Narrative(t, op), ty, id);
  }

  /** The event is about a row that another event announced. */
  predicate NeedsIntroduction(e: Event) {
    || e.InvoicePaid? || e.InvoicePaymentFailed?
    || e.SubscriptionRenewed? || e.SubscriptionUpdated? || e.SubscriptionCanceled?
  }

  predicate Introduces(d: Event, e: Event) {
    if e.InvoicePaid? || e.InvoicePaymentFailed? then d.InvoiceCreated? && d.AggregateId() == e.AggregateId()
    else d.SubscriptionCreated? && d.AggregateId() == e.AggregateId()
  }

  /** Before it is paid, declined, renewed, updated or canceled, a row is created. */
  ghost predicate WellOrdered(log: seq<Event>) {
    forall k | 0 <= k < |log| && NeedsIntroduction(log[k]) :: exists j :: 0 <= j < k && Introduces(log[j], log[k])
  }

  lemma {:induction false} CountedIsThere(log: seq<Event>, ty: EventType, id: Id) returns (k: nat)
    requires Count(log, ty, id) > 0
    ensures k < |log| && log[k].Type() == ty && log[k].AggregateId() == id
    decreases |log|
  {
    if Hit(log[0], ty, id) == 1 {
      k := 0;
    } else {
      var j := CountedIsThere(log[1..], ty, id);
      k := j + 1;
    }
  }

  /** In a call's own events, what is new comes before what is said of it. */
  lemma NewIsIntroduced(t: Tables, op: Op, k: nat)
    requires OnTime(t) && KnownIds(t) && k < |Narrative(t, op)| && NeedsIntroduction(Narrative(t, op)[k])
    ensures var e := Narrative(t, op)[k];
            || (exists j :: 0 <= j < k && Introduces(Narrative(t, op)[j], e))
            || ((e.InvoicePaid? || e.InvoicePaymentFailed?) && e.invoice in t.invoices)
            || (!e.InvoicePaid? && !e.InvoicePaymentFailed? && e.subscription in t.subscriptions)
  {
    hide NextBillingDate, CatchUp, BilledPeriod, OnSchedule, Dispatched;
    var events := Narrative(t, op);
    if op.Create? {
      assert Introduces(events[1], events[2]);
    } else if op.Renew? && (events[k].InvoicePaid? || events[k].InvoicePaymentFailed?) {
      assert Introduces(events[k - 1], events[k]);
    }
  }

  lemma CallKeepsOrder(t: Tables, op: Op)
    requires OnTime(t) && KnownIds(t) && WellOrdered(EventsOf(t.outbox))
    requires AgreesOn(t, EventInvoiceCreated) && AgreesOn(t, EventSubscriptionCreated)
    ensures WellOrdered(EventsOf(Apply(t, op).outbox))
  {
    hide OnTime, KnownIds, Apply, Narrative, Count, EventsOf;
    CallTellsNarrative(t, op);
    var log, events := EventsOf(t.outbox), Narrative(t, op);
    var all := log + events;
    forall k | 0 <= k < |all| && NeedsIntroduction(all[k])
      ensures exists j :: 0 <= j < k && Introduces(all[j], all[k])
    {
      if k < |log| {
        var j :| 0 <= j < k && Introduces(log[j], log[k]);
        assert Introduces(all[j], all[k]);
      } else {
        NewIsIntroduced(t, op, k - |log|);
        var e := all[k];
        if j :| 0 <= j < k - |log| && Introduces(events[j], e) {
          assert Introduces(all[|log| + j], e);
        } else if e.InvoicePaid? || e.InvoicePaymentFailed? {
          assert Expected(t, EventInvoiceCreated, e.invoice) == 1;
          var j := CountedIsThere(log, EventInvoiceCreated, e.invoice);
          assert Introduces(all[j], e);
        } else {
          assert Expected(t, EventSubscriptionCreated, e.subscription) == 1;
          var j := CountedIsThere(log, EventSubscriptionCreated, e.subscription);
          assert Introduces(all[j], e);
        }
      }
    }
  }

  lemma {:induction false} RunsKeepOrder(t: Tables, ops: seq<Op>)
    requires OnTime(t) && KnownIds(t) && WellOrdered(EventsOf(t.outbox))
    requires AgreesOn(t, EventInvoiceCreated) && AgreesOn(t, EventSubscriptionCreated)
    ensures WellOrdered(EventsOf(Run(t, ops).outbox))
    decreases |ops|
  {
    hide OnTime, Apply, KnownIds, AgreesOn, WellOrdered, EventsOf;
    if ops != [] {
      CallKeepsOrder(t, ops[0]);
      KeepsKnownIds(t, ops[0]);
      CallKeepsAgreement(t, ops[0], EventInvoiceCreated);
      CallKeepsAgreement(t, ops[0], EventSubscriptionCreated);
      RunsKeepOrder(Apply(t, ops[0]), ops[1..]);
    }
  }

  /**
    After any run of the code as it stands from empty tables, a row of the log about an invoice
    being paid or declined, or a subscription being renewed, updated or canceled, comes after the
    row of its creation.
   */
  lemma LogIsInOrder(t: Tables, ops: seq<Op>, k: nat)
    requires Initial(t) && k < |EventsOf(Run(t, ops).outbox)|
    ensures var log := EventsOf(Run(t, ops).outbox);
            && (log[k].InvoicePaid? || log[k].InvoicePaymentFailed? ==>
                  exists j :: 0 <= j < k && log[j].InvoiceCreated? && log[j].invoice == log[k].invoice)
            && (log[k].SubscriptionRenewed? || log[k].SubscriptionUpdated? || log[k].SubscriptionCanceled? ==>
                  exists j :: 0 <= j < k && log[j].SubscriptionCreated? && log[j].subscription == log[k].subscription)
  {
    hide Run, Count;
    InitialAgrees(t, EventInvoiceCreated);
    InitialAgrees(t, EventSubscriptionCreated);
    RunsKeepOrder(t, ops);
    var log := EventsOf(Run(t, ops).outbox);
    if NeedsIntroduction(log[k]) {
      var j :| 0 <= j < k && Introduces(log[j], log[k]);
    }
  }
}
