/** What a subscription's status says about the payment of its last renewal, over whole runs. */
module Standing {
  import opened DomainEvents
  import opened OutboxEvents
  import opened Pricing
  import opened Periods
  import opened Transactions
  import opened BillingRuns
  import opened Ledger

  /** An invoice of a renewal of the subscription whose payment has been declined. */
  predicate DeclinedRenewal(t: Tables, s: Id, i: Id) {
    && i in t.invoices && t.invoices[i].subscription == s
    && t.invoices[i].period.Some? && t.invoices[i].attemptCount >= 1
  }

  /** A renewal invoice is open only after a decline. */
  predicate OpenAfterDecline(t: Tables) {
    forall i | i in t.invoices && t.invoices[i].period.Some? && t.invoices[i].status.Open? ::
      t.invoices[i].attemptCount >= 1
  }

  /** A subscription is active, past due or canceled, and past due only if some renewal of it was declined. */
  ghost predicate Explained(t: Tables, s: Id)
    requires s in t.subscriptions
  {
    match t.subscriptions[s].status
    case Active => true
    case PastDue => exists i :: DeclinedRenewal(t, s, i)
    case Canceled => true
    case _ => false
  }

  ghost predicate AllExplained(t: Tables) {
    KnownIds(t) && AllMoneyKept(t) && OpenAfterDecline(t) && forall s | s in t.subscriptions :: Explained(t, s)
  }

  lemma DeclinedStays(t: Tables, op: Op, s: Id, i: Id)
    requires OnTime(t) && KnownIds(t) && DeclinedRenewal(t, s, i)
    ensures DeclinedRenewal(Apply(t, op), s, i)
  {
    hide NextBillingDate, Dispatched, CatchUp, BilledPeriod, OnSchedule, OnTime;
  }

  lemma RenewalExplains(t: Tables, s: Id, paid: bool, now: int)
    requires OnTime(t) && KnownIds(t) && Renews(t, s, now)
    ensures var after := Apply(t, Renew(s, paid, now));
            && s in after.subscriptions
            && after.subscriptions[s].status == (if paid then Active else PastDue)
            && t.nextId in after.invoices
            && (paid ==> after.invoices[t.nextId].status.Paid? && after.invoices[t.nextId].attemptCount == 0)
            && (!paid ==> DeclinedRenewal(after, s, t.nextId))
  {
    hide NextBillingDate, Dispatched, CatchUp, BilledPeriod, OnSchedule;
    PeriodIsProper(t, s);
  }

  lemma NewIsActive(t: Tables, op: Op, s: Id)
    requires OnTime(t) && s !in t.subscriptions && s in Apply(t, op).subscriptions
    ensures Apply(t, op).subscriptions[s].status.Active?
  {
    hide NextBillingDate, Dispatched, CatchUp, BilledPeriod, OnSchedule, OnTime;
  }

  lemma KeepsOpenAfterDecline(t: Tables, op: Op)
    requires OnTime(t) && AllMoneyKept(t) && OpenAfterDecline(t)
    ensures OpenAfterDecline(Apply(t, op))
  {
    hide NextBillingDate, Dispatched, CatchUp, BilledPeriod, OnSchedule, OnTime;
  }

  /** A call that does not renew a subscription leaves it the same last invoice. */
  lemma LastBilledBefore(t: Tables, op: Op, s: Id, i: Id)
    requires OnTime(t) && NoOverlap(t) && s in t.subscriptions
    requires !(op.Renew? && op.subscription == s && Renews(t, s, op.now))
    ensures LastBilled(Apply(t, op), s, i) <==> LastBilled(t, s, i)
  {
    hide Apply, NextBillingDate, CatchUp, BilledPeriod, OnSchedule, InvoicesInOrder, InvoicesApart;
    OnlyRenewalMovesBilling(t, op, s);
    PricesStay(t, op);
    if i in t.invoices {
      PeriodsStay(t, op, i);
    } else if op.Renew? && Renews(t, op.subscription, op.now) {
      RenewalIssues(t, op.subscription, op.paid, op.now);
    } else if LastBilled(Apply(t, op), s, i) {
      OnlyRenewalBills(t, op, i);
    }
  }

  /** The status changes by a renewal, an immediate cancellation, or an invoice of the subscription being overdue. */
  lemma OtherCallsKeepStatus(t: Tables, op: Op, s: Id)
    requires OnTime(t) && s in t.subscriptions && s < t.nextId
    requires !(op.Renew? && op.subscription == s && Renews(t, s, op.now))
    ensures s in Apply(t, op).subscriptions
    ensures var status := Apply(t, op).subscriptions[s].status;
            || status == t.subscriptions[s].status || status.Canceled?
            || (op.Overdue? && status.PastDue? && op.invoice in t.invoices && t.invoices[op.invoice].subscription == s
                && IsOverdue(t.invoices[op.invoice], op.before))
  {
    hide NextBillingDate, Dispatched, CatchUp, BilledPeriod, OnSchedule, OnTime;
  }

  lemma KeepsExplained(t: Tables, op: Op)
    requires OnTime(t) && AllExplained(t)
    ensures AllExplained(Apply(t, op))
  {
    hide Apply, OnTime, Renews, DeclinedRenewal, AllMoneyKept, OpenAfterDecline;
    KeepsKnownIds(t, op);
    KeepsMoney(t, op);
    KeepsOpenAfterDecline(t, op);
    forall s | s in Apply(t, op).subscriptions ensures Explained(Apply(t, op), s) {
      if s !in t.subscriptions {
        NewIsActive(t, op, s);
      } else if op.Renew? && op.subscription == s && Renews(t, s, op.now) {
        RenewalExplains(t, s, op.paid, op.now);
      } else {
        OtherCallsExplain(t, op, s);
      }
    }
  }

  lemma OtherCallsExplain(t: Tables, op: Op, s: Id)
    requires OnTime(t) && AllExplained(t) && s in t.subscriptions
    requires !(op.Renew? && op.subscription == s && Renews(t, s, op.now))
    ensures s in Apply(t, op).subscriptions && Explained(Apply(t, op), s)
  {
    hide Apply, OnTime, Renews, AllMoneyKept;
    OtherCallsKeepStatus(t, op, s);
    forall i | DeclinedRenewal(t, s, i) ensures DeclinedRenewal(Apply(t, op), s, i) {
      DeclinedStays(t, op, s, i);
    }
    if op.Overdue? && op.invoice in t.invoices && IsOverdue(t.invoices[op.invoice], op.before) {
      assert t.invoices[op.invoice].subscription == s ==> DeclinedRenewal(t, s, op.invoice);
    }
  }

  lemma {:induction false} RunsStayExplained(t: Tables, ops: seq<Op>)
    requires OnTime(t) && AllExplained(t)
    ensures AllExplained(Run(t, ops))
    decreases |ops|
  {
    hide Apply, OnTime, AllExplained;
    if ops != [] {
      KeepsExplained(t, ops[0]);
      RunsStayExplained(Apply(t, ops[0]), ops[1..]);
    }
  }

  /**
    After any run of the code as it stands from empty tables, the worker of due invoices included,
    a subscription is active, past due or canceled, and past due only if some renewal of it was
    declined.
   */
  lemma PastDueWasDeclined(t: Tables, ops: seq<Op>, s: Id)
    requires Initial(t) && s in Run(t, ops).subscriptions
    ensures var after := Run(t, ops);
            var status := after.subscriptions[s].status;
            && (status.Active? || status.PastDue? || status.Canceled?)
            && (status.PastDue? ==> exists i :: DeclinedRenewal(after, s, i))
  {
    hide Run;
    RunsStayExplained(t, ops);
    assert Explained(Run(t, ops), s);
  }

  /** The last renewal of an active subscription, if it has had one, was paid at once and is paid. */
  ghost predicate ActiveIsPaid(t: Tables, s: Id)
    requires OnTime(t) && s in t.subscriptions
  {
    t.subscriptions[s].status.Active? ==>
      forall i | LastBilled(t, s, i) :: t.invoices[i].status.Paid? && t.invoices[i].attemptCount == 0
  }

  ghost predicate AllActivePaid(t: Tables)
    requires OnTime(t)
  {
    forall s | s in t.subscriptions :: ActiveIsPaid(t, s)
  }

  /** The call records a decline on the invoice, whatever state that is in. */
  predicate Declines(t: Tables, op: Op, i: Id) {
    op.Confirm? && !op.paid && op.intent in t.intents && t.intents[op.intent].invoice == i && i in t.invoices
  }

  /** The invoice is that of an active subscription's last renewal. */
  ghost predicate SpoilsActive(t: Tables, op: Op)
    requires OnTime(t)
  {
    exists s, i ::
      s in t.subscriptions && t.subscriptions[s].status.Active? && LastBilled(t, s, i) && Declines(t, op, i)
  }

  lemma PaidUnlessDeclined(t: Tables, op: Op, i: Id)
    requires OnTime(t) && KnownIds(t) && i in t.invoices && t.invoices[i].status.Paid? && !Declines(t, op, i)
    ensures i in Apply(t, op).invoices && Apply(t, op).invoices[i] == t.invoices[i]
  {
    hide NextBillingDate, Dispatched, CatchUp, BilledPeriod, OnSchedule, OnTime;
  }

  lemma DeclineUnpays(t: Tables, op: Op, i: Id, s: Id)
    requires OnTime(t) && Declines(t, op, i) && s in t.subscriptions
    ensures i in Apply(t, op).invoices && !Apply(t, op).invoices[i].status.Paid?
    ensures Apply(t, op).subscriptions == t.subscriptions
  {
    hide OnTime, Dispatched;
  }

  lemma OnlyNewInvoiceIsLast(t: Tables, s: Id, paid: bool, now: int, i: Id)
    requires OnTime(t) && NoOverlap(t) && Renews(t, s, now) && LastBilled(Apply(t, Renew(s, paid, now)), s, i)
    ensures i == t.nextId
  {
    hide NextBillingDate, Dispatched, CatchUp, BilledPeriod, OnSchedule;
    if i != t.nextId {
      PeriodIsProper(t, s);
      var r := t.subscriptions[s];
      assert BilledInOrder(t, i);
      BilledPeriodsDisjoint(t.prices[r.price], r.period, now);
      BilledPeriodProper(t.prices[r.price], r.period);
    }
  }

  lemma NewHasNoRenewal(t: Tables, op: Op, s: Id, i: Id)
    requires OnTime(t) && NoOverlap(t) && s !in t.subscriptions && s in Apply(t, op).subscriptions
    ensures !LastBilled(Apply(t, op), s, i)
  {
    hide NextBillingDate, Dispatched, CatchUp, BilledPeriod, OnSchedule;
    assert forall j | j in t.invoices && t.invoices[j].period.Some? :: BilledInOrder(t, j);
  }

  /**
    Exactly when a call of the code as it stands leaves an active subscription whose last renewal
    is not paid: it records a decline on the invoice of that renewal.
   */
  lemma ActivePaidIff(t: Tables, op: Op)
    requires OnTime(t) && NoOverlap(t) && AllActivePaid(t)
    ensures AllActivePaid(Apply(t, op)) <==> !SpoilsActive(t, op)
  {
    hide Apply, OnTime, NoOverlap, LastBilled, Renews;
    if SpoilsActive(t, op) {
      var s, i :|
        s in t.subscriptions && t.subscriptions[s].status.Active? && LastBilled(t, s, i) && Declines(t, op, i);
      DeclineUnpays(t, op, i, s);
      LastBilledBefore(t, op, s, i);
      assert !ActiveIsPaid(Apply(t, op), s);
    } else {
      forall s | s in Apply(t, op).subscriptions ensures ActiveIsPaid(Apply(t, op), s) {
        KeepsActivePaid(t, op, s);
      }
    }
  }

  lemma KeepsActivePaid(t: Tables, op: Op, s: Id)
    requires OnTime(t) && NoOverlap(t) && AllActivePaid(t) && !SpoilsActive(t, op) && s in Apply(t, op).subscriptions
    ensures ActiveIsPaid(Apply(t, op), s)
  {
    hide Apply, OnTime, LastBilled, Renews, InvoicesInOrder, InvoicesApart, Declines;
    var after := Apply(t, op);
    forall i | LastBilled(after, s, i) && after.subscriptions[s].status.Active?
      ensures i in after.invoices && after.invoices[i].status.Paid? && after.invoices[i].attemptCount == 0
    {
      if s !in t.subscriptions {
        NewHasNoRenewal(t, op, s, i);
      } else if op.Renew? && op.subscription == s && Renews(t, s, op.now) {
        OnlyNewInvoiceIsLast(t, s, op.paid, op.now, i);
        RenewalExplains(t, s, op.paid, op.now);
      } else {
        OtherCallsKeepStatus(t, op, s);
        LastBilledBefore(t, op, s, i);
        LastBilledExists(t, s, i);
        assert ActiveIsPaid(t, s);
        PaidUnlessDeclined(t, op, i);
      }
    }
  }

  lemma LastBilledExists(t: Tables, s: Id, i: Id)
    requires OnTime(t) && LastBilled(t, s, i)
    ensures i in t.invoices
  {
  }

  /** A guarded call never declines a paid invoice. */
  lemma GuardedSpoilsNothing(t: Tables, op: Op)
    requires OnTime(t) && AllActivePaid(t) && Guarded(t, op)
    ensures !SpoilsActive(t, op)
  {
    hide OnTime;
  }

  lemma {:induction false} RunsStayPaid(t: Tables, ops: seq<Op>)
    requires OnTime(t) && NoOverlap(t) && AllActivePaid(t)
    ensures AllActivePaid(RunGuarded(t, ops))
    decreases |ops|
  {
    hide Apply, OnTime, NoOverlap, AllActivePaid, SpoilsActive, Guarded;
    if ops != [] {
      if Guarded(t, ops[0]) {
        GuardedSpoilsNothing(t, ops[0]);
        ActivePaidIff(t, ops[0]);
        KeepsNoOverlap(t, ops[0]);
      }
      RunsStayPaid(ApplyGuarded(t, ops[0]), ops[1..]);
    }
  }

  /** After any guarded run from empty tables, the last renewal of an active subscription was paid at once. */
  lemma ActiveWasPaid(t: Tables, ops: seq<Op>, s: Id, i: Id)
    requires Initial(t) && s in RunGuarded(t, ops).subscriptions && LastBilled(RunGuarded(t, ops), s, i)
    requires RunGuarded(t, ops).subscriptions[s].status.Active?
    ensures RunGuarded(t, ops).invoices[i].status.Paid? && RunGuarded(t, ops).invoices[i].attemptCount == 0
  {
    hide RunGuarded;
    RunsStayPaid(t, ops);
    assert ActiveIsPaid(RunGuarded(t, ops), s);
  }

  /**
    Collecting the declined invoice later does not bring a subscription back: whatever calls are
    made, guarded or not, a past due subscription stays so until it is renewed or canceled.
   */
  lemma {:induction false} PastDueUntilRenewed(t: Tables, ops: seq<Op>, s: Id)
    requires OnTime(t) && NoOverlap(t) && NoneRenews(t, ops, s)
    requires s in t.subscriptions && (t.subscriptions[s].status.PastDue? || t.subscriptions[s].status.Canceled?)
    ensures s in Run(t, ops).subscriptions
    ensures Run(t, ops).subscriptions[s].status.PastDue? || Run(t, ops).subscriptions[s].status.Canceled?
    decreases |ops|
  {
    hide Apply, OnTime, Renews;
    if ops != [] {
      KeepsNoOverlap(t, ops[0]);
      OtherCallsKeepStatus(t, ops[0], s);
      PastDueUntilRenewed(Apply(t, ops[0]), ops[1..], s);
    }
  }
}
