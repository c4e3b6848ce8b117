/** Any sequence of service calls as a run of one state machine, and what runs do to billing periods. */
module BillingRuns {
  import opened Wrappers
  import opened DomainEvents
  import opened OutboxEvents
  import opened Pricing
  import opened Periods
  import opened Subscriptions
  import opened Transactions

  /** A call of a service, or a row handled by the worker of due invoices, with the clock reading it sees. */
  datatype Op =
    | Create(customer: Id, price: Id, now: int)
    | Cancel(subscription: Id, mode: CancelMode, now: int)
    | Renew(subscription: Id, paid: bool, now: int)
    | CreateIntent(invoice: Id, now: int)
    | Confirm(intent: Id, paid: bool, now: int)
    | Overdue(invoice: Id, before: int, now: int)

  function Outcome(t: Tables, op: Op): Result<Tables, Error>
    requires OnTime(t)
  {
    match op
    case Create(c, p, now) => CreateSubscription(t, c, p, now)
    case Cancel(s, mode, now) => CancelSubscription(t, s, mode, now)
    case Renew(s, paid, now) => RenewSubscription(t, s, paid, now)
    case CreateIntent(i, now) => CreatePaymentIntent(t, i, now)
    case Confirm(pi, paid, now) => ConfirmPayment(t, pi, paid, now)
    case Overdue(i, before, now) => Success(MarkOverdue(t, i, before, now))
  }

  /** A failed call is rolled back. Every call keeps the billing dates in order. */
  function Apply(t: Tables, op: Op): (after: Tables)
    requires OnTime(t)
    ensures OnTime(after)
  {
    KeepsOnTime(t, op);
    match Outcome(t, op)
    case Success(after) => after
    case Failure(_) => t
  }

  function Run(t: Tables, ops: seq<Op>): (after: Tables)
    requires OnTime(t)
    ensures OnTime(after)
    decreases |ops|
  {
    if ops == [] then t else Run(Apply(t, ops[0]), ops[1..])
  }

  lemma {:induction false} RunAppend(t: Tables, a: seq<Op>, b: seq<Op>)
    requires OnTime(t)
    ensures Run(t, a + b) == Run(Run(t, a), b)
    decreases |a|
  {
    hide OnTime, Apply;
    if a == [] {
      assert a + b == b;
    } else {
      assert (a + b)[1..] == a[1..] + b;
      RunAppend(Apply(t, a[0]), a[1..], b);
    }
  }

  lemma KeepsOnTime(t: Tables, op: Op)
    requires OnTime(t)
    ensures Outcome(t, op).Success? ==> OnTime(Outcome(t, op).value)
  {
    hide NextBillingDate, Dispatched, BilledPeriod;
    match op {
      case Create(c, p, now) =>
      case Cancel(s, mode, now) =>
      case Renew(s, paid, now) =>
        if s in t.subscriptions {
          RenewalAdvances(t, s, now);
        }
      case CreateIntent(i, now) =>
      case Confirm(pi, paid, now) =>
      case Overdue(i, before, now) =>
    }
  }

  lemma RenewalAdvances(t: Tables, s: Id, now: int)
    requires OnTime(t) && s in t.subscriptions
    ensures var r := t.subscriptions[s];
            && r.period.start < r.period.end
            && OnSchedule(t.prices[r.price], CatchUp(t.prices[r.price], r.period, now))
            && r.period.end < CatchUp(t.prices[r.price], r.period, now).end
  {
    PeriodIsProper(t, s);
    var r := t.subscriptions[s];
    CatchUpAdvances(t.prices[r.price], r.period, now);
  }

  /** A renewal is due and allowed. */
  predicate Renews(t: Tables, s: Id, now: int) {
    s in t.subscriptions && t.subscriptions[s].nextBillingAt <= now && RenewError(t.subscriptions[s]).None?
  }

  /**
    What a call does to a subscription's billing: a renewal that is due moves the billing date
    strictly on and keeps the price; nothing else touches either.
   */
  lemma OnlyRenewalMovesBilling(t: Tables, op: Op, s: Id)
    requires OnTime(t) && s in t.subscriptions && s < t.nextId
    ensures var r := t.subscriptions[s];
            && s in Apply(t, op).subscriptions
            && var r' := Apply(t, op).subscriptions[s];
            && r'.price == r.price
            && if op.Renew? && op.subscription == s && Renews(t, s, op.now)
               then (PeriodIsProper(t, s);
                     r'.period == CatchUp(t.prices[r.price], r.period, op.now) && r.nextBillingAt < r'.nextBillingAt)
               else r'.period == r.period && r'.nextBillingAt == r.nextBillingAt
  {
    hide NextBillingDate, Dispatched, CatchUp, BilledPeriod, OnSchedule;
    RenewalAdvances(t, s, op.now);
  }

  /**
    Only an immediate cancellation ever cancels a subscription, and it does so for good: a
    failed renewal is never a final attempt, and cancellation at period end is never acted on.
   */
  lemma CanceledOnlyImmediately(t: Tables, op: Op, s: Id)
    requires OnTime(t) && s in t.subscriptions && s < t.nextId
    ensures s in Apply(t, op).subscriptions
    ensures Apply(t, op).subscriptions[s].status.Canceled?
       <==> t.subscriptions[s].status.Canceled? || CancelsNow(op, s)
  {
    hide NextBillingDate, Dispatched, CatchUp, BilledPeriod, OnSchedule;
  }

  /** The call cancels the subscription at once. */
  predicate CancelsNow(op: Op, s: Id) {
    op.Cancel? && op.subscription == s && op.mode == CancelImmediate
  }

  /** Rows are kept under their identifiers, which have all been handed out. */
  predicate KnownIds(t: Tables) {
    && (forall s | s in t.subscriptions :: s < t.nextId && t.subscriptions[s].id == s)
    && (forall i | i in t.invoices :: i < t.nextId && t.invoices[i].id == i)
    && (forall q | q in t.intents :: q < t.nextId && t.intents[q].id == q)
  }

  lemma KeepsKnownIds(t: Tables, op: Op)
    requires OnTime(t)
    ensures t.nextId <= Apply(t, op).nextId
    ensures KnownIds(t) ==> KnownIds(Apply(t, op))
  {
    hide NextBillingDate, Dispatched, CatchUp, BilledPeriod, OnSchedule, OnTime;
  }

  /**
    Over any run, a subscription ends up canceled if and only if it was to begin with or some
    call of the run cancels it at once; declined payments and cancellations at period end never do.
   */
  lemma {:induction false} CanceledIffAsked(t: Tables, ops: seq<Op>, s: Id)
    requires OnTime(t) && s in t.subscriptions && s < t.nextId
    ensures s in Run(t, ops).subscriptions
    ensures Run(t, ops).subscriptions[s].status.Canceled?
       <==> t.subscriptions[s].status.Canceled? || exists k :: 0 <= k < |ops| && CancelsNow(ops[k], s)
    decreases |ops|
  {
    hide Apply, OnTime;
    if ops != [] {
      CanceledOnlyImmediately(t, ops[0], s);
      KeepsKnownIds(t, ops[0]);
      CanceledIffAsked(Apply(t, ops[0]), ops[1..], s);
      assert forall k :: 0 <= k < |ops| - 1 ==> ops[1..][k] == ops[k + 1];
      assert forall k :: 0 < k < |ops| ==> ops[k] == ops[1..][k - 1];
      assert CancelsNow(ops[0], s) ==> 0 <= 0 < |ops| && CancelsNow(ops[0], s);
      if k :| 0 <= k < |ops| - 1 && CancelsNow(ops[1..][k], s) {
        assert CancelsNow(ops[k + 1], s);
      }
    }
  }

  /**
    At any instant, two calls bring the billing date of a subscription that can be renewed
    past that instant, whatever the payments' outcomes; with a day or week price one does.
   */
  lemma CaughtUpInTwo(t: Tables, s: Id, now: int, paid1: bool, paid2: bool)
    requires OnTime(t) && s in t.subscriptions && RenewError(t.subscriptions[s]).None?
    ensures var t1 := Apply(t, Renew(s, paid1, now));
            var t2 := Apply(t1, Renew(s, paid2, now));
            && s in t1.subscriptions && s in t2.subscriptions
            && t2.subscriptions[s].nextBillingAt > now
            && (FixedLength(t.prices[t.subscriptions[s].price]) ==> t1.subscriptions[s].nextBillingAt > now)
  {
    hide NextBillingDate, Dispatched, CatchUp, BilledPeriod, OnSchedule;
    PeriodIsProper(t, s);
    var r := t.subscriptions[s];
    if r.nextBillingAt <= now {
      TwoRenewalsCatchUp(t.prices[r.price], r.period, now);
    }
  }

  /** The period an invoice bills lies wholly before the next period its subscription bills, or is that one. */
  predicate BilledInOrder(t: Tables, i: Id)
    requires i in t.invoices && t.invoices[i].period.Some?
  {
    var inv := t.invoices[i];
    && inv.subscription in t.subscriptions
    && var r := t.subscriptions[inv.subscription];
    && r.price in t.prices
    && var next := BilledPeriod(t.prices[r.price], r.period);
    && inv.period.value.start < inv.period.value.end
    && (inv.period.value == next || inv.period.value.end <= next.start)
  }

  predicate InvoicesInOrder(t: Tables) {
    forall i | i in t.invoices && t.invoices[i].period.Some? :: BilledInOrder(t, i)
  }

  predicate InvoicesApart(t: Tables) {
    forall i, j | i in t.invoices && j in t.invoices && i < j
                  && t.invoices[i].period.Some? && t.invoices[j].period.Some?
                  && t.invoices[i].subscription == t.invoices[j].subscription ::
      t.invoices[i].period.value.end <= t.invoices[j].period.value.start
  }

  /** Renewal invoices of one subscription follow each other in time and never overlap. */
  predicate NoOverlap(t: Tables) {
    KnownIds(t) && InvoicesInOrder(t) && InvoicesApart(t)
  }

  lemma BilledPeriodProper(p: Price, cur: Period)
    requires p.count >= 1
    ensures BilledPeriod(p, cur).start < BilledPeriod(p, cur).end
  {
    PeriodLength(p, cur.end);
  }

  /** What a renewal leaves of the invoices: those there were, and the new one. */
  lemma RenewalIssues(t: Tables, s: Id, paid: bool, now: int)
    requires OnTime(t) && Renews(t, s, now)
    ensures var after := Apply(t, Renew(s, paid, now));
            var r := t.subscriptions[s];
            && r.period.start < r.period.end
            && after.prices == t.prices && after.subscriptions.Keys == t.subscriptions.Keys
            && after.invoices.Keys == t.invoices.Keys + {t.nextId}
            && after.invoices[t.nextId].subscription == r.id
            && after.invoices[t.nextId].period == Some(BilledPeriod(t.prices[r.price], after.subscriptions[s].period))
            && after.subscriptions[s].period == CatchUp(t.prices[r.price], r.period, now)
            && after.subscriptions[s].price == r.price
            && (forall i | i in t.invoices && i != t.nextId :: after.invoices[i] == t.invoices[i])
            && (forall other | other in t.subscriptions && other != s ::
                  after.subscriptions[other] == t.subscriptions[other])
  {
    hide NextBillingDate, Dispatched, CatchUp, BilledPeriod, OnSchedule;
    PeriodIsProper(t, s);
  }

  /** After a renewal the old invoices of the subscription end by the time the new one starts. */
  lemma RenewalComesAfter(t: Tables, s: Id, paid: bool, now: int, i: Id)
    requires OnTime(t) && KnownIds(t) && Renews(t, s, now)
    requires i in t.invoices && t.invoices[i].period.Some? && BilledInOrder(t, i)
    ensures var after := Apply(t, Renew(s, paid, now));
            && i in after.invoices && after.invoices[i] == t.invoices[i]
            && BilledInOrder(after, i)
            && (t.invoices[i].subscription == s ==>
                  t.invoices[i].period.value.end <= after.invoices[t.nextId].period.value.start)
  {
    hide NextBillingDate, Apply, CatchUp, BilledPeriod, OnSchedule;
    RenewalIssues(t, s, paid, now);
    BilledPeriodsFollow(t, s, now);
  }

  lemma BilledPeriodsFollow(t: Tables, s: Id, now: int)
    requires OnTime(t) && Renews(t, s, now)
    ensures var r := t.subscriptions[s];
            && r.period.start < r.period.end
            && r.price in t.prices
            && var p := t.prices[r.price];
            var next := CatchUp(p, r.period, now);
            && BilledPeriod(p, r.period).start < BilledPeriod(p, r.period).end <= BilledPeriod(p, next).start
            && BilledPeriod(p, next).start < BilledPeriod(p, next).end
  {
    hide NextBillingDate, CatchUp, BilledPeriod, OnSchedule;
    PeriodIsProper(t, s);
    var r := t.subscriptions[s];
    var p := t.prices[r.price];
    BilledPeriodsDisjoint(p, r.period, now);
    BilledPeriodProper(p, r.period);
    BilledPeriodProper(p, CatchUp(p, r.period, now));
  }

  lemma RenewKeepsNoOverlap(t: Tables, s: Id, paid: bool, now: int)
    requires OnTime(t) && NoOverlap(t) && Renews(t, s, now)
    ensures NoOverlap(Apply(t, Renew(s, paid, now)))
  {
    hide NextBillingDate, Apply, CatchUp, BilledPeriod, OnSchedule, OnTime;
    var after := Apply(t, Renew(s, paid, now));
    KeepsKnownIds(t, Renew(s, paid, now));
    RenewalIssues(t, s, paid, now);
    BilledPeriodsFollow(t, s, now);
    forall i | i in t.invoices && t.invoices[i].period.Some?
      ensures after.invoices[i] == t.invoices[i] && BilledInOrder(after, i)
      ensures t.invoices[i].subscription == s ==>
                t.invoices[i].period.value.end <= after.invoices[t.nextId].period.value.start
    {
      assert BilledInOrder(t, i);
      RenewalComesAfter(t, s, paid, now, i);
    }
    assert BilledInOrder(after, t.nextId);
    assert InvoicesInOrder(after);
    assert InvoicesApart(after);
  }

  /** Only a renewal issues an invoice for a period. */
  lemma OnlyRenewalBills(t: Tables, op: Op, i: Id)
    requires OnTime(t) && KnownIds(t) && i in Apply(t, op).invoices && Apply(t, op).invoices[i].period.Some?
    requires !(op.Renew? && Renews(t, op.subscription, op.now))
    ensures i in t.invoices && Apply(t, op).invoices[i].period == t.invoices[i].period
    ensures Apply(t, op).invoices[i].subscription == t.invoices[i].subscription
  {
    hide NextBillingDate, Dispatched, CatchUp, BilledPeriod, OnSchedule, OnTime;
  }

  /** What an invoice bills never changes. */
  lemma PeriodsStay(t: Tables, op: Op, i: Id)
    requires OnTime(t) && KnownIds(t) && i in t.invoices
    ensures i in Apply(t, op).invoices && Apply(t, op).invoices[i].period == t.invoices[i].period
    ensures Apply(t, op).invoices[i].subscription == t.invoices[i].subscription
  {
    hide NextBillingDate, Dispatched, CatchUp, BilledPeriod, OnSchedule, OnTime;
  }

  lemma PricesStay(t: Tables, op: Op)
    requires OnTime(t)
    ensures Apply(t, op).prices == t.prices
  {
    hide NextBillingDate, Dispatched, CatchUp, BilledPeriod, OnSchedule, OnTime;
  }

  lemma KeepsNoOverlap(t: Tables, op: Op)
    requires OnTime(t) && NoOverlap(t)
    ensures NoOverlap(Apply(t, op))
  {
    hide NextBillingDate, Apply, CatchUp, BilledPeriod, OnSchedule, OnTime, Renews;
    if op.Renew? && Renews(t, op.subscription, op.now) {
      RenewKeepsNoOverlap(t, op.subscription, op.paid, op.now);
    } else {
      var after := Apply(t, op);
      KeepsKnownIds(t, op);
      PricesStay(t, op);
      forall i | i in after.invoices && after.invoices[i].period.Some?
        ensures i in t.invoices && after.invoices[i].period == t.invoices[i].period
        ensures after.invoices[i].subscription == t.invoices[i].subscription
        ensures BilledInOrder(after, i)
      {
        OnlyRenewalBills(t, op, i);
        assert BilledInOrder(t, i);
        OnlyRenewalMovesBilling(t, op, t.invoices[i].subscription);
      }
    }
  }

  /** In every run, the renewal invoices of a subscription never overlap. */
  lemma {:induction false} RunsNeverOverlap(t: Tables, ops: seq<Op>)
    requires OnTime(t) && NoOverlap(t)
    ensures NoOverlap(Run(t, ops))
    decreases |ops|
  {
    if ops != [] {
      KeepsNoOverlap(t, ops[0]);
      RunsNeverOverlap(Apply(t, ops[0]), ops[1..]);
    }
  }

  /** The invoice bills the period after the subscription's current one: it is that of the last renewal. */
  predicate LastBilled(t: Tables, s: Id, i: Id)
    requires OnTime(t)
  {
    && s in t.subscriptions && i in t.invoices
    && t.invoices[i].subscription == s
    && t.invoices[i].period == Some(BilledPeriod(t.prices[t.subscriptions[s].price], t.subscriptions[s].period))
  }

  lemma RenewalBillsLast(t: Tables, s: Id, paid: bool, now: int)
    requires OnTime(t) && NoOverlap(t) && Renews(t, s, now)
    ensures LastBilled(Apply(t, Renew(s, paid, now)), s, t.nextId)
  {
    hide NextBillingDate, Dispatched, CatchUp, BilledPeriod, OnSchedule;
    PeriodIsProper(t, s);
  }

  /** None of the calls renews the subscription. */
  predicate NoneRenews(t: Tables, ops: seq<Op>, s: Id)
    requires OnTime(t)
    decreases |ops|
  {
    ops != [] ==>
      && !(ops[0].Renew? && ops[0].subscription == s && Renews(t, s, ops[0].now))
      && NoneRenews(Apply(t, ops[0]), ops[1..], s)
  }

  lemma {:induction false} LastBilledStays(t: Tables, ops: seq<Op>, s: Id, i: Id)
    requires OnTime(t) && NoOverlap(t) && LastBilled(t, s, i) && NoneRenews(t, ops, s)
    ensures LastBilled(Run(t, ops), s, i)
    ensures Run(t, ops).subscriptions[s].period == t.subscriptions[s].period
    ensures Run(t, ops).invoices[i].period == t.invoices[i].period
    decreases |ops|
  {
    hide NextBillingDate, Dispatched, CatchUp, BilledPeriod, OnSchedule, NoOverlap;
    if ops != [] {
      assert i < t.nextId && s < t.nextId by { OldIds(t, s, i); }
      KeepsNoOverlap(t, ops[0]);
      OneCallKeepsLastBilled(t, ops[0], s, i);
      LastBilledStays(Apply(t, ops[0]), ops[1..], s, i);
    }
  }

  lemma OldIds(t: Tables, s: Id, i: Id)
    requires NoOverlap(t) && s in t.subscriptions && i in t.invoices
    ensures i < t.nextId && s < t.nextId
  {
  }

  lemma OneCallKeepsLastBilled(t: Tables, op: Op, s: Id, i: Id)
    requires OnTime(t) && LastBilled(t, s, i) && i < t.nextId && s < t.nextId
    requires !(op.Renew? && op.subscription == s && Renews(t, s, op.now))
    ensures LastBilled(Apply(t, op), s, i)
    ensures Apply(t, op).subscriptions[s].period == t.subscriptions[s].period
    ensures Apply(t, op).invoices[i].period == t.invoices[i].period
  {
    hide NextBillingDate, Dispatched, CatchUp, BilledPeriod, OnSchedule;
    OnlyRenewalMovesBilling(t, op, s);
  }

  /**
    Two renewals of a subscription with any calls but its renewals in between: the second
    invoice starts no earlier than the first ends, and exactly there if and only if no period
    was missed.
   */
  lemma SuccessiveRenewals(t: Tables, s: Id, paid1: bool, now1: int, between: seq<Op>, paid2: bool, now2: int)
    requires OnTime(t) && NoOverlap(t) && Renews(t, s, now1)
    requires var t1 := Apply(t, Renew(s, paid1, now1));
             NoneRenews(t1, between, s) && Renews(Run(t1, between), s, now2)
    ensures var t1 := Apply(t, Renew(s, paid1, now1));
            var t2 := Run(t1, between);
            var t3 := Apply(t2, Renew(s, paid2, now2));
            && LastBilled(t1, s, t.nextId) && LastBilled(t3, s, t2.nextId)
            && var first, second := t1.invoices[t.nextId].period.value, t3.invoices[t2.nextId].period.value;
            && first.end <= second.start
            && (PeriodIsProper(t1, s);
                first.end == second.start <==> Missed(t1.subscriptions[s].period, now2) == 0)
  {
    hide NextBillingDate, Dispatched, CatchUp, BilledPeriod, OnSchedule, NoOverlap, LastBilled, Renews;
    var t1 := Apply(t, Renew(s, paid1, now1));
    KeepsNoOverlap(t, Renew(s, paid1, now1));
    RenewalBillsLast(t, s, paid1, now1);
    LastBilledStays(t1, between, s, t.nextId);
    RunsNeverOverlap(t1, between);
    var t2 := Run(t1, between);
    RenewalBillsLast(t2, s, paid2, now2);
    RenewalsTouch(t2, s, paid2, now2, t.nextId);
  }

  lemma RenewalsTouch(t: Tables, s: Id, paid: bool, now: int, last: Id)
    requires OnTime(t) && NoOverlap(t) && Renews(t, s, now) && LastBilled(t, s, last)
    requires LastBilled(Apply(t, Renew(s, paid, now)), s, t.nextId)
    ensures var next := Apply(t, Renew(s, paid, now)).invoices[t.nextId].period.value;
            && t.invoices[last].period.value.end <= next.start
            && (PeriodIsProper(t, s);
                t.invoices[last].period.value.end == next.start <==> Missed(t.subscriptions[s].period, now) == 0)
  {
    hide NextBillingDate, Dispatched, CatchUp, BilledPeriod, OnSchedule;
    PeriodIsProper(t, s);
    var r := t.subscriptions[s];
    BilledPeriodsDisjoint(t.prices[r.price], r.period, now);
  }
}
