/** The background workers of billing: overdue invoices, and the batch of renewals that are due. */
module BillingWorkers {
  import opened DomainEvents
  import opened OutboxEvents
  import opened Polling
  import opened Pricing
  import opened Periods
  import opened Subscriptions
  import opened Invoices
  import opened Transactions
  import opened Services
  import opened BillingRuns

  function OverdueIds(t: Tables, before: int): set<Id> {
    set i | i in t.invoices && IsOverdue(t.invoices[i], before)
  }

  function DueDate(r: InvoiceRow): int {
    if r.period.Some? then r.period.value.start else 0
  }

  predicate DueNoLater(a: InvoiceRow, b: InvoiceRow) {
    DueDate(a) <= DueDate(b)
  }

  /**
    Open invoices whose billed period has begun, the earliest first and none twice; none is left
    out but for the limit, and those left out are no earlier.
   */
  predicate IsOldestOverdue(t: Tables, ids: seq<Id>, before: int, limit: nat) {
    && |ids| <= limit
    && (forall k | 0 <= k < |ids| ::
          && ids[k] in t.invoices && t.invoices[ids[k]].status == Open
          && t.invoices[ids[k]].period.Some? && t.invoices[ids[k]].period.value.start < before)
    && (forall j, k | 0 <= j < k < |ids| ::
          ids[j] != ids[k]
          && t.invoices[ids[j]].period.value.start <= t.invoices[ids[k]].period.value.start)
    && (forall i | i in t.invoices && t.invoices[i].status == Open && t.invoices[i].period.Some?
                   && t.invoices[i].period.value.start < before && i !in ids ::
          |ids| == limit
          && forall k | 0 <= k < |ids| ::
               t.invoices[ids[k]].period.value.start <= t.invoices[i].period.value.start)
  }

  lemma FetchedIsOldest(t: Tables, ids: seq<Id>, before: int, limit: nat)
    requires IsFetched(t.invoices, OverdueIds(t, before), DueNoLater, limit, ids)
    ensures IsOldestOverdue(t, ids, before, limit)
  {
  }

  /** Handling the invoices of a batch, each at a clock reading of its own. */
  function OverdueCalls(ids: seq<Id>, before: int, nows: nat -> int): (ops: seq<Op>)
    ensures |ops| == |ids|
  {
    seq(|ids|, k requires 0 <= k < |ids| => Overdue(ids[k], before, nows(k)))
  }

  class InvoiceDueWorker {
    const db: Database

    constructor (db: Database)
      ensures this.db == db
    {
      this.db := db;
    }

    /** The subscription is written back outside any transaction, and the event it raised is dropped. */
    method ProcessOverdueInvoice(inv: InvoiceRow, now: int)
      modifies db
      ensures db.tables == ActiveToPastDue(old(db.tables), inv.subscription, now)
    {
      if inv.subscription !in db.tables.subscriptions {
        return;
      }
      var sub := new Subscription.Load(db.tables.subscriptions[inv.subscription]);
      if sub.status == Active {
        sub.MarkPastDue(now);
        db.tables := db.tables.(subscriptions := db.tables.subscriptions[inv.subscription := sub.Row()]);
      }
    }

    /** The longest overdue invoices, each handled once: a run of the corresponding calls. */
    method ProcessOverdueInvoices(before: int, limit: nat, nows: nat -> int) returns (ids: seq<Id>)
      requires OnTime(db.tables)
      modifies db
      ensures IsFetched(old(db.tables).invoices, OverdueIds(old(db.tables), before), DueNoLater, limit, ids)
      ensures IsOldestOverdue(old(db.tables), ids, before, limit)
      ensures db.tables == Run(old(db.tables), OverdueCalls(ids, before, nows))
    {
      hide OnTime;
      ghost var t0 := db.tables;
      var batch;
      ids, batch := Fetch(db.tables.invoices, OverdueIds(db.tables, before), DueNoLater, limit);
      FetchedIsOldest(t0, ids, before, limit);
      ghost var ops := OverdueCalls(ids, before, nows);
      assert ops[0..] == ops;
      var k := 0;
      while k < |batch|
        invariant 0 <= k <= |batch| == |ops|
        invariant OnTime(db.tables) && db.tables.invoices == t0.invoices
        invariant Run(db.tables, ops[k..]) == Run(t0, ops)
      {
        ghost var t := db.tables;
        assert ops[k..][0] == ops[k] && ops[k..][1..] == ops[k + 1..];
        ProcessOverdueInvoice(batch[k], nows(k));
        assert db.tables == Apply(t, ops[k]);
        k := k + 1;
      }
    }
  }

  /** Listed for renewal are active and trialing subscriptions whose billing date has come: no past due one. */
  predicate Listed(r: SubscriptionRow, now: int) {
    (r.status.Active? || r.status.Trialing?) && r.nextBillingAt <= now
  }

  /** Every subscription to be listed, once, in any order. */
  predicate IsRenewalList(t: Tables, subs: seq<Id>, now: int) {
    && (forall s | s in subs :: s in t.subscriptions && Listed(t.subscriptions[s], now))
    && (forall s | s in t.subscriptions && Listed(t.subscriptions[s], now) :: s in subs)
    && (forall j, k | 0 <= j < k < |subs| :: subs[j] != subs[k])
  }

  /** A batch with the clock held still; whether a payment goes through is a free choice for each subscription. */
  function RenewalCalls(subs: seq<Id>, paid: Id -> bool, now: int): (ops: seq<Op>)
    ensures |ops| == |subs|
  {
    seq(|subs|, k requires 0 <= k < |subs| => Renew(subs[k], paid(subs[k]), now))
  }

  function RunBatch(t: Tables, subs: seq<Id>, paid: Id -> bool, now: int): (after: Tables)
    requires OnTime(t)
    ensures OnTime(after)
  {
    Run(t, RenewalCalls(subs, paid, now))
  }

  class SubscriptionRenewalWorker {
    const processor: BillingService

    constructor (processor: BillingService)
      ensures this.processor == processor
    {
      this.processor := processor;
    }

    /** An error with one subscription does not keep the others from being renewed. */
    method ProcessRenewals(subs: seq<Id>, paid: Id -> bool, now: int)
      requires OnTime(processor.db.tables)
      modifies processor.db
      ensures OnTime(old(processor.db.tables))
      ensures processor.db.tables == RunBatch(old(processor.db.tables), subs, paid, now)
    {
      hide OnTime;
      ghost var t0 := processor.db.tables;
      ghost var ops := RenewalCalls(subs, paid, now);
      assert ops[0..] == ops;
      var k := 0;
      while k < |subs|
        invariant 0 <= k <= |subs|
        invariant OnTime(processor.db.tables)
        invariant Run(processor.db.tables, ops[k..]) == Run(t0, ops)
      {
        assert ops[k..][0] == ops[k] && ops[k..][1..] == ops[k + 1..];
        var _ := processor.RenewSubscription(subs[k], paid(subs[k]), now);
        k := k + 1;
      }
    }
  }

  /** The row of a subscription after a renewal call for it, on its own. */
  function RowAfterRenewal(t: Tables, s: Id, paid: bool, now: int): SubscriptionRow
    requires OnTime(t) && s in t.subscriptions
  {
    var r := t.subscriptions[s];
    if !Renews(t, s, now) then r
    else
      PeriodIsProper(t, s);
      WithStatus(RenewedSubscription(r, t.prices[r.price], now), if paid then Active else PastDue, now)
  }

  /** A renewal call leaves the prices and the other subscriptions alone. */
  lemma RenewalIsLocal(t: Tables, s: Id, other: Id, paid: bool, now: int)
    requires OnTime(t) && s in t.subscriptions
    ensures var after := Apply(t, Renew(other, paid, now));
            && after.prices == t.prices && s in after.subscriptions
            && after.subscriptions[s] == if other == s then RowAfterRenewal(t, s, paid, now) else t.subscriptions[s]
  {
    hide NextBillingDate, Dispatched, CatchUp, BilledPeriod, OnSchedule;
  }

  /** In a batch a subscription fares as if it were renewed alone, or not at all if it is not listed. */
  lemma {:induction false} BatchIsLocal(t: Tables, subs: seq<Id>, paid: Id -> bool, now: int, s: Id)
    requires OnTime(t) && s in t.subscriptions
    requires forall j, k | 0 <= j < k < |subs| :: subs[j] != subs[k]
    ensures var after := RunBatch(t, subs, paid, now);
            && after.prices == t.prices && s in after.subscriptions
            && after.subscriptions[s] == if s in subs then RowAfterRenewal(t, s, paid(s), now) else t.subscriptions[s]
    decreases |subs|
  {
    hide OnTime, Apply, NextBillingDate, CatchUp;
    if subs != [] {
      var next := Apply(t, Renew(subs[0], paid(subs[0]), now));
      RenewalIsLocal(t, s, subs[0], paid(subs[0]), now);
      assert RenewalCalls(subs, paid, now)[1..] == RenewalCalls(subs[1..], paid, now);
      BatchIsLocal(next, subs[1..], paid, now, s);
    }
  }

  /**
    Exactly when a batch renews a subscription: it is active or on trial, and its billing date has
    come. It is then active or past due by its payment, and any other stays as it is.
   */
  lemma BatchRenewsIff(t: Tables, subs: seq<Id>, paid: Id -> bool, now: int, s: Id)
    requires OnTime(t) && IsRenewalList(t, subs, now) && s in t.subscriptions
    ensures var r := t.subscriptions[s];
            var after := RunBatch(t, subs, paid, now);
            var listed := (r.status == Active || r.status == Trialing) && r.nextBillingAt <= now;
            && s in after.subscriptions
            && (after.subscriptions[s].nextBillingAt > r.nextBillingAt <==> listed)
            && (!listed ==> after.subscriptions[s] == r)
            && (listed ==> after.subscriptions[s].status == if paid(s) then Active else PastDue)
  {
    hide NextBillingDate, CatchUp, RunBatch, OnTime;
    BatchIsLocal(t, subs, paid, now, s);
    ScheduleOf(t, s);
    RenewalAdvances(t, s, now);
  }

  /**
    Exactly when two batches at one instant bring a listed subscription past it: one renewal is
    enough, or its first payment goes through. A declined payment makes it past due, and no batch
    lists it again.
   */
  lemma TwoBatchesCatchUpIff(t: Tables, first: seq<Id>, paid1: Id -> bool, second: seq<Id>, paid2: Id -> bool,
                             now: int, s: Id)
    requires OnTime(t) && IsRenewalList(t, first, now) && s in first
    requires IsRenewalList(RunBatch(t, first, paid1, now), second, now)
    ensures s in t.subscriptions && s in RunBatch(RunBatch(t, first, paid1, now), second, paid2, now).subscriptions
    ensures t.subscriptions[s].period.start < t.subscriptions[s].period.end
    ensures RunBatch(RunBatch(t, first, paid1, now), second, paid2, now).subscriptions[s].nextBillingAt > now
       <==> paid1(s) || CatchUp(t.prices[t.subscriptions[s].price], t.subscriptions[s].period, now).end > now
  {
    hide NextBillingDate, CatchUp, RunBatch, OnTime;
    var r := t.subscriptions[s];
    var mid := RunBatch(t, first, paid1, now);
    BatchIsLocal(t, first, paid1, now, s);
    BatchIsLocal(mid, second, paid2, now, s);
    PeriodIsProper(t, s);
    PeriodIsProper(mid, s);
    ScheduleOf(t, s);
    TwoRenewalsCatchUp(t.prices[r.price], r.period, now);
  }

  lemma ScheduleOf(t: Tables, s: Id)
    requires OnTime(t) && s in t.subscriptions
    ensures var r := t.subscriptions[s];
            && r.price in t.prices && t.prices[r.price].count >= 1
            && OnSchedule(t.prices[r.price], r.period) && r.nextBillingAt == r.period.end
  {
  }

  /** Batches of renewals, each with the list taken when it begins. */
  datatype Batch = Batch(subs: seq<Id>, paid: Id -> bool, now: int)

  ghost predicate AreBatches(t: Tables, batches: seq<Batch>)
    requires OnTime(t)
    decreases |batches|
  {
    batches != [] ==>
      var b := batches[0];
      IsRenewalList(t, b.subs, b.now) && AreBatches(RunBatch(t, b.subs, b.paid, b.now), batches[1..])
  }

  function RunBatches(t: Tables, batches: seq<Batch>): (after: Tables)
    requires OnTime(t)
    decreases |batches|
  {
    if batches == [] then t
    else RunBatches(RunBatch(t, batches[0].subs, batches[0].paid, batches[0].now), batches[1..])
  }

  /** However many batches follow, a subscription that is past due is never renewed again. */
  lemma {:induction false} PastDueIsNeverRenewed(t: Tables, batches: seq<Batch>, s: Id)
    requires OnTime(t) && AreBatches(t, batches)
    requires s in t.subscriptions && t.subscriptions[s].status.PastDue?
    ensures s in RunBatches(t, batches).subscriptions
    ensures RunBatches(t, batches).subscriptions[s] == t.subscriptions[s]
    decreases |batches|
  {
    hide OnTime, RunBatch;
    if batches != [] {
      var b := batches[0];
      BatchIsLocal(t, b.subs, b.paid, b.now, s);
      PastDueIsNeverRenewed(RunBatch(t, b.subs, b.paid, b.now), batches[1..], s);
    }
  }
}
