/** When the code as it stands collects an invoice a second time, counted by the paid rows in the outbox. */
module Recollection {
  import opened DomainEvents
  import opened OutboxEvents
  import opened Pricing
  import opened Periods
  import opened Subscriptions
  import opened Invoices
  import opened Transactions
  import opened BillingRuns
  import opened Ledger
  import opened EventLog

  /** How often the invoice was collected, by the rows that say so. */
  function Collections(t: Tables, i: Id): nat {
    Count(EventsOf(t.outbox), EventInvoicePaid, i)
  }

  /** A decline cannot make the invoice payable again: it is the last straw, or there is nothing to decline. */
  predicate Closed(t: Tables, i: Id) {
    && i in t.invoices && !CanBePaid(t.invoices[i])
    && (t.invoices[i].attemptCount >= 2
        || (t.invoices[i].amount <= 0 && forall q | q in t.intents :: t.intents[q].invoice != i))
  }

  lemma StaysClosed(t: Tables, op: Op, i: Id)
    requires OnTime(t) && KnownIds(t) && Closed(t, i)
    ensures Closed(Apply(t, op), i)
  {
    hide NextBillingDate, Dispatched, CatchUp, BilledPeriod, OnSchedule, OnTime;
  }

  /** The events of a call without an event about the invoice being paid. */
  lemma NotCollected(t: Tables, op: Op, i: Id)
    requires OnTime(t) && KnownIds(t) && Closed(t, i)
    ensures Count(Narrative(t, op), EventInvoicePaid, i) == 0
  {
    hide OnTime, Apply, Count, Narrative, Renews, RenewError;
    if Outcome(t, op).Failure? {
      FailedCallIsSilent(t, op);
    } else {
      match op {
        case Create(c, p, now) => CreationCounts(t, op, EventInvoicePaid, i);
        case Cancel(s, mode, now) => CancelCounts(t, op, EventInvoicePaid, i);
        case Renew(s, paid, now) =>
          if Renews(t, s, now) {
            RenewalCounts(t, op, EventInvoicePaid, i);
          } else {
            UndueRenewalIsSilent(t, op);
          }
        case Confirm(q, paid, now) => ConfirmationCounts(t, op, EventInvoicePaid, i);
        case _ => SilentCalls(t, op, EventInvoicePaid, i);
      }
    }
  }

  lemma {:induction false} NeverCollected(t: Tables, ops: seq<Op>, i: Id)
    requires OnTime(t) && KnownIds(t) && Closed(t, i)
    ensures Collections(Run(t, ops), i) == Collections(t, i)
    decreases |ops|
  {
    hide OnTime, Apply, Closed, Count, Narrative, EventsOf, KnownIds;
    if ops != [] {
      var next := Apply(t, ops[0]);
      StaysClosed(t, ops[0], i);
      KeepsKnownIds(t, ops[0]);
      NotCollected(t, ops[0], i);
      CollectionsAfter(t, ops[0], i);
      NeverCollected(next, ops[1..], i);
    }
  }

  lemma CollectionsAfter(t: Tables, op: Op, i: Id)
    requires OnTime(t)
    ensures Collections(Apply(t, op), i) == Collections(t, i) + Count(Narrative(t, op), EventInvoicePaid, i)
  {
    hide OnTime, Apply, Count, Narrative, EventsOf;
    CallTellsNarrative(t, op);
    CountAppend(EventsOf(t.outbox), Narrative(t, op), EventInvoicePaid, i);
  }

  /** With less than two failed attempts: a new intent, declined and then confirmed. */
  function CollectingCalls(t: Tables, i: Id): seq<Op> {
    [CreateIntent(i, 0), Confirm(t.nextId, false, 0), Confirm(t.nextId, true, 0)]
  }

  lemma IntentIsThere(t: Tables, i: Id)
    requires OnTime(t) && KnownIds(t) && i in t.invoices && t.invoices[i].amount > 0
    ensures var next := Apply(t, CreateIntent(i, 0));
            && KnownIds(next) && next.invoices == t.invoices && Collections(next, i) == Collections(t, i)
            && t.nextId in next.intents && next.intents[t.nextId].invoice == i
  {
    hide OnTime, Count, EventsOf;
    KeepsKnownIds(t, CreateIntent(i, 0));
  }

  lemma DeclineReopens(t: Tables, i: Id, q: Id)
    requires OnTime(t) && KnownIds(t) && i in t.invoices && t.invoices[i].attemptCount <= 1
    requires q in t.intents && t.intents[q].invoice == i
    ensures var next := Apply(t, Confirm(q, false, 0));
            && KnownIds(next) && Collections(next, i) == Collections(t, i)
            && i in next.invoices && next.invoices[i].status.Open?
            && q in next.intents && next.intents[q].invoice == i
  {
    hide OnTime, Count, EventsOf, Dispatched, ConfirmationEvents;
    KeepsKnownIds(t, Confirm(q, false, 0));
    ConfirmationCounts(t, Confirm(q, false, 0), EventInvoicePaid, i);
    CollectionsAfter(t, Confirm(q, false, 0), i);
  }

  lemma ConfirmCollects(t: Tables, i: Id, q: Id)
    requires OnTime(t) && KnownIds(t) && i in t.invoices && t.invoices[i].status.Open?
    requires q in t.intents && t.intents[q].invoice == i
    ensures Collections(Apply(t, Confirm(q, true, 0)), i) == Collections(t, i) + 1
  {
    hide OnTime, Count, EventsOf, Dispatched, ConfirmationEvents;
    ConfirmationCounts(t, Confirm(q, true, 0), EventInvoicePaid, i);
    CollectionsAfter(t, Confirm(q, true, 0), i);
  }

  lemma CollectsOnceMore(t: Tables, i: Id)
    requires OnTime(t) && KnownIds(t) && i in t.invoices && t.invoices[i].amount > 0 && t.invoices[i].attemptCount <= 1
    ensures Collections(Run(t, CollectingCalls(t, i)), i) == Collections(t, i) + 1
  {
    hide OnTime, Apply, Collections, KnownIds;
    var ops := CollectingCalls(t, i);
    var t1 := Apply(t, ops[0]);
    IntentIsThere(t, i);
    DeclineReopens(t1, i, t.nextId);
    ConfirmCollects(Apply(t1, ops[1]), i, t.nextId);
    RunTwo(t1, ops[1], ops[2]);
    assert ops[1..] == [ops[1], ops[2]];
  }

  lemma CollectsOnceMoreBy(t: Tables, i: Id, q: Id)
    requires OnTime(t) && KnownIds(t) && i in t.invoices && t.invoices[i].attemptCount <= 1
    requires q in t.intents && t.intents[q].invoice == i
    ensures Collections(Run(t, DeclineThenPay(q, 0)), i) == Collections(t, i) + 1
  {
    hide OnTime, Apply, Collections, KnownIds;
    DeclineReopens(t, i, q);
    ConfirmCollects(Apply(t, Confirm(q, false, 0)), i, q);
    RunTwo(t, Confirm(q, false, 0), Confirm(q, true, 0));
  }

  /**
    Exactly when an invoice that cannot be paid is never collected from then on, after any run of
    the code as it stands and over every continuation: two payments or more of it have been
    declined, so that one more closes it for good, or it is over nothing and has no intent.
   */
  lemma NeverCollectedAgainIff(t: Tables, first: seq<Op>, i: Id)
    requires Initial(t) && i in Run(t, first).invoices && !CanBePaid(Run(t, first).invoices[i])
    ensures var s := Run(t, first);
            (forall rest: seq<Op> :: Collections(Run(t, first + rest), i) == Collections(s, i)) <==> Closed(s, i)
  {
    hide OnTime, Run, Collections, KnownIds;
    InitialAgrees(t, EventInvoiceCreated);
    RunsAgreeOnSteady(t, first, EventInvoiceCreated);
    var s := Run(t, first);
    forall rest: seq<Op> ensures Run(t, first + rest) == Run(s, rest) {
      RunAppend(t, first, rest);
    }
    if Closed(s, i) {
      forall rest: seq<Op> ensures Collections(Run(t, first + rest), i) == Collections(s, i) {
        NeverCollected(s, rest, i);
      }
    } else if s.invoices[i].amount > 0 {
      CollectsOnceMore(s, i);
      assert Collections(Run(t, first + CollectingCalls(s, i)), i) != Collections(s, i);
    } else {
      var q :| q in s.intents && s.intents[q].invoice == i;
      CollectsOnceMoreBy(s, i, q);
      assert Collections(Run(t, first + DeclineThenPay(q, 0)), i) != Collections(s, i);
    }
  }

  /** With balanced books, a paid invoice: there is nothing to collect, or it was declined twice before it was paid. */
  lemma PaidIsClosedIff(t: Tables, i: Id)
    requires Balanced(t) && i in t.invoices && t.invoices[i].status.Paid?
    ensures Closed(t, i) <==> t.invoices[i].amount <= 0 || t.invoices[i].attemptCount >= 2
  {
    hide KnownIds, InvoiceBalanced;
    forall q | q in t.intents && t.invoices[i].amount <= 0 ensures t.intents[q].invoice != i {
      assert IntentBalanced(t, t.intents[q]);
    }
  }

  /** From empty tables: after any guarded run an invoice that is paid was collected once. */
  lemma CollectedOnce(t: Tables, ops: seq<Op>, i: Id)
    requires Initial(t) && i in RunGuarded(t, ops).invoices && RunGuarded(t, ops).invoices[i].status.Paid?
    ensures Collections(RunGuarded(t, ops), i) == 1
  {
    hide OnTime, RunGuarded, Count, EventsOf;
    LogAgreesOnMoney(t, ops, i);
  }
}
