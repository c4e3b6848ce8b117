/** Money over whole runs: what is owed, paid and captured, with and without a guard on declines. */
module Ledger {
  import opened DomainEvents
  import opened OutboxEvents
  import opened Pricing
  import opened Periods
  import opened Subscriptions
  import opened Invoices
  import opened PaymentIntents
  import opened Transactions
  import opened BillingRuns

  /** Paid and remaining make up the amount, and three failed attempts make an invoice uncollectible. */
  predicate MoneyKept(r: InvoiceRow) {
    && 0 <= r.amountPaid <= r.amount
    && r.amountPaid + r.amountRemaining == r.amount
    && 0 <= r.attemptCount
    && (r.status.Uncollectible? <==> r.attemptCount >= 3)
  }

  /** On top of that, the status says what was paid, and there is no attempt after the third. */
  predicate InvoiceBalanced(r: InvoiceRow) {
    && MoneyKept(r)
    && r.attemptCount <= 3
    && match r.status
       case Paid => r.amountPaid == r.amount
       case Open => r.amountPaid == 0
       case Uncollectible => r.amountPaid == 0
       case _ => false
  }

  /** An intent has captured nothing, or has succeeded and captured an invoice that is paid. */
  predicate IntentBalanced(t: Tables, pi: IntentRow) {
    && pi.invoice in t.invoices
    && pi.amount == t.invoices[pi.invoice].amount > 0
    && match pi.status
       case RequiresPaymentMethod => pi.amountCaptured == 0
       case Succeeded => pi.amountCaptured == pi.amount && t.invoices[pi.invoice].status.Paid?
       case _ => false
  }

  predicate SucceededOn(t: Tables, pi: Id, invoice: Id) {
    pi in t.intents && t.intents[pi].status.Succeeded? && t.intents[pi].invoice == invoice
  }

  ghost predicate Balanced(t: Tables) {
    && (forall p | p in t.prices :: t.prices[p].amount >= 0)
    && KnownIds(t)
    && (forall i | i in t.invoices :: InvoiceBalanced(t.invoices[i]))
    && (forall q | q in t.intents :: IntentBalanced(t, t.intents[q]))
    && (forall q: Id, r: Id, i: Id | SucceededOn(t, q, i) && SucceededOn(t, r, i) :: q == r)
  }

  predicate AllMoneyKept(t: Tables) {
    && (forall p | p in t.prices :: t.prices[p].amount >= 0)
    && (forall i | i in t.invoices :: MoneyKept(t.invoices[i]))
  }

  /** The tables before any service call: prices and customers only. */
  predicate Initial(t: Tables) {
    && (forall p | p in t.prices :: t.prices[p].count >= 1 && t.prices[p].amount >= 0)
    && t.subscriptions == map[] && t.invoices == map[] && t.intents == map[] && t.outbox == []
  }

  /** A decline is only recorded on an invoice that can still be paid. */
  predicate Guarded(t: Tables, op: Op) {
    op.Confirm? && !op.paid && op.intent in t.intents && t.intents[op.intent].invoice in t.invoices
    ==> CanBePaid(t.invoices[t.intents[op.intent].invoice])
  }

  /** The services with that guard: a call it refuses is an error and rolled back. */
  function ApplyGuarded(t: Tables, op: Op): (after: Tables)
    requires OnTime(t)
    ensures OnTime(after)
  {
    if Guarded(t, op) then Apply(t, op) else t
  }

  function RunGuarded(t: Tables, ops: seq<Op>): (after: Tables)
    requires OnTime(t)
    ensures OnTime(after)
    decreases |ops|
  {
    if ops == [] then t else RunGuarded(ApplyGuarded(t, ops[0]), ops[1..])
  }

  lemma KeepsMoney(t: Tables, op: Op)
    requires OnTime(t) && AllMoneyKept(t)
    ensures AllMoneyKept(Apply(t, op))
  {
    hide NextBillingDate, Dispatched, CatchUp, BilledPeriod, OnSchedule;
  }

  lemma {:induction false} RunsKeepMoney(t: Tables, ops: seq<Op>)
    requires OnTime(t) && AllMoneyKept(t)
    ensures AllMoneyKept(Run(t, ops))
    decreases |ops|
  {
    hide OnTime, Apply, AllMoneyKept;
    if ops != [] {
      KeepsMoney(t, ops[0]);
      RunsKeepMoney(Apply(t, ops[0]), ops[1..]);
    }
  }

  /**
    Over every run of the code as it stands, declines on paid invoices included: what is paid and
    what remains make up the amount, and an invoice is uncollectible exactly from its third failed
    attempt on.
   */
  lemma MoneyOverRuns(t: Tables, ops: seq<Op>, invoice: Id)
    requires Initial(t) && invoice in Run(t, ops).invoices
    ensures var inv := Run(t, ops).invoices[invoice];
            && 0 <= inv.amountPaid <= inv.amount
            && inv.amountPaid + inv.amountRemaining == inv.amount
            && (inv.status.Uncollectible? <==> inv.attemptCount >= 3)
  {
    hide Run;
    RunsKeepMoney(t, ops);
  }

  /** The calls of a run that the guard lets through. */
  function LetThrough(t: Tables, ops: seq<Op>): seq<Op>
    requires OnTime(t)
    decreases |ops|
  {
    if ops == [] then []
    else if Guarded(t, ops[0]) then [ops[0]] + LetThrough(Apply(t, ops[0]), ops[1..])
    else LetThrough(t, ops[1..])
  }

  /** A guarded run is a run of the code as it stands, so what holds of all of those holds of it. */
  lemma {:induction false} GuardedRunIsRun(t: Tables, ops: seq<Op>)
    requires OnTime(t)
    ensures RunGuarded(t, ops) == Run(t, LetThrough(t, ops))
    decreases |ops|
  {
    hide OnTime, Apply, Guarded;
    if ops != [] {
      GuardedRunIsRun(ApplyGuarded(t, ops[0]), ops[1..]);
      if Guarded(t, ops[0]) {
        var rest := LetThrough(Apply(t, ops[0]), ops[1..]);
        assert ([ops[0]] + rest)[1..] == rest;
      }
    }
  }

  /**
    As the code stands, a call keeps the books balanced if and only if it is not a decline on
    an invoice that can no longer be paid.
   */
  lemma BalancedIffGuarded(t: Tables, op: Op)
    requires OnTime(t) && Balanced(t)
    ensures Balanced(Apply(t, op)) <==> Guarded(t, op)
  {
    hide NextBillingDate, Dispatched, CatchUp, BilledPeriod, OnTime, Apply;
    if Guarded(t, op) {
      GuardedKeepsBalanced(t, op);
    } else {
      UnguardedBreaks(t, op.intent, op.now);
    }
  }

  lemma UnguardedBreaks(t: Tables, pi: Id, now: int)
    requires OnTime(t) && Balanced(t) && !Guarded(t, Confirm(pi, false, now))
    ensures !Balanced(Apply(t, Confirm(pi, false, now)))
  {
    hide NextBillingDate, Dispatched, CatchUp, BilledPeriod, OnTime;
    var i := t.intents[pi].invoice;
    var after := Apply(t, Confirm(pi, false, now));
    assert IntentBalanced(t, t.intents[pi]) && InvoiceBalanced(t.invoices[i]);
    assert !InvoiceBalanced(after.invoices[i]);
  }

  lemma GuardedKeepsBalanced(t: Tables, op: Op)
    requires OnTime(t) && Balanced(t) && Guarded(t, op)
    ensures Balanced(Apply(t, op))
  {
    match op {
      case Create(c, p, now) => CreateKeepsBalanced(t, c, p, now);
      case Cancel(s, mode, now) => CancelKeepsBalanced(t, s, mode, now);
      case Renew(s, paid, now) => RenewKeepsBalanced(t, s, paid, now);
      case CreateIntent(i, now) => CreateIntentKeepsBalanced(t, i, now);
      case Confirm(pi, paid, now) => ConfirmKeepsBalanced(t, pi, paid, now);
      case Overdue(i, before, now) => OverdueKeepsBalanced(t, i, before, now);
    }
  }

  /** A new or unchanged invoice and unchanged intents leave the books as they were. */
  lemma NewInvoiceKeepsBalanced(t: Tables, after: Tables)
    requires Balanced(t) && KnownIds(after)
    requires after.prices == t.prices && after.intents == t.intents && t.nextId <= after.nextId
    requires forall i | i in t.invoices :: i in after.invoices && after.invoices[i] == t.invoices[i]
    requires forall i | i in after.invoices :: i in t.invoices || InvoiceBalanced(after.invoices[i])
    ensures Balanced(after)
  {
    forall q | q in after.intents ensures IntentBalanced(after, after.intents[q]) {
      assert IntentBalanced(t, t.intents[q]);
    }
    forall q: Id, r: Id, i: Id | SucceededOn(after, q, i) && SucceededOn(after, r, i) ensures q == r {
      assert SucceededOn(t, q, i) && SucceededOn(t, r, i);
    }
  }

  lemma CreateKeepsBalanced(t: Tables, c: Id, p: Id, now: int)
    requires OnTime(t) && Balanced(t)
    ensures Balanced(Apply(t, Create(c, p, now)))
  {
    hide NextBillingDate, Dispatched, OnTime;
    KeepsKnownIds(t, Create(c, p, now));
    NewInvoiceKeepsBalanced(t, Apply(t, Create(c, p, now)));
  }

  lemma CancelKeepsBalanced(t: Tables, s: Id, mode: CancelMode, now: int)
    requires OnTime(t) && Balanced(t)
    ensures Balanced(Apply(t, Cancel(s, mode, now)))
  {
    hide NextBillingDate, Dispatched, OnTime;
    KeepsKnownIds(t, Cancel(s, mode, now));
    NewInvoiceKeepsBalanced(t, Apply(t, Cancel(s, mode, now)));
  }

  lemma OverdueKeepsBalanced(t: Tables, i: Id, before: int, now: int)
    requires OnTime(t) && Balanced(t)
    ensures Balanced(Apply(t, Overdue(i, before, now)))
  {
    hide OnTime;
    KeepsKnownIds(t, Overdue(i, before, now));
    NewInvoiceKeepsBalanced(t, Apply(t, Overdue(i, before, now)));
  }

  lemma RenewKeepsBalanced(t: Tables, s: Id, paid: bool, now: int)
    requires OnTime(t) && Balanced(t)
    ensures Balanced(Apply(t, Renew(s, paid, now)))
  {
    hide NextBillingDate, Dispatched, CatchUp, BilledPeriod, OnSchedule;
    KeepsKnownIds(t, Renew(s, paid, now));
    NewInvoiceKeepsBalanced(t, Apply(t, Renew(s, paid, now)));
  }

  lemma CreateIntentKeepsBalanced(t: Tables, i: Id, now: int)
    requires OnTime(t) && Balanced(t)
    ensures Balanced(Apply(t, CreateIntent(i, now)))
  {
    hide OnTime;
    KeepsKnownIds(t, CreateIntent(i, now));
    var after := Apply(t, CreateIntent(i, now));
    forall q | q in after.intents ensures IntentBalanced(after, after.intents[q]) {
      if q in t.intents && q != t.nextId {
        assert IntentBalanced(t, t.intents[q]);
      }
    }
    forall q: Id, r: Id, j: Id | SucceededOn(after, q, j) && SucceededOn(after, r, j) ensures q == r {
      assert SucceededOn(t, q, j) && SucceededOn(t, r, j);
    }
  }

  lemma ConfirmKeepsBalanced(t: Tables, pi: Id, paid: bool, now: int)
    requires OnTime(t) && Balanced(t) && Guarded(t, Confirm(pi, paid, now))
    ensures Balanced(Apply(t, Confirm(pi, paid, now)))
  {
    hide OnTime, Dispatched;
    KeepsKnownIds(t, Confirm(pi, paid, now));
    var after := Apply(t, Confirm(pi, paid, now));
    if pi in t.intents && t.intents[pi].invoice in t.invoices && CanBePaid(t.invoices[t.intents[pi].invoice]) {
      var i := t.intents[pi].invoice;
      assert IntentBalanced(t, t.intents[pi]);
      assert InvoiceBalanced(after.invoices[i]);
      forall q | q in after.intents ensures IntentBalanced(after, after.intents[q]) {
        assert IntentBalanced(t, t.intents[q]);
      }
      forall q: Id, r: Id, j: Id | SucceededOn(after, q, j) && SucceededOn(after, r, j) ensures q == r {
        if q != pi { assert SucceededOn(t, q, j); }
        if r != pi { assert SucceededOn(t, r, j); }
      }
    }
  }

  lemma BalancedMoney(t: Tables)
    requires Balanced(t)
    ensures AllMoneyKept(t)
  {
  }

  lemma {:induction false} RunsStayBalanced(t: Tables, ops: seq<Op>)
    requires OnTime(t) && Balanced(t)
    ensures Balanced(RunGuarded(t, ops))
    decreases |ops|
  {
    hide OnTime, Apply, Balanced;
    if ops != [] {
      if Guarded(t, ops[0]) {
        GuardedKeepsBalanced(t, ops[0]);
      }
      RunsStayBalanced(ApplyGuarded(t, ops[0]), ops[1..]);
    }
  }

  /** The total captured for an invoice by the intents with identifiers below `n`. */
  function Captured(t: Tables, invoice: Id, n: nat): int
    decreases n
  {
    if n == 0 then 0
    else Captured(t, invoice, n - 1)
         + if n - 1 in t.intents && t.intents[n - 1].invoice == invoice then t.intents[n - 1].amountCaptured else 0
  }

  lemma {:induction false} CapturedAtMostOnce(t: Tables, invoice: Id, n: nat)
    requires Balanced(t) && invoice in t.invoices
    ensures Captured(t, invoice, n)
         == if exists q: Id :: q < n && SucceededOn(t, q, invoice) then t.invoices[invoice].amount else 0
    decreases n
  {
    if n > 0 {
      CapturedAtMostOnce(t, invoice, n - 1);
      if n - 1 in t.intents {
        assert IntentBalanced(t, t.intents[n - 1]);
      }
      if SucceededOn(t, n - 1, invoice) {
        assert forall q: Id :: q < n - 1 ==> !SucceededOn(t, q, invoice);
      } else if exists q: Id :: q < n && SucceededOn(t, q, invoice) {
        var q: Id :| q < n && SucceededOn(t, q, invoice);
        assert q < n - 1;
      }
    }
  }

  /**
    No double capture: after any guarded run from empty tables, at most one intent of an invoice
    has succeeded, and what all of them captured is at most what the invoice counts as paid,
    which is at most its amount.
   */
  lemma NoDoubleCapture(t: Tables, ops: seq<Op>, invoice: Id)
    requires Initial(t) && invoice in RunGuarded(t, ops).invoices
    ensures var after := RunGuarded(t, ops);
            var inv := after.invoices[invoice];
            && (forall q: Id, r: Id | SucceededOn(after, q, invoice) && SucceededOn(after, r, invoice) :: q == r)
            && 0 <= Captured(after, invoice, after.nextId) <= inv.amountPaid <= inv.amount
            && inv.amountPaid + inv.amountRemaining == inv.amount
            && 0 <= inv.attemptCount <= 3 && (inv.status.Uncollectible? <==> inv.attemptCount >= 3)
  {
    RunsStayBalanced(t, ops);
    var after := RunGuarded(t, ops);
    CapturedAtMostOnce(after, invoice, after.nextId);
    if q: Id :| q < after.nextId && SucceededOn(after, q, invoice) {
      assert IntentBalanced(after, after.intents[q]);
    }
  }

  /** If the invoice is paid, an intent paid for it. */
  ghost predicate PaidByIntent(t: Tables, invoice: Id) {
    && invoice in t.invoices
    && (t.invoices[invoice].status.Paid? ==> exists q: Id :: SucceededOn(t, q, invoice))
  }

  lemma KeepsPaidByIntent(t: Tables, op: Op, invoice: Id)
    requires OnTime(t) && Balanced(t) && PaidByIntent(t, invoice) && Guarded(t, op)
    ensures PaidByIntent(Apply(t, op), invoice)
  {
    hide NextBillingDate, Dispatched, CatchUp, BilledPeriod, OnSchedule;
    var after := Apply(t, op);
    assert invoice < t.nextId;
    if t.invoices[invoice].status.Paid? {
      var q: Id :| SucceededOn(t, q, invoice);
      assert SucceededOn(after, q, invoice);
    } else if op.Confirm? && after.invoices[invoice].status.Paid? {
      assert SucceededOn(after, op.intent, invoice);
    }
  }

  lemma {:induction false} RunsKeepPaidByIntent(t: Tables, ops: seq<Op>, invoice: Id)
    requires OnTime(t) && Balanced(t) && PaidByIntent(t, invoice)
    ensures PaidByIntent(RunGuarded(t, ops), invoice)
    decreases |ops|
  {
    hide OnTime, Apply, Balanced, PaidByIntent;
    if ops != [] {
      if Guarded(t, ops[0]) {
        KeepsPaidByIntent(t, ops[0], invoice);
        GuardedKeepsBalanced(t, ops[0]);
      }
      RunsKeepPaidByIntent(ApplyGuarded(t, ops[0]), ops[1..], invoice);
    }
  }

  /** An invoice that was ever unpaid has, whatever happens after, captured exactly what it counts as paid. */
  lemma OnceUnpaidCapturedInFull(t: Tables, first: seq<Op>, rest: seq<Op>, invoice: Id)
    requires Initial(t)
    requires invoice in RunGuarded(t, first).invoices
    requires !RunGuarded(t, first).invoices[invoice].status.Paid?
    ensures var after := RunGuarded(RunGuarded(t, first), rest);
            invoice in after.invoices
            && Captured(after, invoice, after.nextId) == after.invoices[invoice].amountPaid
  {
    RunsStayBalanced(t, first);
    var mid := RunGuarded(t, first);
    RunsStayBalanced(mid, rest);
    RunsKeepPaidByIntent(mid, rest, invoice);
    var after := RunGuarded(mid, rest);
    CapturedAtMostOnce(after, invoice, after.nextId);
    if after.invoices[invoice].status.Paid? {
      var q: Id :| SucceededOn(after, q, invoice);
      assert q < after.nextId;
    }
    forall q: Id | SucceededOn(after, q, invoice) ensures after.invoices[invoice].status.Paid? {
      assert IntentBalanced(after, after.intents[q]);
    }
  }

  /**
    Without the guard money is taken twice: a decline reopens a paid invoice, which a later
    confirmation collects again. Two intents then hold twice the amount of one invoice.
   */
  lemma UnguardedCapturesTwice(t: Tables, c: Id, p: Id, now: int)
    requires OnTime(t) && Initial(t) && c in t.customers && p in t.prices && t.prices[p].amount > 0
    ensures var (i, q, r) := (t.nextId + 1, t.nextId + 2, t.nextId + 3);
            var after := Run(t, BillWithTwoIntents(c, p, i, now) + DeclineThenPay(q, now) + DeclineThenPay(r, now));
            && i in after.invoices && SucceededOn(after, q, i) && SucceededOn(after, r, i)
            && after.intents[q].amountCaptured + after.intents[r].amountCaptured == 2 * after.invoices[i].amount > 0
  {
    hide OnTime, Apply, Initial;
    var i, q, r := t.nextId + 1, t.nextId + 2, t.nextId + 3;
    var t3 := BilledWithTwoIntents(t, c, p, now);
    var t5 := CollectAgain(t3, i, q, now);
    var t7 := CollectAgain(t5, i, r, now);
    RunAppend(t, BillWithTwoIntents(c, p, i, now), DeclineThenPay(q, now));
    RunAppend(t, BillWithTwoIntents(c, p, i, now) + DeclineThenPay(q, now), DeclineThenPay(r, now));
  }

  function BillWithTwoIntents(c: Id, p: Id, i: Id, now: int): seq<Op> {
    [Create(c, p, now), CreateIntent(i, now), CreateIntent(i, now)]
  }

  function DeclineThenPay(pi: Id, now: int): seq<Op> {
    [Confirm(pi, false, now), Confirm(pi, true, now)]
  }

  lemma BilledWithTwoIntents(t: Tables, c: Id, p: Id, now: int) returns (after: Tables)
    requires OnTime(t) && Initial(t) && c in t.customers && p in t.prices && t.prices[p].amount > 0
    ensures OnTime(after) && after == Run(t, BillWithTwoIntents(c, p, t.nextId + 1, now))
    ensures var i, q, r := t.nextId + 1, t.nextId + 2, t.nextId + 3;
            && i in after.invoices && after.invoices[i].attemptCount == 0
            && after.invoices[i].amount == t.prices[p].amount
            && q in after.intents && after.intents[q].invoice == i && after.intents[q].amount == t.prices[p].amount
            && r in after.intents && after.intents[r].invoice == i && after.intents[r].amount == t.prices[p].amount
  {
    hide NextBillingDate, Dispatched, OnTime, OnSchedule;
    var i := t.nextId + 1;
    var t1 := Apply(t, Create(c, p, now));
    assert i in t1.invoices && t1.invoices[i].amount == t.prices[p].amount && t1.nextId == i + 1;
    var t2 := Apply(t1, CreateIntent(i, now));
    assert i in t2.invoices && t2.nextId == i + 2;
    after := Apply(t2, CreateIntent(i, now));
    RunTwo(t1, CreateIntent(i, now), CreateIntent(i, now));
    assert BillWithTwoIntents(c, p, i, now)[1..] == [CreateIntent(i, now), CreateIntent(i, now)];
  }

  lemma RunTwo(t: Tables, a: Op, b: Op)
    requires OnTime(t)
    ensures Run(t, [a, b]) == Apply(Apply(t, a), b)
  {
    hide OnTime, Apply;
    assert [a, b][1..] == [b];
    assert Run(Apply(t, a), [b]) == Run(Apply(Apply(t, a), b), []);
  }

  /** Declining and then confirming an intent of an invoice that has had at most one attempt fail. */
  lemma CollectAgain(t: Tables, i: Id, q: Id, now: int) returns (after: Tables)
    requires OnTime(t) && i in t.invoices && q in t.intents && t.intents[q].invoice == i
    requires t.invoices[i].attemptCount <= 1
    ensures OnTime(after) && after == Run(t, DeclineThenPay(q, now))
    ensures SucceededOn(after, q, i)
    ensures after.intents[q].amountCaptured == after.intents[q].amount == t.intents[q].amount
    ensures forall r | r in t.intents && r != q :: r in after.intents && after.intents[r] == t.intents[r]
    ensures i in after.invoices && after.invoices[i].attemptCount == t.invoices[i].attemptCount + 1
    ensures after.invoices[i].amount == t.invoices[i].amount
  {
    hide Dispatched, OnTime, Run;
    RunTwo(t, Confirm(q, false, now), Confirm(q, true, now));
    after := Apply(Apply(t, Confirm(q, false, now)), Confirm(q, true, now));
  }
}
