/** The outbox after a run of service calls: what it says, and that it agrees with the tables. */
module EventLog {
  import opened DomainEvents
  import opened OutboxEvents
  import opened Pricing
  import opened Periods
  import opened Subscriptions
  import opened Invoices
  import opened PaymentIntents
  import opened Transactions
  import opened BillingRuns
  import opened Ledger

  /** The events of a call: what it announces if it commits. */
  function Narrative(t: Tables, op: Op): seq<Event>
    requires OnTime(t)
  {
    if Outcome(t, op).Failure? then []
    else
      match op
      case Create(c, p, now) => CreationEvents(t, p, now)
      case Cancel(s, mode, now) => CancelEvents(t.subscriptions[s], mode, now)
      case Renew(s, paid, now) =>
        var r := t.subscriptions[s];
        if r.nextBillingAt > now then []
        else
          PeriodIsProper(t, s);
          RenewalEvents(r, t.prices[r.price], t.nextId, paid, now)
      case Confirm(q, paid, now) => ConfirmationEvents(t.intents[q], t.invoices[t.intents[q].invoice], paid, now)
      case _ => []
  }

  /** The narratives of a run, in the order of its calls. */
  function Story(t: Tables, ops: seq<Op>): seq<Event>
    requires OnTime(t)
    decreases |ops|
  {
    if ops == [] then [] else Narrative(t, ops[0]) + Story(Apply(t, ops[0]), ops[1..])
  }

  lemma CallTellsNarrative(t: Tables, op: Op)
    requires OnTime(t)
    ensures t.outbox <= Apply(t, op).outbox
    ensures EventsOf(Apply(t, op).outbox) == EventsOf(t.outbox) + Narrative(t, op)
  {
    hide NextBillingDate, CatchUp, BilledPeriod, OnSchedule, Dispatched, EventsOf;
    match op {
      case Renew(s, paid, now) =>
        if s in t.subscriptions {
          PeriodIsProper(t, s);
        }
      case _ =>
    }
    if Narrative(t, op) == [] {
      assert EventsOf(t.outbox) + [] == EventsOf(t.outbox);
    }
  }

  /**
    In every run, the outbox only grows, its rows are never touched, and the new rows are the
    narratives of the calls in order: nothing of a call that failed.
   */
  lemma {:induction false} OutboxTellsStory(t: Tables, ops: seq<Op>)
    requires OnTime(t)
    ensures t.outbox <= Run(t, ops).outbox
    ensures EventsOf(Run(t, ops).outbox) == EventsOf(t.outbox) + Story(t, ops)
    decreases |ops|
  {
    hide OnTime, Apply, Narrative, EventsOf;
    if ops == [] {
      assert EventsOf(t.outbox) + [] == EventsOf(t.outbox);
    } else {
      CallTellsNarrative(t, ops[0]);
      OutboxTellsStory(Apply(t, ops[0]), ops[1..]);
    }
  }

  function Hit(e: Event, ty: EventType, id: Id): nat {
    if e.Type() == ty && e.AggregateId() == id then 1 else 0
  }

  /** How many events of a type concern an aggregate. */
  function Count(events: seq<Event>, ty: EventType, id: Id): nat
    decreases |events|
  {
    if events == [] then 0 else Hit(events[0], ty, id) + Count(events[1..], ty, id)
  }

  lemma {:induction false} CountAppend(a: seq<Event>, b: seq<Event>, ty: EventType, id: Id)
    ensures Count(a + b, ty, id) == Count(a, ty, id) + Count(b, ty, id)
    decreases |a|
  {
    hide Hit;
    if a == [] {
      assert a + b == b;
    } else {
      assert (a + b)[1..] == a[1..] + b;
      CountAppend(a[1..], b, ty, id);
    }
  }

  function HitAt(events: seq<Event>, k: nat, ty: EventType, id: Id): nat {
    if k < |events| then Hit(events[k], ty, id) else 0
  }

  lemma {:induction false} CountUpToFour(events: seq<Event>, ty: EventType, id: Id)
    requires |events| <= 4
    ensures Count(events, ty, id) == HitAt(events, 0, ty, id) + HitAt(events, 1, ty, id)
                                     + HitAt(events, 2, ty, id) + HitAt(events, 3, ty, id)
    decreases |events|
  {
    hide Hit;
    if events != [] {
      CountUpToFour(events[1..], ty, id);
    }
  }

  function One(b: bool): nat {
    if b then 1 else 0
  }

  /** What the tables say the log holds about an identifier, event type by event type. */
  function Expected(t: Tables, ty: EventType, id: Id): int {
    match ty
    case EventSubscriptionCreated => One(id in t.subscriptions)
    case EventSubscriptionCanceled => One(id in t.subscriptions && t.subscriptions[id].status.Canceled?)
    case EventInvoiceCreated => One(id in t.invoices)
    case EventInvoicePaid => One(id in t.invoices && t.invoices[id].status.Paid?)
    case EventInvoicePaymentFailed => if id in t.invoices then t.invoices[id].attemptCount else 0
    case EventPaymentIntentSucceeded => One(id in t.intents && t.intents[id].status.Succeeded?)
    case _ => 0
  }

  /** The event types whose number the tables determine whatever is called. */
  predicate Steady(ty: EventType) {
    ty in {EventSubscriptionCreated, EventSubscriptionCanceled, EventInvoiceCreated, EventInvoicePaymentFailed}
  }

  /** With those that they determine as long as no decline goes unguarded. */
  predicate Tracked(ty: EventType) {
    Steady(ty) || ty in {EventInvoicePaid, EventPaymentIntentSucceeded}
  }

  /** The log agrees with the tables about a type of event. */
  ghost predicate AgreesOn(t: Tables, ty: EventType) {
    forall id: Id :: Count(EventsOf(t.outbox), ty, id) == Expected(t, ty, id)
  }

  /** The call is no obstacle to the log agreeing about the type. */
  ghost predicate Follows(t: Tables, op: Op, ty: EventType) {
    Steady(ty) || (Tracked(ty) && Balanced(t) && Guarded(t, op))
  }

  /** What a call adds to the log about an identifier is what it changes in the tables. */
  lemma NarrativeMatchesChange(t: Tables, op: Op, ty: EventType, id: Id)
    requires OnTime(t) && KnownIds(t) && Follows(t, op, ty)
    ensures Expected(Apply(t, op), ty, id) == Expected(t, ty, id) + Count(Narrative(t, op), ty, id)
  {
    hide Apply, OnTime, Narrative, Expected, Count, Balanced, Guarded, KnownIds;
    match op {
      case Create(c, p, now) => CreateMatchesChange(t, op, ty, id);
      case Cancel(s, mode, now) => CancelMatchesChange(t, op, ty, id);
      case Renew(s, paid, now) => RenewMatchesChange(t, op, ty, id);
      case Confirm(q, paid, now) => ConfirmMatchesChange(t, op, ty, id);
      case _ => SilentCallsMatch(t, op, ty, id);
    }
  }

  /** A new intent and a subscription marked overdue concern no type of event that is tracked. */
  lemma SilentCallsMatch(t: Tables, op: Op, ty: EventType, id: Id)
    requires OnTime(t) && KnownIds(t) && (op.CreateIntent? || op.Overdue?)
    ensures Expected(Apply(t, op), ty, id) == Expected(t, ty, id) + Count(Narrative(t, op), ty, id)
  {
    hide OnTime;
  }

  lemma SilentCalls(t: Tables, op: Op, ty: EventType, id: Id)
    requires OnTime(t) && (op.CreateIntent? || op.Overdue?)
    ensures Count(Narrative(t, op), ty, id) == 0
  {
    hide OnTime;
  }

  /** A creation announces a subscription, and an invoice that is paid. */
  function CreationRows(s: Id, ty: EventType, id: Id): nat {
    One(id == s && ty.EventSubscriptionCreated?)
    + One(id == s + 1 && (ty.EventInvoiceCreated? || ty.EventInvoicePaid?))
  }

  lemma CreationCounts(t: Tables, op: Op, ty: EventType, id: Id)
    requires OnTime(t) && op.Create? && Outcome(t, op).Success? && Tracked(ty)
    ensures Count(Narrative(t, op), ty, id) == CreationRows(t.nextId, ty, id)
  {
    hide OnTime, NextBillingDate, Dispatched, Count;
    CountUpToFour(Narrative(t, op), ty, id);
  }

  lemma CreationChanges(t: Tables, op: Op, ty: EventType, id: Id)
    requires OnTime(t) && KnownIds(t) && op.Create? && Outcome(t, op).Success? && Tracked(ty)
    ensures Expected(Apply(t, op), ty, id) == Expected(t, ty, id) + CreationRows(t.nextId, ty, id)
  {
    hide OnTime, NextBillingDate, Dispatched, CreationEvents;
  }

  lemma CreateMatchesChange(t: Tables, op: Op, ty: EventType, id: Id)
    requires OnTime(t) && KnownIds(t) && op.Create? && Tracked(ty)
    ensures Expected(Apply(t, op), ty, id) == Expected(t, ty, id) + Count(Narrative(t, op), ty, id)
  {
    hide OnTime, Apply, Expected, Count, Narrative, Tracked;
    if Outcome(t, op).Success? {
      CreationCounts(t, op, ty, id);
      CreationChanges(t, op, ty, id);
    } else {
      FailedCallIsSilent(t, op);
    }
  }

  function CancelRows(s: Id, mode: CancelMode, ty: EventType, id: Id): nat {
    One(mode.CancelImmediate? && ty.EventSubscriptionCanceled? && id == s)
  }

  lemma CancelEventCounts(r: SubscriptionRow, mode: CancelMode, now: int, ty: EventType, id: Id)
    requires Tracked(ty)
    ensures Count(CancelEvents(r, mode, now), ty, id) == CancelRows(r.id, mode, ty, id)
  {
    hide Count;
    CountUpToFour(CancelEvents(r, mode, now), ty, id);
  }

  lemma CancelCounts(t: Tables, op: Op, ty: EventType, id: Id)
    requires OnTime(t) && KnownIds(t) && op.Cancel? && Outcome(t, op).Success? && Tracked(ty)
    ensures Count(Narrative(t, op), ty, id) == CancelRows(op.subscription, op.mode, ty, id)
  {
    hide OnTime, Dispatched, Count, CancelEvents, Tracked;
    CancelEventCounts(t.subscriptions[op.subscription], op.mode, op.now, ty, id);
  }

  lemma CancelChanges(t: Tables, op: Op, ty: EventType, id: Id)
    requires OnTime(t) && KnownIds(t) && op.Cancel? && Outcome(t, op).Success? && Tracked(ty)
    ensures Expected(Apply(t, op), ty, id) == Expected(t, ty, id) + CancelRows(op.subscription, op.mode, ty, id)
  {
    hide OnTime, Dispatched, CancelEvents;
  }

  lemma CancelMatchesChange(t: Tables, op: Op, ty: EventType, id: Id)
    requires OnTime(t) && KnownIds(t) && op.Cancel? && Tracked(ty)
    ensures Expected(Apply(t, op), ty, id) == Expected(t, ty, id) + Count(Narrative(t, op), ty, id)
  {
    hide OnTime, Apply, Expected, Dispatched, Count, CancelEvents, Tracked;
    if Outcome(t, op).Success? {
      CancelCounts(t, op, ty, id);
      CancelChanges(t, op, ty, id);
    } else {
      FailedCallIsSilent(t, op);
    }
  }

  lemma RenewMatchesChange(t: Tables, op: Op, ty: EventType, id: Id)
    requires OnTime(t) && KnownIds(t) && op.Renew? && Tracked(ty)
    ensures Expected(Apply(t, op), ty, id) == Expected(t, ty, id) + Count(Narrative(t, op), ty, id)
  {
    hide NextBillingDate, CatchUp, BilledPeriod, OnSchedule, Dispatched, Count, Narrative, Renews, RenewError;
    if Renews(t, op.subscription, op.now) {
      RenewalCounts(t, op, ty, id);
      RenewalChanges(t, op, ty, id);
    } else {
      UndueRenewalIsSilent(t, op);
    }
  }

  lemma UndueRenewalIsSilent(t: Tables, op: Op)
    requires OnTime(t) && op.Renew? && !Renews(t, op.subscription, op.now)
    ensures Apply(t, op) == t && Narrative(t, op) == []
    ensures forall ty: EventType, id: Id :: Count(Narrative(t, op), ty, id) == 0
  {
  }

  /** A renewal issues one invoice, and one more row says how its payment went. */
  function RenewalRows(i: Id, paid: bool, ty: EventType, id: Id): nat {
    One(id == i && (ty.EventInvoiceCreated? || ty == if paid then EventInvoicePaid else EventInvoicePaymentFailed))
  }

  lemma RenewalEventCounts(r: SubscriptionRow, p: Price, i: Id, paid: bool, now: int, ty: EventType, id: Id)
    requires r.period.start < r.period.end && Tracked(ty)
    ensures Count(RenewalEvents(r, p, i, paid, now), ty, id) == RenewalRows(i, paid, ty, id)
  {
    hide CatchUp, Count;
    CountUpToFour(RenewalEvents(r, p, i, paid, now), ty, id);
  }

  lemma RenewalCounts(t: Tables, op: Op, ty: EventType, id: Id)
    requires OnTime(t) && op.Renew? && Renews(t, op.subscription, op.now) && Tracked(ty)
    ensures Count(Narrative(t, op), ty, id) == RenewalRows(t.nextId, op.paid, ty, id)
  {
    hide NextBillingDate, CatchUp, BilledPeriod, OnSchedule, Dispatched, Count, RenewalEvents, RenewalRows, Tracked;
    PeriodIsProper(t, op.subscription);
    var r := t.subscriptions[op.subscription];
    RenewalEventCounts(r, t.prices[r.price], t.nextId, op.paid, op.now, ty, id);
  }

  lemma RenewalChanges(t: Tables, op: Op, ty: EventType, id: Id)
    requires OnTime(t) && KnownIds(t)
    requires op.Renew? && Renews(t, op.subscription, op.now) && Tracked(ty)
    ensures Expected(Apply(t, op), ty, id) == Expected(t, ty, id) + RenewalRows(t.nextId, op.paid, ty, id)
  {
    hide NextBillingDate, CatchUp, BilledPeriod, OnSchedule, Dispatched;
  }

  lemma ConfirmMatchesChange(t: Tables, op: Op, ty: EventType, id: Id)
    requires OnTime(t) && KnownIds(t) && op.Confirm? && Follows(t, op, ty)
    ensures Expected(Apply(t, op), ty, id) == Expected(t, ty, id) + Count(Narrative(t, op), ty, id)
  {
    hide OnTime, Dispatched, Count, Narrative, Balanced, Guarded, KnownIds;
    if Outcome(t, op).Success? {
      ConfirmationCounts(t, op, ty, id);
      ConfirmationChanges(t, op, ty, id);
    } else {
      FailedCallIsSilent(t, op);
    }
  }

  lemma FailedCallIsSilent(t: Tables, op: Op)
    requires OnTime(t) && Outcome(t, op).Failure?
    ensures Apply(t, op) == t && Narrative(t, op) == []
    ensures forall ty: EventType, id: Id :: Count(Narrative(t, op), ty, id) == 0
  {
    hide OnTime, Outcome;
  }

  /** A confirmation writes one row about the intent and one about its invoice. */
  function ConfirmationRows(q: Id, i: Id, paid: bool, ty: EventType, id: Id): nat {
    if paid then One(ty.EventPaymentIntentSucceeded? && id == q) + One(ty.EventInvoicePaid? && id == i)
    else One(ty.EventInvoicePaymentFailed? && id == i)
  }

  lemma ConfirmationEventCounts(pi: IntentRow, r: InvoiceRow, paid: bool, now: int, ty: EventType, id: Id)
    requires Tracked(ty)
    ensures Count(ConfirmationEvents(pi, r, paid, now), ty, id) == ConfirmationRows(pi.id, r.id, paid, ty, id)
  {
    hide Count;
    CountUpToFour(ConfirmationEvents(pi, r, paid, now), ty, id);
  }

  lemma ConfirmationCounts(t: Tables, op: Op, ty: EventType, id: Id)
    requires OnTime(t) && KnownIds(t) && op.Confirm? && Outcome(t, op).Success? && Tracked(ty)
    ensures Count(Narrative(t, op), ty, id)
         == ConfirmationRows(op.intent, t.intents[op.intent].invoice, op.paid, ty, id)
  {
    hide OnTime, Dispatched, Count, ConfirmationEvents, ConfirmationRows, Tracked;
    var pi := t.intents[op.intent];
    ConfirmationEventCounts(pi, t.invoices[pi.invoice], op.paid, op.now, ty, id);
  }

  lemma ConfirmationChanges(t: Tables, op: Op, ty: EventType, id: Id)
    requires OnTime(t) && KnownIds(t) && op.Confirm? && Outcome(t, op).Success? && Follows(t, op, ty)
    ensures Expected(Apply(t, op), ty, id)
         == Expected(t, ty, id) + ConfirmationRows(op.intent, t.intents[op.intent].invoice, op.paid, ty, id)
  {
    hide OnTime, Dispatched, ConfirmationEvents;
    if !Steady(ty) {
      assert IntentBalanced(t, t.intents[op.intent]);
    }
  }

  lemma CallKeepsAgreement(t: Tables, op: Op, ty: EventType)
    requires OnTime(t) && KnownIds(t) && Follows(t, op, ty) && AgreesOn(t, ty)
    ensures AgreesOn(Apply(t, op), ty)
  {
    hide OnTime, Apply, Narrative, Expected, Count, EventsOf, Follows, KnownIds;
    CallTellsNarrative(t, op);
    forall id: Id ensures Count(EventsOf(Apply(t, op).outbox), ty, id) == Expected(Apply(t, op), ty, id) {
      CountAppend(EventsOf(t.outbox), Narrative(t, op), ty, id);
      NarrativeMatchesChange(t, op, ty, id);
    }
  }

  /** Over any run, guarded or not, the log goes on agreeing about the steady types. */
  lemma {:induction false} RunsAgreeOnSteady(t: Tables, ops: seq<Op>, ty: EventType)
    requires OnTime(t) && KnownIds(t) && Steady(ty) && AgreesOn(t, ty)
    ensures KnownIds(Run(t, ops)) && AgreesOn(Run(t, ops), ty)
    decreases |ops|
  {
    hide OnTime, Apply, KnownIds, AgreesOn, Steady;
    if ops != [] {
      KeepsKnownIds(t, ops[0]);
      CallKeepsAgreement(t, ops[0], ty);
      RunsAgreeOnSteady(Apply(t, ops[0]), ops[1..], ty);
    }
  }

  /** Over any guarded run it goes on agreeing about all of them. */
  lemma {:induction false} RunsAgree(t: Tables, ops: seq<Op>, ty: EventType)
    requires OnTime(t) && Balanced(t) && Tracked(ty) && AgreesOn(t, ty)
    ensures AgreesOn(RunGuarded(t, ops), ty)
    decreases |ops|
  {
    hide OnTime, Apply, Guarded, AgreesOn, Steady, InvoiceBalanced, IntentBalanced, KnownIds;
    if ops != [] {
      if Guarded(t, ops[0]) {
        CallKeepsAgreement(t, ops[0], ty);
        GuardedKeepsBalanced(t, ops[0]);
      }
      RunsAgree(ApplyGuarded(t, ops[0]), ops[1..], ty);
    }
  }

  lemma InitialAgrees(t: Tables, ty: EventType)
    requires Initial(t) && Tracked(ty)
    ensures OnTime(t) && KnownIds(t) && Balanced(t) && AgreesOn(t, ty)
  {
    assert EventsOf(t.outbox) == [];
  }

  /**
    After any run of the code as it stands from empty tables, the log holds one created row for
    each stored subscription and invoice, one canceled row for each subscription that is canceled
    and none for the others, and a payment_failed row for each attempt an invoice counts.
   */
  lemma LogAgrees(t: Tables, ops: seq<Op>, id: Id)
    requires Initial(t)
    ensures var after := Run(t, ops);
            var log := EventsOf(after.outbox);
            && Count(log, EventSubscriptionCreated, id) == One(id in after.subscriptions)
            && Count(log, EventSubscriptionCanceled, id)
               == One(id in after.subscriptions && after.subscriptions[id].status.Canceled?)
            && Count(log, EventInvoiceCreated, id) == One(id in after.invoices)
            && Count(log, EventInvoicePaymentFailed, id)
               == if id in after.invoices then after.invoices[id].attemptCount else 0
  {
    hide OnTime, Run, Count, EventsOf;
    InitialAgrees(t, EventInvoiceCreated);
    RunsAgreeOnSteady(t, ops, EventInvoiceCreated);
    InitialAgrees(t, EventSubscriptionCreated);
    RunsAgreeOnSteady(t, ops, EventSubscriptionCreated);
    InitialAgrees(t, EventSubscriptionCanceled);
    RunsAgreeOnSteady(t, ops, EventSubscriptionCanceled);
    InitialAgrees(t, EventInvoicePaymentFailed);
    RunsAgreeOnSteady(t, ops, EventInvoicePaymentFailed);
  }

  /**
    After any guarded run from empty tables it holds, besides, one paid row for each invoice that
    is paid and one succeeded row for each intent that has succeeded, and none for the others.
   */
  lemma LogAgreesOnMoney(t: Tables, ops: seq<Op>, id: Id)
    requires Initial(t)
    ensures var after := RunGuarded(t, ops);
            var log := EventsOf(after.outbox);
            && Count(log, EventInvoicePaid, id) == One(id in after.invoices && after.invoices[id].status.Paid?)
            && Count(log, EventPaymentIntentSucceeded, id)
               == One(id in after.intents && after.intents[id].status.Succeeded?)
  {
    hide OnTime, RunGuarded, Count, EventsOf;
    InitialAgrees(t, EventInvoicePaid);
    RunsAgree(t, ops, EventInvoicePaid);
    InitialAgrees(t, EventPaymentIntentSucceeded);
    RunsAgree(t, ops, EventPaymentIntentSucceeded);
  }

  /** Canceled is absorbing over all runs, and a subscription that is canceled has one canceled row from then on. */
  lemma CanceledForGood(t: Tables, first: seq<Op>, rest: seq<Op>, s: Id)
    requires Initial(t) && s in Run(t, first).subscriptions && Run(t, first).subscriptions[s].status.Canceled?
    ensures var after := Run(t, first + rest);
            && s in after.subscriptions && after.subscriptions[s].status.Canceled?
            && Count(EventsOf(after.outbox), EventSubscriptionCanceled, s) == 1
  {
    hide OnTime, Run, Count, EventsOf;
    InitialAgrees(t, EventSubscriptionCanceled);
    RunsAgreeOnSteady(t, first, EventSubscriptionCanceled);
    RunAppend(t, first, rest);
    CanceledIffAsked(Run(t, first), rest, s);
    LogAgrees(t, first + rest, s);
  }
}
