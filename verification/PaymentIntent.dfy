/** Payment intents: one attempt to collect an invoice, captured whole or in parts. */
module PaymentIntents {
  import opened Wrappers
  import opened DomainEvents

  datatype PaymentIntentStatus =
    | RequiresPaymentMethod
    | RequiresConfirmation
    | RequiresAction
    | RequiresCapture
    | Processing
    | Succeeded
    | IntentCanceled

  datatype IntentRow = IntentRow(
    id: Id,
    invoice: Id,
    customer: Id,
    amount: int,
    amountCaptured: int,
    status: PaymentIntentStatus,
    declined: bool,
    createdAt: int,
    updatedAt: int)

  function NewPaymentIntent(id: Id, invoice: Id, customer: Id, amount: int, now: int): IntentRow {
    IntentRow(id, invoice, customer, amount, 0, RequiresPaymentMethod, false, now, now)
  }

  function SucceededIntent(r: IntentRow, now: int): IntentRow {
    r.(status := Succeeded, amountCaptured := r.amount, updatedAt := now)
  }

  function FailedIntent(r: IntentRow, now: int): IntentRow {
    r.(status := RequiresPaymentMethod, declined := true, updatedAt := now)
  }

  predicate Capturing(r: IntentRow) {
    r.status.RequiresCapture? || r.status.Processing?
  }

  predicate CanCapture(r: IntentRow) {
    r.amountCaptured < r.amount && Capturing(r)
  }

  /** What a capture request is refused with, if it is. */
  function CaptureError(r: IntentRow, amount: int): Option<Error> {
    if !Capturing(r) then Some(CannotCapture)
    else if amount <= 0 || amount > r.amount - r.amountCaptured then Some(InvalidCaptureAmount)
    else None
  }

  function CapturedIntent(r: IntentRow, amount: int, now: int): IntentRow {
    if CaptureError(r, amount).Some? then r
    else
      var captured := r.amountCaptured + amount;
      r.(amountCaptured := captured, updatedAt := now,
         status := if captured == r.amount then Succeeded else r.status)
  }

  function CaptureEvents(r: IntentRow, amount: int, now: int): seq<Event> {
    if CaptureError(r, amount).None? && r.amountCaptured + amount == r.amount
    then [PaymentIntentSucceeded(r.id, r.invoice, r.amount, now)]
    else []
  }

  class PaymentIntent {
    const id: Id
    const invoice: Id
    const customer: Id
    const amount: int
    var amountCaptured: int
    var status: PaymentIntentStatus
    var declined: bool
    const createdAt: int
    var updatedAt: int
    const domainEvents: EventBuffer

    function Row(): IntentRow
      reads this
    {
      IntentRow(id, invoice, customer, amount, amountCaptured, status, declined, createdAt, updatedAt)
    }

    constructor New(id: Id, invoice: Id, customer: Id, amount: int, now: int)
      ensures fresh(domainEvents)
      ensures Row() == NewPaymentIntent(id, invoice, customer, amount, now)
      ensures domainEvents.pending == []
    {
      this.id, this.invoice, this.customer, this.amount := id, invoice, customer, amount;
      amountCaptured := 0;
      status, declined := RequiresPaymentMethod, false;
      createdAt, updatedAt := now, now;
      domainEvents := new EventBuffer();
    }

    constructor Load(r: IntentRow)
      ensures fresh(domainEvents)
      ensures Row() == r && domainEvents.pending == []
    {
      id, invoice, customer, amount := r.id, r.invoice, r.customer, r.amount;
      amountCaptured := r.amountCaptured;
      status, declined := r.status, r.declined;
      createdAt, updatedAt := r.createdAt, r.updatedAt;
      domainEvents := new EventBuffer();
    }

    method MarkSucceeded(now: int)
      modifies this, domainEvents
      ensures Row() == SucceededIntent(old(Row()), now)
      ensures domainEvents.pending == old(domainEvents.pending) + [PaymentIntentSucceeded(id, invoice, amount, now)]
    {
      status := Succeeded;
      amountCaptured := amount;
      updatedAt := now;
      domainEvents.Raise(PaymentIntentSucceeded(id, invoice, amount, now));
    }

    method MarkFailed(now: int)
      modifies this, domainEvents
      ensures Row() == FailedIntent(old(Row()), now)
      ensures domainEvents.pending == old(domainEvents.pending) + [PaymentIntentFailed(id, invoice, amount, now)]
    {
      status := RequiresPaymentMethod;
      updatedAt := now;
      declined := true;
      domainEvents.Raise(PaymentIntentFailed(id, invoice, amount, now));
    }

    method Capture(request: int, now: int) returns (err: Option<Error>)
      modifies this, domainEvents
      ensures err == old(CaptureError(Row(), request))
      ensures Row() == CapturedIntent(old(Row()), request, now)
      ensures domainEvents.pending == old(domainEvents.pending) + old(CaptureEvents(Row(), request, now))
    {
      if status != RequiresCapture && status != Processing {
        return Some(CannotCapture);
      }
      if request <= 0 || request > amount - amountCaptured {
        return Some(InvalidCaptureAmount);
      }
      amountCaptured := amountCaptured + request;
      updatedAt := now;
      if amountCaptured == amount {
        status := Succeeded;
        domainEvents.Raise(PaymentIntentSucceeded(id, invoice, amount, now));
      }
      return None;
    }
  }

  datatype Request = Request(amount: int, now: int)

  function AfterRequest(r: IntentRow, request: Request): IntentRow {
    CapturedIntent(r, request.amount, request.now)
  }

  /** The intent after a sequence of capture requests, each with its own clock reading. */
  function CaptureAll(r: IntentRow, requests: seq<Request>): IntentRow
    decreases |requests|
  {
    if requests == [] then r else CaptureAll(AfterRequest(r, requests[0]), requests[1..])
  }

  function CaptureAllEvents(r: IntentRow, requests: seq<Request>): seq<Event>
    decreases |requests|
  {
    if requests == [] then []
    else CaptureEvents(r, requests[0].amount, requests[0].now)
         + CaptureAllEvents(AfterRequest(r, requests[0]), requests[1..])
  }

  /** The sum of the requests that are accepted. */
  function Accepted(r: IntentRow, requests: seq<Request>): int
    decreases |requests|
  {
    if requests == [] then 0
    else (if CaptureError(r, requests[0].amount).None? then requests[0].amount else 0)
         + Accepted(AfterRequest(r, requests[0]), requests[1..])
  }

  /**
    From a capturable intent, whatever is requested: the captured amount grows by exactly the
    accepted requests and never passes the amount; the intent succeeds, with one event, exactly
    when all of it is captured.
   */
  lemma {:induction false} CapturesConserve(r: IntentRow, requests: seq<Request>)
    requires CanCapture(r)
    ensures var last := CaptureAll(r, requests);
            && last.amountCaptured == r.amountCaptured + Accepted(r, requests)
            && r.amountCaptured <= last.amountCaptured <= r.amount == last.amount
            && (last.status.Succeeded? <==> last.amountCaptured == r.amount)
            && CaptureAllEvents(r, requests)
               == if last.amountCaptured == r.amount
                  then [PaymentIntentSucceeded(r.id, r.invoice, r.amount, last.updatedAt)] else []
    decreases |requests|
  {
    if requests != [] {
      var next := AfterRequest(r, requests[0]);
      if next.status.Succeeded? {
        AllRefusedOnceSucceeded(next, requests[1..]);
      } else {
        CapturesConserve(next, requests[1..]);
      }
    }
  }

  /** Once it has succeeded, an intent refuses every request and raises nothing. */
  lemma {:induction false} AllRefusedOnceSucceeded(r: IntentRow, requests: seq<Request>)
    requires r.status.Succeeded?
    ensures CaptureAll(r, requests) == r
    ensures CaptureAllEvents(r, requests) == [] && Accepted(r, requests) == 0
    decreases |requests|
  {
    if requests != [] {
      AllRefusedOnceSucceeded(r, requests[1..]);
    }
  }
}
