/** Domain events and the buffer each aggregate collects them in. */
module DomainEvents {

  type Id = nat

  /** The status of a subscription, which its update events carry. */
  datatype SubscriptionStatus = Active | PastDue | Canceled | Unpaid | Trialing | Incomplete

  datatype EventType =
    | EventSubscriptionCreated
    | EventSubscriptionRenewed
    | EventSubscriptionUpdated
    | EventSubscriptionCanceled
    | EventInvoiceCreated
    | EventInvoicePaid
    | EventInvoicePaymentFailed
    | EventPaymentIntentSucceeded
    | EventPaymentIntentFailed

  datatype Event =
    | SubscriptionCreated(subscription: Id, price: Id, nextBillingAt: int, occurredOn: int)
    | SubscriptionRenewed(subscription: Id, invoice: Id, amount: int, newPeriodEnd: int, occurredOn: int)
    | SubscriptionUpdated(subscription: Id, status: SubscriptionStatus, cancelAtPeriodEnd: bool, occurredOn: int)
    | SubscriptionCanceled(subscription: Id, atPeriodEnd: bool, occurredOn: int)
    | InvoiceCreated(invoice: Id, amount: int, occurredOn: int)
    | InvoicePaid(invoice: Id, amount: int, occurredOn: int)
    | InvoicePaymentFailed(invoice: Id, amount: int, occurredOn: int)
    | PaymentIntentSucceeded(intent: Id, invoice: Id, amount: int, occurredOn: int)
    | PaymentIntentFailed(intent: Id, invoice: Id, amount: int, occurredOn: int)
  {
    function Type(): EventType {
      match this
      case SubscriptionCreated(_, _, _, _) => EventSubscriptionCreated
      case SubscriptionRenewed(_, _, _, _, _) => EventSubscriptionRenewed
      case SubscriptionUpdated(_, _, _, _) => EventSubscriptionUpdated
      case SubscriptionCanceled(_, _, _) => EventSubscriptionCanceled
      case InvoiceCreated(_, _, _) => EventInvoiceCreated
      case InvoicePaid(_, _, _) => EventInvoicePaid
      case InvoicePaymentFailed(_, _, _) => EventInvoicePaymentFailed
      case PaymentIntentSucceeded(_, _, _, _) => EventPaymentIntentSucceeded
      case PaymentIntentFailed(_, _, _, _) => EventPaymentIntentFailed
    }

    function AggregateId(): Id {
      match this
      case SubscriptionCreated(s, _, _, _) => s
      case SubscriptionRenewed(s, _, _, _, _) => s
      case SubscriptionUpdated(s, _, _, _) => s
      case SubscriptionCanceled(s, _, _) => s
      case InvoiceCreated(i, _, _) => i
      case InvoicePaid(i, _, _) => i
      case InvoicePaymentFailed(i, _, _) => i
      case PaymentIntentSucceeded(p, _, _, _) => p
      case PaymentIntentFailed(p, _, _, _) => p
    }
  }

  /** The events an aggregate has raised and not yet handed over, in order. */
  class EventBuffer {
    var pending: seq<Event>

    constructor ()
      ensures pending == []
    {
      pending := [];
    }

    method Raise(event: Event)
      modifies this
      ensures pending == old(pending) + [event]
    {
      pending := pending + [event];
    }

    method ClearAndReturn() returns (events: seq<Event>)
      modifies this
      ensures events == old(pending) && pending == []
    {
      events := pending;
      pending := [];
    }
  }
}
