/** The row an event becomes in the outbox table. */
module OutboxEvents {
  import opened Wrappers
  import opened DomainEvents

  datatype OutboxRow = OutboxRow(
    id: Id,
    event: Event,
    occurredAt: int,
    createdAt: int,
    processed: bool,
    processedAt: Option<int>,
    attempt: nat,
    nextAttemptAt: Option<int>)

  function NewOutboxEvent(id: Id, event: Event, now: int): OutboxRow {
    OutboxRow(id, event, event.occurredOn, now, false, None, 0, None)
  }

  /** The events of a sequence of rows, in row order. */
  function EventsOf(rows: seq<OutboxRow>): (events: seq<Event>)
    ensures |events| == |rows|
    ensures forall k :: 0 <= k < |rows| ==> events[k] == rows[k].event
  {
    seq(|rows|, k requires 0 <= k < |rows| => rows[k].event)
  }

  /** The outbox after the events were dispatched: one fresh row each, in order, behind the rows already there. */
  function Dispatched(outbox: seq<OutboxRow>, events: seq<Event>, now: int): (rows: seq<OutboxRow>)
    ensures outbox <= rows && EventsOf(rows) == EventsOf(outbox) + events
    ensures forall k | |outbox| <= k < |rows| ::
              && rows[k].id == k && rows[k].createdAt == now && rows[k].occurredAt == rows[k].event.occurredOn
              && !rows[k].processed && rows[k].processedAt.None?
              && rows[k].attempt == 0 && rows[k].nextAttemptAt.None?
  {
    outbox + seq(|events|, k requires 0 <= k < |events| => NewOutboxEvent(|outbox| + k, events[k], now))
  }

  method Dispatch(outbox: seq<OutboxRow>, events: seq<Event>, now: int) returns (rows: seq<OutboxRow>)
    ensures rows == Dispatched(outbox, events, now)
  {
    if events == [] {
      return outbox;
    }
    var outboxEvents: seq<OutboxRow> := [];
    for k := 0 to |events|
      invariant |outboxEvents| == k
      invariant forall j :: 0 <= j < k ==> outboxEvents[j] == NewOutboxEvent(|outbox| + j, events[j], now)
    {
      outboxEvents := outboxEvents + [NewOutboxEvent(|outbox| + k, events[k], now)];
    }
    rows := outbox + outboxEvents;
  }
}
