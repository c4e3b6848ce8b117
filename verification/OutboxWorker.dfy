/** One outbox worker's poll, as the loop over a batch that it is, and the protocol steps it amounts to. */
module OutboxWorker {
  import opened Wrappers
  import opened DomainEvents
  import opened OutboxEvents
  import opened OutboxTable
  import opened OutboxProtocol

  /** What befalls one event of a batch: the clock, the payload, the handler, the row update, a stop before it. */
  datatype Fate = Fate(now: int, stopped: bool, payloadOk: bool, handlerOk: bool, dbOk: bool, dbNow: int)

  class OutboxProcessor {
    const outbox: OutboxRepository
    const worker: nat
    /** The protocol state that this worker and its table are part of. */
    ghost var trail: State

    ghost predicate Valid()
      reads this, outbox
    {
      trail.rows == outbox.rows && Keyed(outbox.rows)
    }

    constructor (outbox: OutboxRepository, worker: nat, ghost trail: State)
      requires trail.rows == outbox.rows && Keyed(outbox.rows)
      ensures Valid() && this.outbox == outbox && this.worker == worker && this.trail == trail
    {
      this.outbox, this.worker, this.trail := outbox, worker, trail;
    }

    /** Handles the event in hand and marks its row by the outcome. */
    method ProcessEvent(event: OutboxRow, fate: Fate)
      requires Valid() && HandOf(trail, worker).batch != [] && HandOf(trail, worker).verdict.None?
      requires event == HandOf(trail, worker).batch[0]
      modifies this, outbox
      ensures Valid()
      ensures trail == Step(Step(Step(old(trail), SetClock(fate.now)), Handle(worker, fate.payloadOk, fate.handlerOk)),
                            Mark(worker, fate.dbOk, fate.dbNow))
      ensures HandOf(trail, worker) == Hand(old(HandOf(trail, worker)).batch[1..], None)
    {
      ghost var handled := Step(Step(trail, SetClock(fate.now)), Handle(worker, fate.payloadOk, fate.handlerOk));
      assert HandOf(handled, worker) == Hand(HandOf(trail, worker).batch, Some(fate.payloadOk && fate.handlerOk));
      if !fate.payloadOk || !fate.handlerOk {
        if fate.dbOk {
          var _ := outbox.MarkFailed(event.id, event.attempt + 1, fate.now);
        }
      } else {
        if fate.dbOk {
          var _ := outbox.MarkProcessed(event.id, fate.dbNow);
        }
      }
      trail := Step(handled, Mark(worker, fate.dbOk, fate.dbNow));
    }

    /**
      One poll: fetch the due rows, then go through them until stopped. The table ends up as
      the protocol has it after this worker's steps.
     */
    method ProcessBatch(batchSize: nat, locked: set<Id>, now: int, fates: nat -> Fate)
      returns (events: seq<OutboxRow>, ghost steps: seq<Action>)
      requires Valid() && HandOf(trail, worker).batch == []
      modifies this, outbox
      ensures Valid() && HandOf(trail, worker).batch == []
      ensures IsFairBatch(old(outbox.rows), locked, events, now, batchSize)
      ensures trail == Run(old(trail), steps)
      ensures |steps| >= 2 && steps[..2] == [SetClock(now), Fetch(worker, events)]
    {
      hide Step, IsBatch;
      ghost var s0 := trail;
      events := outbox.GetUnprocessed(batchSize, locked, now);
      steps := [SetClock(now), Fetch(worker, events)];
      RunPair(s0, SetClock(now), Fetch(worker, events));
      Fetched(s0, worker, now, events);
      trail := Run(s0, steps);
      var k := 0;
      while k < |events|
        invariant 0 <= k <= |events|
        invariant Valid()
        invariant HandOf(trail, worker) == Hand(events[k..], None)
        invariant trail == Run(s0, steps)
        invariant |steps| >= 2 && steps[..2] == [SetClock(now), Fetch(worker, events)]
      {
        var fate := fates(k);
        if fate.stopped {
          ghost var stop := Abandon(worker);
          RunAppend(s0, steps, [stop]);
          RunOne(trail, stop);
          Stops(trail, worker);
          steps := steps + [stop];
          trail := Step(trail, stop);
          return events, steps;
        }
        ghost var three := [SetClock(fate.now), Handle(worker, fate.payloadOk, fate.handlerOk),
                            Mark(worker, fate.dbOk, fate.dbNow)];
        RunAppend(s0, steps, three);
        RunThree(trail, three[0], three[1], three[2]);
        ProcessEvent(events[k], fate);
        steps := steps + three;
        k := k + 1;
      }
    }
  }

  lemma Fetched(s: State, w: nat, now: int, batch: seq<OutboxRow>)
    requires HandOf(s, w).batch == [] && IsBatch(s.rows, batch, now)
    ensures var next := Step(Step(s, SetClock(now)), Fetch(w, batch));
            next.rows == s.rows && HandOf(next, w) == Hand(batch, None)
  {
    hide IsBatch;
  }

  lemma Stops(s: State, w: nat)
    ensures Step(s, Abandon(w)).rows == s.rows && HandOf(Step(s, Abandon(w)), w) == EMPTY_HAND
  {
  }
}
