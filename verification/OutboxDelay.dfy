/** How long failures put an event off, with one outbox worker and a clock that never goes back. */
module OutboxDelay {
  import opened Backoff
  import opened DomainEvents
  import opened OutboxEvents
  import opened OutboxTable
  import opened OutboxProtocol

  predicate ClockForward(s: State, a: Action) {
    a.SetClock? ==> s.clock <= a.now
  }

  /** One worker, and a clock that never goes back. */
  predicate Orderly(s: State, actions: seq<Action>)
    decreases |actions|
  {
    actions != [] ==>
      ByOneWorker(actions[0]) && ClockForward(s, actions[0]) && Orderly(Step(s, actions[0]), actions[1..])
  }

  /** The time the first `k` failures put an event off by, in all. */
  function TotalDelay(k: nat): nat {
    2 * (Pow2(k) - 1) * SECOND
  }

  /** Every failure on record has put the row off. */
  predicate RowDelayed(r: OutboxRow, clock: int) {
    && r.createdAt <= clock
    && (r.nextAttemptAt.Some? ==> r.nextAttemptAt.value >= r.createdAt + TotalDelay(r.attempt))
  }

  predicate IsDue(r: OutboxRow, clock: int) {
    r.nextAttemptAt.Some? ==> r.nextAttemptAt.value <= clock
  }

  /** The rows are put off, and what the worker holds is due. */
  predicate Delayed(s: State) {
    && (forall i | i in s.rows :: RowDelayed(s.rows[i], s.clock))
    && (forall k | 0 <= k < |HandOf(s, 0).batch| :: IsDue(HandOf(s, 0).batch[k], s.clock))
  }

  lemma DelayGrows(attempt: nat)
    ensures TotalDelay(attempt + 1) == TotalDelay(attempt) + Pow2(attempt + 1) * SECOND
    ensures TotalDelay(0) == 0
  {
  }

  /** Deferring a due row puts it off by the delay of one more failure. */
  lemma DeferralDelays(r: OutboxRow, clock: int)
    requires RowDelayed(r, clock) && IsDue(r, clock) && (r.attempt == 0 <==> r.nextAttemptAt.None?)
    ensures RowDelayed(Deferred(r, r.attempt + 1, clock), clock)
  {
    hide TotalDelay, Pow2;
    DelayGrows(r.attempt);
  }

  lemma MarkKeepsDelayed(s: State, dbOk: bool, dbNow: int)
    requires InOrder(s) && Delayed(s)
    ensures Delayed(Step(s, Mark(0, dbOk, dbNow)))
  {
    hide Safe, RemovedInOrder, TotalDelay, Pow2;
    var hand := HandOf(s, 0);
    if hand.batch != [] && hand.verdict.Some? {
      assert CopyIsRow(s, hand.batch[0]) && RowInOrder(s, hand.batch[0].id);
      assert IsDue(hand.batch[0], s.clock);
      DeferralDelays(hand.batch[0], s.clock);
      MarkedRowsAre(s, hand.batch[0], hand.verdict.value, dbNow);
      var next := AfterMark(s, 0, dbOk, dbNow);
      assert HandOf(next, 0).batch == hand.batch[1..];
    }
  }

  lemma MarkedRowsAre(s: State, r: OutboxRow, ok: bool, dbNow: int)
    requires CopyIsRow(s, r)
    ensures forall i | i in MarkedRows(s, r, ok, dbNow) ::
              i in s.rows
              && (MarkedRows(s, r, ok, dbNow)[i] == s.rows[i]
                  || MarkedRows(s, r, ok, dbNow)[i] == Marked(s.rows[i], dbNow)
                  || (i == r.id && MarkedRows(s, r, ok, dbNow)[i] == Deferred(r, r.attempt + 1, s.clock)))
  {
    hide Pow2;
  }

  lemma OtherStepsKeepDelayed(s: State, a: Action)
    requires InOrder(s) && Delayed(s) && ByOneWorker(a) && ClockForward(s, a) && !a.Mark?
    ensures Delayed(Step(s, a))
  {
    hide InOrder, TotalDelay, Pow2, Expired;
    var next := Step(s, a);
    if !a.Fetch? && !a.Abandon? {
      assert HandOf(next, 0).batch == HandOf(s, 0).batch;
    }
  }

  lemma {:induction false} OrderlyRunsDelay(s: State, actions: seq<Action>)
    requires InOrder(s) && Delayed(s) && Orderly(s, actions)
    ensures InOrder(Run(s, actions)) && Delayed(Run(s, actions))
    decreases |actions|
  {
    hide Step, InOrder, Delayed, ByOneWorker, ClockForward;
    if actions != [] {
      var a := actions[0];
      StepKeepsInOrder(s, a);
      if a.Mark? {
        OneWorkersMark(a);
        MarkKeepsDelayed(s, a.dbOk, a.dbNow);
      } else {
        OtherStepsKeepDelayed(s, a);
      }
      OrderlyRunsDelay(Step(s, a), actions[1..]);
    }
  }

  lemma OneWorkersMark(a: Action)
    requires a.Mark? && ByOneWorker(a)
    ensures a == Mark(0, a.dbOk, a.dbNow)
  {
  }

  /**
    With one worker and a clock that never goes back, after `k` failures on record the next attempt
    is at least 2^(k+1) - 2 seconds after the event was saved.
   */
  lemma FailuresDelay(clock: int, actions: seq<Action>, id: Id)
    requires Orderly(Start(clock), actions)
    ensures var s := Run(Start(clock), actions);
            id in s.rows && s.rows[id].attempt > 0 ==>
              && s.rows[id].nextAttemptAt.Some?
              && s.rows[id].nextAttemptAt.value >= s.rows[id].createdAt + (Pow2(s.rows[id].attempt + 1) - 2) * SECOND
  {
    hide Run, Orderly;
    OrderlyRunsDelay(Start(clock), actions);
    var s := Run(Start(clock), actions);
    if id in s.rows {
      assert RowInOrder(s, id) && RowDelayed(s.rows[id], s.clock);
    }
  }
}
