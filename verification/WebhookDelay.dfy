/** How long refusals put a webhook off, with one worker and a clock that never goes back. */
module WebhookDelay {
  import opened Backoff
  import opened Webhook
  import opened WebhookProtocol

  /** Every failure on record has put the entry off. */
  predicate RowDelayed(r: LogRow, clock: int) {
    && r.attempt >= 1
    && r.createdAt <= clock
    && r.nextAttemptAt >= r.createdAt + (Pow2(r.attempt - 1) - 1) * SECOND
  }

  /** The entries are put off, and those the worker holds are due. */
  predicate Delayed(s: State) {
    && (forall i | i in s.rows :: RowDelayed(s.rows[i], s.clock))
    && (forall k | 0 <= k < |HandOf(s, 0)| :: HandOf(s, 0)[k].nextAttemptAt <= s.clock)
  }

  lemma RescheduledIsDelayed(r: LogRow, clock: int)
    requires RowDelayed(r, clock) && r.nextAttemptAt <= clock
    ensures RowDelayed(RescheduledRow(r, clock + Pow2(r.attempt - 1) * SECOND, clock), clock)
  {
    assert Pow2(r.attempt) == 2 * Pow2(r.attempt - 1);
  }

  lemma RetryKeepsDelayed(s: State, maxAttempts: int, fate: Fate)
    requires InOrder(s, maxAttempts) && Delayed(s) && HandOf(s, 0) != [] && fate.now == s.clock
    ensures Delayed(Retried(s, maxAttempts, 0, fate))
  {
    hide Pow2, Plus, RowInOrder;
    var copy := HandOf(s, 0)[0];
    assert CopyIsRow(s, copy) && copy.nextAttemptAt <= s.clock;
    RescheduledIsDelayed(copy, s.clock);
    var next := Retried(s, maxAttempts, 0, fate);
    assert HandOf(next, 0) == HandOf(s, 0)[1..];
  }

  lemma StepKeepsDelayed(s: State, maxAttempts: int, a: Action)
    requires InOrder(s, maxAttempts) && Delayed(s) && Orderly(s, a)
    ensures Delayed(Step(s, maxAttempts, a))
  {
    hide InOrder;
    if a.Retry? {
      if HandOf(s, 0) != [] {
        RetryKeepsDelayed(s, maxAttempts, Fate(s.clock, a.endpointOk, a.response, a.dbOk));
      }
    } else {
      assert Pow2(0) == 1;
      assert a.Fetch? || HandOf(Step(s, maxAttempts, a), 0) == HandOf(s, 0);
    }
  }

  lemma {:induction false} OrderlyRunsDelay(s: State, maxAttempts: int, actions: seq<Action>)
    requires InOrder(s, maxAttempts) && Delayed(s) && OrderlyRun(s, maxAttempts, actions)
    ensures InOrder(Run(s, maxAttempts, actions), maxAttempts) && Delayed(Run(s, maxAttempts, actions))
    decreases |actions|
  {
    hide Step, InOrder, Delayed;
    if actions != [] {
      StepKeepsInOrder(s, maxAttempts, actions[0]);
      StepKeepsDelayed(s, maxAttempts, actions[0]);
      OrderlyRunsDelay(Step(s, maxAttempts, actions[0]), maxAttempts, actions[1..]);
    }
  }

  /**
    With one worker and a clock that never goes back, an entry with `k` failures on record is due
    no sooner than 2^k - 1 seconds after its creation.
   */
  lemma FailuresDelay(clock: int, maxAttempts: int, actions: seq<Action>, id: Id)
    requires OrderlyRun(Start(clock), maxAttempts, actions)
    ensures var s := Run(Start(clock), maxAttempts, actions);
            id in s.rows ==> s.rows[id].nextAttemptAt >= s.rows[id].createdAt + (Pow2(s.failures[id]) - 1) * SECOND
  {
    hide Run, OrderlyRun;
    OrderlyRunsDelay(Start(clock), maxAttempts, actions);
    var s := Run(Start(clock), maxAttempts, actions);
    if id in s.rows {
      assert RowInOrder(s, maxAttempts, id) && RowDelayed(s.rows[id], s.clock);
    }
  }
}
