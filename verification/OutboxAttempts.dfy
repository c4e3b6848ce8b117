/** What several outbox workers do to the attempts of a row. */
module OutboxAttempts {
  import opened Wrappers
  import opened Backoff
  import opened DomainEvents
  import opened OutboxTable
  import opened OutboxProtocol

  /** No row has more attempts than the limit and one, and no worker a copy beyond the limit. */
  predicate WithinLimit(s: State) {
    && (forall i | i in s.rows :: s.rows[i].attempt <= MAX_ATTEMPT + 1)
    && (forall w, k | w in s.hands && 0 <= k < |s.hands[w].batch| :: s.hands[w].batch[k].attempt <= MAX_ATTEMPT)
  }

  lemma StepStaysWithinLimit(s: State, a: Action)
    requires WithinLimit(s)
    ensures WithinLimit(Step(s, a))
  {
    hide Pow2, Expired;
    var next := Step(s, a);
    forall w, k | w in next.hands && 0 <= k < |next.hands[w].batch|
      ensures next.hands[w].batch[k].attempt <= MAX_ATTEMPT
    {
      if a.Mark? && a.worker == w && next.hands[w] != HandOf(s, w) {
        assert next.hands[w].batch[k] == s.hands[w].batch[k + 1];
      }
    }
  }

  lemma {:induction false} RunsStayWithinLimit(s: State, actions: seq<Action>)
    requires WithinLimit(s)
    ensures WithinLimit(Run(s, actions))
    decreases |actions|
  {
    hide Step, WithinLimit;
    if actions != [] {
      StepStaysWithinLimit(s, actions[0]);
      RunsStayWithinLimit(Step(s, actions[0]), actions[1..]);
    }
  }

  /** With any number of workers, in every interleaving, a row never counts more than six attempts. */
  lemma AttemptsBounded(clock: int, actions: seq<Action>, id: Id)
    ensures var s := Run(Start(clock), actions); id in s.rows ==> s.rows[id].attempt <= 6
  {
    hide Run;
    RunsStayWithinLimit(Start(clock), actions);
  }

  /**
    Exactly when a step sets a row's attempts back: a worker puts its failure on record by a copy
    that was overtaken, more than one attempt behind the row.
   */
  lemma AttemptFallsIff(s: State, a: Action, id: Id)
    requires id in s.rows && id in s.saved && id in Step(s, a).rows
    ensures Step(s, a).rows[id].attempt < s.rows[id].attempt
       <==> a.Mark? && a.dbOk && HandOf(s, a.worker).batch != [] && HandOf(s, a.worker).verdict == Some(false)
            && HandOf(s, a.worker).batch[0].id == id
            && HandOf(s, a.worker).batch[0].attempt + 1 < s.rows[id].attempt
  {
    hide Pow2, Expired, IsBatch;
  }

  /** With one worker no step does. */
  lemma OneWorkersAttemptsRise(clock: int, actions: seq<Action>, a: Action, id: Id)
    requires OneWorker(actions) && ByOneWorker(a)
    requires var s := Run(Start(clock), actions); id in s.rows && id in Step(s, a).rows
    ensures var s := Run(Start(clock), actions); s.rows[id].attempt <= Step(s, a).rows[id].attempt
  {
    hide Run, Step, OneWorker;
    OneWorkerInOrder(Start(clock), actions);
    var s := Run(Start(clock), actions);
    RowsAreSaved(s);
    AttemptFallsIff(s, a, id);
    if a.Mark? && HandOf(s, 0).batch != [] {
      assert CopyIsRow(s, HandOf(s, 0).batch[0]);
    }
  }
}
