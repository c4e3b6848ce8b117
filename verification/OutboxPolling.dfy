/** When a row of the outbox is polled again, in which order, and when it is removed. */
module OutboxPolling {
  import opened Wrappers
  import opened Backoff
  import opened DomainEvents
  import opened OutboxEvents
  import opened OutboxTable
  import opened OutboxProtocol

  /** A saved event can be fetched from the first poll on. */
  lemma FreshIsFetchable(id: Id, event: Event, now: int, later: int)
    ensures Eligible(NewOutboxEvent(id, event, now), later)
  {
  }

  /**
    Exactly when a row can be fetched after a failure was recorded, whatever it was before: it is
    not processed, this is at most its fifth failure, and two to the power of it in seconds are over.
   */
  lemma FetchableAfterFailureIff(r: OutboxRow, attempt: nat, now: int, later: int)
    ensures Eligible(Deferred(r, attempt, now), later)
       <==> !r.processed && attempt <= 5 && now + Pow2(attempt) * 1_000_000_000 <= later
  {
    hide Pow2;
  }

  /** The same for a worker's step: the failures are counted by the copy it holds. */
  lemma FailureDefersIff(s: State, w: nat, dbNow: int, later: int)
    requires HandOf(s, w).batch != [] && HandOf(s, w).verdict == Some(false)
    requires HandOf(s, w).batch[0].id in s.rows
    ensures var copy := HandOf(s, w).batch[0];
            var after := Step(s, Mark(w, true, dbNow));
            && copy.id in after.rows
            && (Eligible(after.rows[copy.id], later)
                <==> !s.rows[copy.id].processed && copy.attempt <= 4
                     && s.clock + 2 * Pow2(copy.attempt) * 1_000_000_000 <= later)
  {
    hide Pow2;
    var copy := HandOf(s, w).batch[0];
    assert Pow2(copy.attempt + 1) == 2 * Pow2(copy.attempt) by { Pow2Doubles(copy.attempt); }
    FetchableAfterFailureIff(s.rows[copy.id], copy.attempt + 1, s.clock, later);
  }

  lemma Pow2Doubles(k: nat)
    ensures Pow2(k + 1) == 2 * Pow2(k)
  {
  }

  /** A row that was processed is never fetched again. */
  lemma ProcessedIsNotFetched(r: OutboxRow, dbNow: int, later: int)
    ensures !Eligible(Marked(r, dbNow), later)
  {
  }

  /** A batch begins with the rows never attempted, oldest first; then come the others by the time they are due. */
  lemma BatchOrder(rows: Rows, locked: set<Id>, batch: seq<OutboxRow>, now: int, limit: nat, j: nat, k: nat)
    requires IsFairBatch(rows, locked, batch, now, limit) && j < k < |batch|
    ensures batch[j].nextAttemptAt.Some? ==>
              && batch[k].nextAttemptAt.Some?
              && batch[j].nextAttemptAt.value <= batch[k].nextAttemptAt.value
    ensures batch[j].nextAttemptAt == batch[k].nextAttemptAt ==> batch[j].createdAt <= batch[k].createdAt
  {
    assert NoLater(batch[j], batch[k]);
  }

  /** Exactly when cleanup removes a row: it is processed, and was so long enough ago. */
  lemma RemovedIff(s: State, id: Id, olderThan: int, dbNow: int)
    requires id in s.rows
    ensures id !in Step(s, Cleanup(olderThan, dbNow)).rows
       <==> s.rows[id].processed && s.rows[id].processedAt.Some? && s.rows[id].processedAt.value + olderThan <= dbNow
  {
  }

  /** A row marked processed at one time is removed by a cleanup at another if and only if it is old enough then. */
  lemma MarkedRemovedIff(r: OutboxRow, markedAt: int, olderThan: int, dbNow: int)
    ensures Expired(Marked(r, markedAt), olderThan, dbNow) <==> markedAt + olderThan <= dbNow
  {
  }

  /** Between polls of the one worker: the row is there, unprocessed, and nothing was lost. */
  predicate Polled(s: State, id: Id) {
    && id in s.rows && id in s.saved && s.rows[id].id == id && !s.rows[id].processed
    && HandOf(s, 0) == EMPTY_HAND && s.lostMarks[id] == 0
  }

  function DueAt(s: State, id: Id): int
    requires id in s.rows
  {
    var next := s.rows[id].nextAttemptAt;
    if next.Some? && next.value > s.clock then next.value else s.clock
  }

  /** A poll for the one row when it is due, whose handling fails. */
  function FailedPoll(s: State, id: Id): seq<Action>
    requires id in s.rows
  {
    [SetClock(DueAt(s, id)), Fetch(0, [s.rows[id]]), Handle(0, true, false), Mark(0, true, 0)]
  }

  lemma RunFour(s: State, a: Action, b: Action, c: Action, d: Action)
    ensures Run(s, [a, b, c, d]) == Step(Step(Step(Step(s, a), b), c), d)
  {
    hide Step;
    RunPair(s, a, b);
    RunPair(Step(Step(s, a), b), c, d);
    RunAppend(s, [a, b], [c, d]);
    assert [a, b] + [c, d] == [a, b, c, d];
  }

  lemma FailedPollCounts(s: State, id: Id)
    requires Polled(s, id) && s.rows[id].attempt <= 5
    ensures var next := Run(s, FailedPoll(s, id));
            Polled(next, id) && next.rows[id].attempt == s.rows[id].attempt + 1 && next.runs[id] == s.runs[id] + 1
  {
    hide Pow2, Run;
    var a := FailedPoll(s, id);
    RunFour(s, a[0], a[1], a[2], a[3]);
    var row := s.rows[id];
    var due := Step(s, a[0]);
    assert Eligible(row, due.clock) && IsBatch(due.rows, [row], due.clock);
    var fetched := Step(due, a[1]);
    assert HandOf(fetched, 0) == Hand([row], None);
    var handled := Step(fetched, a[2]);
    assert HandOf(handled, 0) == Hand([row], Some(false));
    assert [row][1..] == [];
  }

  lemma {:induction false} FailsAgain(s: State, id: Id, n: nat) returns (actions: seq<Action>)
    requires Polled(s, id) && s.rows[id].attempt + n <= 6
    ensures OneWorker(actions)
    ensures Run(s, actions).runs[id] == s.runs[id] + n && Run(s, actions).lostMarks[id] == 0
    decreases n
  {
    hide Step;
    if n == 0 {
      actions := [];
    } else {
      var poll := FailedPoll(s, id);
      FailedPollCounts(s, id);
      var rest := FailsAgain(Run(s, poll), id, n - 1);
      RunAppend(s, poll, rest);
      actions := poll + rest;
    }
  }

  /** The bound of six handler runs is met, with one worker and no update lost. */
  lemma SixRunsHappen(clock: int, id: Id, event: Event)
    ensures exists actions: seq<Action> ::
              OneWorker(actions)
              && Run(Start(clock), actions).runs[id] == 6 && Run(Start(clock), actions).lostMarks[id] == 0
  {
    hide Step, Run;
    var save := Save(id, event);
    SavedIsPolled(clock, id, event);
    var rest := FailsAgain(Step(Start(clock), save), id, 6);
    RunOne(Start(clock), save);
    RunAppend(Start(clock), [save], rest);
    var actions := [save] + rest;
    assert OneWorker(actions);
    assert Run(Start(clock), actions).runs[id] == 6;
  }

  lemma SavedIsPolled(clock: int, id: Id, event: Event)
    ensures var s := Step(Start(clock), Save(id, event)); Polled(s, id) && s.rows[id].attempt == 0 && s.runs[id] == 0
  {
  }
}
