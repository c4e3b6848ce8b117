/**
  Any number of outbox workers polling one table, interleaved with saves, cleanups, lost
  updates and stops. A worker holds the copies it has fetched; nothing else is locked.
 */
module OutboxProtocol {
  import opened Wrappers
  import opened Backoff
  import opened DomainEvents
  import opened OutboxEvents
  import opened OutboxTable

  /** A worker's copies, the first being the current one, and what came of handling that. */
  datatype Hand = Hand(batch: seq<OutboxRow>, verdict: Option<bool>)

  const EMPTY_HAND := Hand([], None)

  /**
    `runs` and `successes` count, for each event, handler runs and successful ones; `lostMarks` and
    `lostSuccesses` the row updates that failed, and those of them that were to record a success.
   */
  datatype State = State(
    rows: Rows,
    saved: set<Id>,
    runs: multiset<Id>,
    successes: multiset<Id>,
    lostMarks: multiset<Id>,
    lostSuccesses: multiset<Id>,
    hands: map<nat, Hand>,
    clock: int)

  datatype Action =
    | Save(id: Id, event: Event)
    | Fetch(worker: nat, batch: seq<OutboxRow>)
    | Handle(worker: nat, reached: bool, ok: bool)
    | Mark(worker: nat, dbOk: bool, dbNow: int)
    | Abandon(worker: nat)
    | Cleanup(olderThan: int, dbNow: int)
    | SetClock(now: int)

  function Start(clock: int): State {
    State(map[], {}, multiset{}, multiset{}, multiset{}, multiset{}, map[], clock)
  }

  function HandOf(s: State, w: nat): Hand {
    if w in s.hands then s.hands[w] else EMPTY_HAND
  }

  function Handled(s: State, w: nat, reached: bool, ok: bool): State
    requires HandOf(s, w).batch != []
  {
    var hand := HandOf(s, w);
    var id := hand.batch[0].id;
    s.(hands := s.hands[w := hand.(verdict := Some(reached && ok))],
       runs := if reached then s.runs[id := s.runs[id] + 1] else s.runs,
       successes := if reached && ok then s.successes[id := s.successes[id] + 1] else s.successes)
  }

  /** The update of the current row, by the fetched copy; when it is lost only the worker moves on. */
  function MarkedRows(s: State, r: OutboxRow, ok: bool, dbNow: int): Rows {
    if r.id !in s.rows then s.rows
    else if ok then s.rows[r.id := Marked(s.rows[r.id], dbNow)]
    else s.rows[r.id := Deferred(s.rows[r.id], r.attempt + 1, s.clock)]
  }

  function AfterMark(s: State, w: nat, dbOk: bool, dbNow: int): State
    requires HandOf(s, w).batch != [] && HandOf(s, w).verdict.Some?
  {
    var hand := HandOf(s, w);
    var r := hand.batch[0];
    s.(hands := s.hands[w := Hand(hand.batch[1..], None)],
       rows := if dbOk then MarkedRows(s, r, hand.verdict.value, dbNow) else s.rows,
       lostMarks := if dbOk then s.lostMarks else s.lostMarks[r.id := s.lostMarks[r.id] + 1],
       lostSuccesses := if dbOk || !hand.verdict.value then s.lostSuccesses
                        else s.lostSuccesses[r.id := s.lostSuccesses[r.id] + 1])
  }

  /** A worker that stops drops its batch; stopped between handling and marking, it loses that mark. */
  function Abandoned(s: State, w: nat): State {
    var hand := HandOf(s, w);
    s.(hands := s.hands[w := EMPTY_HAND],
       lostMarks := if hand.batch != [] && hand.verdict.Some?
                    then var id := hand.batch[0].id; s.lostMarks[id := s.lostMarks[id] + 1]
                    else s.lostMarks,
       lostSuccesses := if hand.batch != [] && hand.verdict == Some(true)
                        then var id := hand.batch[0].id; s.lostSuccesses[id := s.lostSuccesses[id] + 1]
                        else s.lostSuccesses)
  }

  /** The effect of a step; a step that is not possible in a state changes nothing. */
  function Step(s: State, a: Action): State {
    match a
    case Save(id, event) =>
      if id in s.saved then s
      else s.(rows := s.rows[id := NewOutboxEvent(id, event, s.clock)], saved := s.saved + {id})
    case Fetch(w, batch) =>
      if HandOf(s, w).batch == [] && IsBatch(s.rows, batch, s.clock) then s.(hands := s.hands[w := Hand(batch, None)])
      else s
    case Handle(w, reached, ok) =>
      if HandOf(s, w).batch != [] && HandOf(s, w).verdict.None? then Handled(s, w, reached, ok) else s
    case Mark(w, dbOk, dbNow) =>
      if HandOf(s, w).batch != [] && HandOf(s, w).verdict.Some? then AfterMark(s, w, dbOk, dbNow) else s
    case Abandon(w) => Abandoned(s, w)
    case Cleanup(olderThan, dbNow) =>
      s.(rows := map i | i in s.rows && !Expired(s.rows[i], olderThan, dbNow) :: s.rows[i])
    case SetClock(now) => s.(clock := now)
  }

  function Run(s: State, actions: seq<Action>): State
    decreases |actions|
  {
    if actions == [] then s else Run(Step(s, actions[0]), actions[1..])
  }

  /**
    With any number of workers: a processed row was handled successfully; a saved event is
    still in the table or was handled; a success in a worker's hand is on record.
   */
  predicate Safe(s: State) {
    && Keyed(s.rows)
    && (forall i | i in s.rows :: i in s.saved && (s.rows[i].processed ==> i in s.successes))
    && (forall i | i in s.saved :: i in s.rows || i in s.successes)
    && (forall w | w in s.hands && s.hands[w].verdict == Some(true) && s.hands[w].batch != [] ::
          s.hands[w].batch[0].id in s.successes)
  }

  /** A step never takes back a processed mark, and removes none but processed rows. */
  predicate Keeps(s: State, next: State) {
    && s.saved <= next.saved
    && (forall i | i in s.rows && s.rows[i].processed && i in next.rows :: next.rows[i].processed)
    && (forall i | i in s.rows && i !in next.rows :: s.rows[i].processed)
  }

  lemma StepKeepsSafe(s: State, a: Action)
    requires Safe(s)
    ensures Safe(Step(s, a)) && Keeps(s, Step(s, a))
  {
    match a {
      case Handle(w, reached, ok) => HandleIsSafe(s, a);
      case Mark(w, dbOk, dbNow) => MarkIsSafe(s, a);
      case _ => OtherStepsAreSafe(s, a);
    }
  }

  lemma HandleIsSafe(s: State, a: Action)
    requires Safe(s) && a.Handle?
    ensures Safe(Step(s, a)) && Keeps(s, Step(s, a))
  {
  }

  lemma MarkIsSafe(s: State, a: Action)
    requires Safe(s) && a.Mark?
    ensures Safe(Step(s, a)) && Keeps(s, Step(s, a))
  {
    hide Pow2;
  }

  lemma OtherStepsAreSafe(s: State, a: Action)
    requires Safe(s) && !a.Handle? && !a.Mark?
    ensures Safe(Step(s, a)) && Keeps(s, Step(s, a))
  {
    hide Pow2, Handled, AfterMark;
  }

  lemma {:induction false} RunsStaySafe(s: State, actions: seq<Action>)
    requires Safe(s)
    ensures Safe(Run(s, actions))
    ensures s.saved <= Run(s, actions).saved
    decreases |actions|
  {
    hide Step, Safe;
    if actions != [] {
      StepKeepsSafe(s, actions[0]);
      RunsStaySafe(Step(s, actions[0]), actions[1..]);
    }
  }

  /**
    At least once: after any interleaving, every event ever saved is still in the table or has
    been handled successfully, and none is marked processed that was not.
   */
  lemma AtLeastOnce(clock: int, actions: seq<Action>, before: nat, id: Id)
    requires before <= |actions| && id in Run(Start(clock), actions[..before]).saved
    ensures var s := Run(Start(clock), actions);
            && (id in s.rows || s.successes[id] > 0)
            && (id in s.rows && s.rows[id].processed ==> s.successes[id] > 0)
  {
    hide Step;
    RunAppend(Start(clock), actions[..before], actions[before..]);
    assert actions[..before] + actions[before..] == actions;
    RunsStaySafe(Start(clock), actions[..before]);
    RunsStaySafe(Run(Start(clock), actions[..before]), actions[before..]);
  }

  lemma {:induction false} RunAppend(s: State, a: seq<Action>, b: seq<Action>)
    ensures Run(s, a + b) == Run(Run(s, a), b)
    decreases |a|
  {
    hide Step;
    if a == [] {
      assert a + b == b;
    } else {
      assert (a + b)[1..] == a[1..] + b;
      RunAppend(Step(s, a[0]), a[1..], b);
    }
  }

  lemma RunOne(s: State, a: Action)
    ensures Run(s, [a]) == Step(s, a)
  {
    hide Step;
    assert Run(s, [a]) == Run(Step(s, a), [a][1..]);
  }

  lemma RunPair(s: State, a: Action, b: Action)
    ensures Run(s, [a, b]) == Step(Step(s, a), b)
  {
    hide Step;
    RunOne(Step(s, a), b);
    assert [a, b][1..] == [b];
  }

  lemma RunThree(s: State, a: Action, b: Action, c: Action)
    ensures Run(s, [a, b, c]) == Step(Step(Step(s, a), b), c)
  {
    hide Step;
    RunPair(Step(s, a), b, c);
    assert [a, b, c][1..] == [b, c];
  }

  /** The action is the one worker's, or not a worker's at all. */
  predicate ByOneWorker(a: Action) {
    match a
    case Fetch(w, _) => w == 0
    case Handle(w, _, _) => w == 0
    case Mark(w, _, _) => w == 0
    case Abandon(w) => w == 0
    case _ => true
  }

  /** One worker, whatever the clock does. */
  predicate OneWorker(actions: seq<Action>) {
    forall k | 0 <= k < |actions| :: ByOneWorker(actions[k])
  }

  /** The row in the worker's hand has been handled but not yet marked. */
  function Pending(s: State, id: Id): nat {
    var hand := HandOf(s, 0);
    if hand.batch != [] && hand.batch[0].id == id && hand.verdict.Some? then 1 else 0
  }

  /** It has been handled successfully and not yet marked. */
  function PendingSuccess(s: State, id: Id): nat {
    var hand := HandOf(s, 0);
    if hand.batch != [] && hand.batch[0].id == id && hand.verdict == Some(true) then 1 else 0
  }

  /** A row runs out of attempts in time, and accounts for its handler's runs and successes. */
  predicate RowInOrder(s: State, id: Id)
    requires id in s.rows
  {
    var r := s.rows[id];
    && r.attempt <= MAX_ATTEMPT + 1
    && (r.processed ==> r.attempt <= MAX_ATTEMPT)
    && (r.attempt == 0 <==> r.nextAttemptAt.None?)
    && s.runs[id] <= r.attempt + (if r.processed then 1 else 0) + s.lostMarks[id] + Pending(s, id)
    && s.successes[id] == (if r.processed then 1 else 0) + s.lostSuccesses[id] + PendingSuccess(s, id)
  }

  /** A removed row was processed, once. */
  predicate RemovedInOrder(s: State, id: Id) {
    s.runs[id] <= MAX_ATTEMPT + 1 + s.lostMarks[id] && s.successes[id] == 1 + s.lostSuccesses[id]
  }

  /** A copy in the one worker's hand is the row itself, not processed and with an attempt to spare. */
  predicate CopyIsRow(s: State, copy: OutboxRow) {
    && copy.id in s.rows && s.rows[copy.id] == copy
    && !copy.processed && copy.attempt <= MAX_ATTEMPT
  }

  ghost predicate InOrder(s: State) {
    && Safe(s)
    && (forall i | i in s.rows :: RowInOrder(s, i))
    && (forall i | i in s.saved && i !in s.rows :: RemovedInOrder(s, i))
    && (forall i: Id | i !in s.saved :: s.runs[i] == s.successes[i] == s.lostSuccesses[i] == 0)
    && (forall k | 0 <= k < |HandOf(s, 0).batch| :: CopyIsRow(s, HandOf(s, 0).batch[k]))
    && (forall j, k | 0 <= j < k < |HandOf(s, 0).batch| :: HandOf(s, 0).batch[j].id != HandOf(s, 0).batch[k].id)
  }

  lemma StepKeepsInOrder(s: State, a: Action)
    requires InOrder(s) && ByOneWorker(a)
    ensures InOrder(Step(s, a))
  {
    hide Safe;
    StepKeepsSafe(s, a);
    match a {
      case Save(id, event) => SaveInOrder(s, id, event);
      case Fetch(w, batch) => FetchInOrder(s, w, batch);
      case Handle(w, reached, ok) => HandleInOrder(s, reached, ok);
      case Mark(w, dbOk, dbNow) => MarkInOrder(s, dbOk, dbNow);
      case Abandon(w) => AbandonInOrder(s);
      case Cleanup(olderThan, dbNow) => CleanupInOrder(s, olderThan, dbNow);
      case SetClock(now) => ClockInOrder(s, now);
    }
  }

  lemma RowsAreSaved(s: State)
    requires Safe(s)
    ensures s.rows.Keys <= s.saved
  {
  }

  /** A row stays in order when neither it nor what is counted about it changes. */
  lemma UntouchedRowInOrder(s: State, next: State, i: Id)
    requires i in s.rows && RowInOrder(s, i) && i in next.rows && next.rows[i] == s.rows[i]
    requires next.runs[i] == s.runs[i] && next.successes[i] == s.successes[i]
    requires next.lostMarks[i] == s.lostMarks[i] && next.lostSuccesses[i] == s.lostSuccesses[i]
    requires Pending(next, i) == Pending(s, i) && PendingSuccess(next, i) == PendingSuccess(s, i)
    ensures RowInOrder(next, i)
  {
    hide Pending, PendingSuccess;
  }

  lemma NewRowInOrder(s: State, id: Id, event: Event)
    requires InOrder(s) && id !in s.saved
    ensures RowInOrder(Step(s, Save(id, event)), id)
  {
    hide Safe, RowInOrder;
    CopiesAreRows(s);
    RowsAreSaved(s);
    var next := Step(s, Save(id, event));
    assert HandOf(next, 0) == HandOf(s, 0);
    assert Pending(next, id) == 0 && PendingSuccess(next, id) == 0;
    FreshRowInOrder(next, id);
  }

  lemma FreshRowInOrder(s: State, id: Id)
    requires id in s.rows && s.runs[id] == s.successes[id] == s.lostSuccesses[id] == 0
    requires Pending(s, id) == 0 && PendingSuccess(s, id) == 0
    requires s.rows[id].attempt == 0 && s.rows[id].nextAttemptAt.None? && !s.rows[id].processed
    ensures RowInOrder(s, id)
  {
  }

  lemma SaveInOrder(s: State, id: Id, event: Event)
    requires InOrder(s) && Safe(Step(s, Save(id, event)))
    ensures InOrder(Step(s, Save(id, event)))
  {
    hide Safe, RowInOrder, RemovedInOrder, CopyIsRow;
    RowsAreSaved(s);
    var next := Step(s, Save(id, event));
    if id !in s.saved {
      NewRowInOrder(s, id, event);
      assert HandOf(next, 0) == HandOf(s, 0);
      forall i | i in s.rows ensures RowInOrder(next, i) {
        UntouchedRowInOrder(s, next, i);
      }
      forall i | i in next.saved && i !in next.rows ensures RemovedInOrder(next, i) {
        RemovedStays(s, next, i);
      }
      forall k | 0 <= k < |HandOf(next, 0).batch| ensures CopyIsRow(next, HandOf(next, 0).batch[k]) {
        CopyStays(s, next, HandOf(s, 0).batch[k]);
      }
    }
  }

  lemma RemovedStays(s: State, next: State, i: Id)
    requires RemovedInOrder(s, i) && next.runs[i] == s.runs[i] && next.successes[i] == s.successes[i]
    requires next.lostMarks[i] == s.lostMarks[i] && next.lostSuccesses[i] == s.lostSuccesses[i]
    ensures RemovedInOrder(next, i)
  {
  }

  lemma CopyStays(s: State, next: State, copy: OutboxRow)
    requires CopyIsRow(s, copy)
    requires copy.id in s.rows && !copy.processed ==> copy.id in next.rows && next.rows[copy.id] == s.rows[copy.id]
    ensures CopyIsRow(next, copy)
  {
  }

  lemma FetchInOrder(s: State, w: nat, batch: seq<OutboxRow>)
    requires InOrder(s) && w == 0 && Safe(Step(s, Fetch(w, batch)))
    ensures InOrder(Step(s, Fetch(w, batch)))
  {
    hide Safe;
    var next := Step(s, Fetch(w, batch));
    forall i | i in next.rows ensures RowInOrder(next, i) {
      assert RowInOrder(s, i);
    }
  }

  lemma HandledRowInOrder(s: State, reached: bool, ok: bool, i: Id)
    requires HandOf(s, 0).batch != [] && HandOf(s, 0).verdict.None? && i in s.rows && RowInOrder(s, i)
    ensures RowInOrder(Handled(s, 0, reached, ok), i)
  {
  }

  lemma HandleInOrder(s: State, reached: bool, ok: bool)
    requires InOrder(s) && Safe(Step(s, Handle(0, reached, ok)))
    ensures InOrder(Step(s, Handle(0, reached, ok)))
  {
    hide Safe, RowInOrder;
    var next := Step(s, Handle(0, reached, ok));
    if HandOf(s, 0).batch != [] && HandOf(s, 0).verdict.None? {
      RowsAreSaved(s);
      CopiesAreRows(s);
      forall i | i in s.rows ensures RowInOrder(next, i) {
        HandledRowInOrder(s, reached, ok, i);
      }
      forall k | 0 <= k < |HandOf(next, 0).batch| ensures CopyIsRow(next, HandOf(next, 0).batch[k]) {
        assert CopyIsRow(s, HandOf(s, 0).batch[k]);
      }
    }
  }

  lemma MarkedRowInOrder(s: State, dbOk: bool, dbNow: int, i: Id)
    requires HandOf(s, 0).batch != [] && HandOf(s, 0).verdict.Some?
    requires i in s.rows && RowInOrder(s, i) && CopyIsRow(s, HandOf(s, 0).batch[0])
    requires |HandOf(s, 0).batch| > 1 ==> HandOf(s, 0).batch[1].id != HandOf(s, 0).batch[0].id
    ensures var next := AfterMark(s, 0, dbOk, dbNow);
            next.rows.Keys == s.rows.Keys && RowInOrder(next, i)
  {
    hide Pow2;
    var hand := HandOf(s, 0);
    assert HandOf(AfterMark(s, 0, dbOk, dbNow), 0) == Hand(hand.batch[1..], None);
  }

  lemma MarkedCopiesAreRows(s: State, dbOk: bool, dbNow: int, k: nat)
    requires HandOf(s, 0).batch != [] && HandOf(s, 0).verdict.Some?
    requires k + 1 < |HandOf(s, 0).batch| && CopyIsRow(s, HandOf(s, 0).batch[k + 1])
    requires HandOf(s, 0).batch[k + 1].id != HandOf(s, 0).batch[0].id
    ensures var next := AfterMark(s, 0, dbOk, dbNow);
            k < |HandOf(next, 0).batch| && CopyIsRow(next, HandOf(next, 0).batch[k])
  {
    hide Pow2;
  }

  lemma MarkInOrder(s: State, dbOk: bool, dbNow: int)
    requires InOrder(s) && Safe(Step(s, Mark(0, dbOk, dbNow)))
    ensures InOrder(Step(s, Mark(0, dbOk, dbNow)))
  {
    hide Safe, RowInOrder, CopyIsRow, MarkedRows;
    var next := Step(s, Mark(0, dbOk, dbNow));
    var hand := HandOf(s, 0);
    if hand.batch != [] && hand.verdict.Some? {
      RowsAreSaved(s);
      CopiesAreRows(s);
      assert HandOf(next, 0) == Hand(hand.batch[1..], None);
      MarkedRowInOrder(s, dbOk, dbNow, hand.batch[0].id);
      forall k | 0 <= k < |HandOf(next, 0).batch| ensures CopyIsRow(next, HandOf(next, 0).batch[k]) {
        MarkedCopiesAreRows(s, dbOk, dbNow, k);
      }
      forall i | i in s.rows ensures RowInOrder(next, i) {
        MarkedRowInOrder(s, dbOk, dbNow, i);
      }
    }
  }

  lemma CopiesAreRows(s: State)
    requires InOrder(s)
    ensures forall k | 0 <= k < |HandOf(s, 0).batch| :: HandOf(s, 0).batch[k].id in s.rows
  {
    hide Safe, RowInOrder;
    forall k | 0 <= k < |HandOf(s, 0).batch| ensures HandOf(s, 0).batch[k].id in s.rows {
      assert CopyIsRow(s, HandOf(s, 0).batch[k]);
    }
  }

  /** Dropping the batch turns what was pending into lost marks. */
  lemma AbandonedRowInOrder(s: State, i: Id)
    requires i in s.rows && RowInOrder(s, i)
    ensures RowInOrder(Abandoned(s, 0), i)
  {
  }

  lemma AbandonInOrder(s: State)
    requires InOrder(s) && Safe(Step(s, Abandon(0)))
    ensures InOrder(Step(s, Abandon(0)))
  {
    hide Safe, RowInOrder;
    RowsAreSaved(s);
    CopiesAreRows(s);
    var next := Step(s, Abandon(0));
    forall i | i in next.rows ensures RowInOrder(next, i) {
      AbandonedRowInOrder(s, i);
    }
  }

  lemma CleanupInOrder(s: State, olderThan: int, dbNow: int)
    requires InOrder(s) && Safe(Step(s, Cleanup(olderThan, dbNow)))
    ensures InOrder(Step(s, Cleanup(olderThan, dbNow)))
  {
    hide Safe, RowInOrder, RemovedInOrder;
    var next := Step(s, Cleanup(olderThan, dbNow));
    assert HandOf(next, 0) == HandOf(s, 0);
    CopiesAreRows(s);
    forall k | 0 <= k < |HandOf(next, 0).batch| ensures CopyIsRow(next, HandOf(next, 0).batch[k]) {
      CopyStays(s, next, HandOf(s, 0).batch[k]);
    }
    forall i | i in next.rows ensures RowInOrder(next, i) {
      UntouchedRowInOrder(s, next, i);
    }
    forall i | i in next.saved && i !in next.rows ensures RemovedInOrder(next, i) {
      if i in s.rows {
        ProcessedRowRemoved(s, i);
      }
      RemovedStays(s, next, i);
    }
  }

  /** A row that is processed is in no hand, and has its one success on record. */
  lemma ProcessedRowRemoved(s: State, i: Id)
    requires InOrder(s) && i in s.rows && s.rows[i].processed
    ensures RemovedInOrder(s, i)
  {
    hide Safe;
    assert RowInOrder(s, i);
    var hand := HandOf(s, 0);
    if hand.batch != [] {
      assert CopyIsRow(s, hand.batch[0]);
    }
  }

  lemma ClockInOrder(s: State, now: int)
    requires InOrder(s) && Safe(Step(s, SetClock(now)))
    ensures InOrder(Step(s, SetClock(now)))
  {
    hide Safe, RowInOrder, RemovedInOrder, CopyIsRow;
    var next := Step(s, SetClock(now));
    assert HandOf(next, 0) == HandOf(s, 0);
    CopiesAreRows(s);
    forall k | 0 <= k < |HandOf(next, 0).batch| ensures CopyIsRow(next, HandOf(next, 0).batch[k]) {
      CopyStays(s, next, HandOf(s, 0).batch[k]);
    }
    forall i | i in next.rows ensures RowInOrder(next, i) {
      UntouchedRowInOrder(s, next, i);
    }
    forall i | i in next.saved && i !in next.rows ensures RemovedInOrder(next, i) {
      RemovedStays(s, next, i);
    }
  }

  lemma {:induction false} OneWorkerInOrder(s: State, actions: seq<Action>)
    requires InOrder(s) && OneWorker(actions)
    ensures InOrder(Run(s, actions))
    decreases |actions|
  {
    hide Step, InOrder, ByOneWorker;
    if actions != [] {
      StepKeepsInOrder(s, actions[0]);
      OneWorkerInOrder(Step(s, actions[0]), actions[1..]);
    }
  }

  /**
    With one worker, whatever the clock does: the handler runs at most six times for an event,
    plus once for every update of its row that was lost.
   */
  lemma BoundedAttempts(clock: int, actions: seq<Action>, id: Id)
    requires OneWorker(actions)
    ensures var s := Run(Start(clock), actions);
            s.runs[id] <= 6 + s.lostMarks[id]
  {
    hide Run, OneWorker;
    OneWorkerInOrder(Start(clock), actions);
    var s := Run(Start(clock), actions);
    if id in s.rows {
      assert RowInOrder(s, id);
    }
  }

  /**
    With one worker, whatever the clock does, an event's successes are exactly accounted for: one
    that is on record or about to be, and one for every update recording a success that was lost.
    Without lost updates no event is handled successfully twice.
   */
  lemma SuccessesExactly(clock: int, actions: seq<Action>, id: Id)
    requires OneWorker(actions)
    ensures var s := Run(Start(clock), actions);
            && s.successes[id]
               == s.lostSuccesses[id] + PendingSuccess(s, id)
                  + (if id in s.saved && (id in s.rows ==> s.rows[id].processed) then 1 else 0)
            && s.successes[id] <= 1 + s.lostSuccesses[id] <= 1 + s.lostMarks[id]
  {
    hide Run, OneWorker;
    OneWorkerInOrder(Start(clock), actions);
    LostSuccessesAreLost(Start(clock), actions, id);
    var s := Run(Start(clock), actions);
    var hand := HandOf(s, 0);
    if hand.batch != [] {
      assert CopyIsRow(s, hand.batch[0]);
    }
    if id in s.rows {
      assert RowInOrder(s, id);
    }
  }

  lemma {:induction false} LostSuccessesAreLost(s: State, actions: seq<Action>, id: Id)
    requires s.lostSuccesses[id] <= s.lostMarks[id]
    ensures Run(s, actions).lostSuccesses[id] <= Run(s, actions).lostMarks[id]
    decreases |actions|
  {
    hide Step;
    if actions != [] {
      StepLoses(s, actions[0], id);
      LostSuccessesAreLost(Step(s, actions[0]), actions[1..], id);
    }
  }

  lemma StepLoses(s: State, a: Action, id: Id)
    requires s.lostSuccesses[id] <= s.lostMarks[id]
    ensures Step(s, a).lostSuccesses[id] <= Step(s, a).lostMarks[id]
  {
    hide MarkedRows, IsBatch;
  }

  /** Exactly when the one worker is about to repeat a success: an update that was to record one was lost. */
  lemma RepeatsIffMarkLost(clock: int, actions: seq<Action>)
    requires OneWorker(actions)
    requires var hand := HandOf(Run(Start(clock), actions), 0); hand.batch != [] && hand.verdict.None?
    ensures var s := Run(Start(clock), actions);
            var id := HandOf(s, 0).batch[0].id;
            s.successes[id] > 0 <==> s.lostSuccesses[id] > 0
  {
    hide Run, OneWorker;
    OneWorkerInOrder(Start(clock), actions);
    var s := Run(Start(clock), actions);
    assert CopyIsRow(s, HandOf(s, 0).batch[0]);
    assert RowInOrder(s, HandOf(s, 0).batch[0].id);
  }

  /**
    With any number of workers, an event that has succeeded does so again exactly when some worker
    still holds a copy of its row, not handled by it so far, and the handler goes through.
   */
  lemma SucceedsAgainIff(s: State, a: Action, id: Id)
    requires s.successes[id] > 0
    ensures Step(s, a).successes[id] > s.successes[id]
       <==> a.Handle? && a.reached && a.ok && HandOf(s, a.worker).batch != []
            && HandOf(s, a.worker).batch[0].id == id && HandOf(s, a.worker).verdict.None?
    ensures Step(s, a).successes[id] >= s.successes[id]
  {
    hide MarkedRows, IsBatch;
  }

  /** A worker has a copy of the row that it has still to handle. */
  ghost predicate HoldsUnhandled(s: State, id: Id) {
    exists w, k :: w in s.hands && Unhandled(s.hands[w], k) && s.hands[w].batch[k].id == id
  }

  predicate Unhandled(hand: Hand, k: int) {
    0 <= k < |hand.batch| && (k > 0 || hand.verdict.None?)
  }

  /** The event is done: its row is processed or removed, and will not be saved anew. */
  predicate Done(s: State, id: Id) {
    id in s.saved && (id in s.rows ==> s.rows[id].processed && s.rows[id].id == id)
  }

  lemma DoneStaysStep(s: State, a: Action, id: Id)
    requires Done(s, id) && !HoldsUnhandled(s, id)
    ensures Done(Step(s, a), id) && !HoldsUnhandled(Step(s, a), id)
    ensures Step(s, a).successes[id] == s.successes[id]
  {
    hide Pow2, Expired;
    var next := Step(s, a);
    if a.Handle? && HandOf(s, a.worker).batch != [] && HandOf(s, a.worker).verdict.None? {
      assert Unhandled(HandOf(s, a.worker), 0);
    }
    forall w, k | w in next.hands && Unhandled(next.hands[w], k) ensures next.hands[w].batch[k].id != id {
      if a.Mark? && a.worker == w && next.hands[w] != HandOf(s, w) {
        assert Unhandled(s.hands[w], k + 1);
      } else if w in s.hands && next.hands[w].batch == s.hands[w].batch {
        assert Unhandled(s.hands[w], k);
      }
    }
  }

  lemma {:induction false} DoneStays(s: State, actions: seq<Action>, id: Id)
    requires Done(s, id) && !HoldsUnhandled(s, id)
    ensures Run(s, actions).successes[id] == s.successes[id]
    decreases |actions|
  {
    hide Step, Done, HoldsUnhandled;
    if actions != [] {
      DoneStaysStep(s, actions[0], id);
      DoneStays(Step(s, actions[0]), actions[1..], id);
    }
  }

  /** A worker that gets through the copies before it without success, and handles this one with success. */
  lemma {:induction false} HandlesLater(s: State, w: nat, k: nat, id: Id) returns (actions: seq<Action>)
    requires w in s.hands && Unhandled(s.hands[w], k) && s.hands[w].batch[k].id == id
    ensures Run(s, actions).successes[id] > s.successes[id]
    decreases k, if s.hands[w].verdict.None? then 1 else 0
  {
    hide Pow2;
    if k == 0 {
      actions := [Handle(w, true, true)];
      RunOne(s, actions[0]);
    } else {
      var a := if s.hands[w].verdict.None? then Handle(w, false, false) else Mark(w, false, 0);
      var next := Step(s, a);
      assert next.successes == s.successes;
      var rest := HandlesLater(next, w, if a.Handle? then k else k - 1, id);
      actions := [a] + rest;
      assert actions[1..] == rest;
    }
  }

  /**
    Exactly when an event that is done can still be handled with success again, by whatever any
    number of workers do from now on: one of them holds a copy it has not handled.
   */
  lemma DoneForGoodIff(s: State, id: Id)
    requires Done(s, id)
    ensures (forall actions: seq<Action> :: Run(s, actions).successes[id] == s.successes[id])
       <==> !HoldsUnhandled(s, id)
  {
    hide Run, Step, Done;
    if HoldsUnhandled(s, id) {
      var w, k :| w in s.hands && Unhandled(s.hands[w], k) && s.hands[w].batch[k].id == id;
      var actions := HandlesLater(s, w, k, id);
    } else {
      forall actions: seq<Action> ensures Run(s, actions).successes[id] == s.successes[id] {
        DoneStays(s, actions, id);
      }
    }
  }

  /** Two workers may hold the same row, as the query's locks end with it: then the event is handled twice. */
  lemma TwoWorkersHandleTwice(clock: int, id: Id, event: Event)
    ensures var row := NewOutboxEvent(id, event, clock);
            Run(Start(clock), [Save(id, event), Fetch(0, [row]), Fetch(1, [row]),
                               Handle(0, true, true), Handle(1, true, true)]).successes[id] == 2
  {
    hide Step, Run;
    var row := NewOutboxEvent(id, event, clock);
    var actions := [Save(id, event), Fetch(0, [row]), Fetch(1, [row]), Handle(0, true, true), Handle(1, true, true)];
    var s1 := Step(Start(clock), actions[0]);
    var s2, s3 := Step(s1, actions[1]), Step(Step(s1, actions[1]), actions[2]);
    var s4 := Step(s3, actions[3]);
    SavedRow(clock, id, event);
    FetchedRow(s1, 0, row);
    FetchedRow(s2, 1, row);
    HandledRow(s3, 0, row);
    HandledRow(s4, 1, row);
    RunThree(Start(clock), actions[0], actions[1], actions[2]);
    RunPair(s3, actions[3], actions[4]);
    RunAppend(Start(clock), actions[..3], actions[3..]);
    assert actions[..3] == [actions[0], actions[1], actions[2]] && actions[3..] == [actions[3], actions[4]];
    assert actions[..3] + actions[3..] == actions;
  }

  lemma SavedRow(clock: int, id: Id, event: Event)
    ensures var row := NewOutboxEvent(id, event, clock);
            var s := Step(Start(clock), Save(id, event));
            s.rows == map[id := row] && s.hands == map[] && s.successes == multiset{} && s.clock == clock
  {
  }

  lemma FetchedRow(s: State, w: nat, row: OutboxRow)
    requires HandOf(s, w).batch == [] && row.id in s.rows && s.rows[row.id] == row && Eligible(row, s.clock)
    ensures Step(s, Fetch(w, [row])) == s.(hands := s.hands[w := Hand([row], None)])
  {
  }

  lemma HandledRow(s: State, w: nat, row: OutboxRow)
    requires HandOf(s, w) == Hand([row], None)
    ensures var next := Step(s, Handle(w, true, true));
            && next.successes == s.successes[row.id := s.successes[row.id] + 1]
            && next.rows == s.rows && next.clock == s.clock
            && next.hands == s.hands[w := Hand([row], Some(true))]
  {
  }
}
