/** Runs of the webhook retry workers over one table. */
module WebhookProtocol {
  import opened Wrappers
  import opened Backoff
  import opened Webhook

  /**
    Counted for each log entry: the failures put on record, all sends, those at the last attempt,
    and those before it whose outcome never got into the table.
   */
  datatype State = State(
    rows: Rows,
    hands: map<nat, seq<LogRow>>,
    failures: multiset<Id>,
    sends: multiset<Id>,
    lastSends: multiset<Id>,
    lost: multiset<Id>,
    clock: int)

  datatype Action =
    | Create(id: Id)
    | Fetch(worker: nat, batch: seq<LogRow>)
    | Retry(worker: nat, endpointOk: bool, response: Option<int>, dbOk: bool)
    | SetClock(now: int)

  function Start(clock: int): State {
    State(map[], map[], multiset{}, multiset{}, multiset{}, multiset{}, clock)
  }

  function HandOf(s: State, w: nat): seq<LogRow> {
    if w in s.hands then s.hands[w] else []
  }

  /** The delivery is refused and the refusal goes on record. */
  predicate RecordsFailure(s: State, maxAttempts: int, copy: LogRow, fate: Fate) {
    fate.endpointOk && fate.dbOk && copy.id in s.rows && !Accepted(fate) && 0 < copy.attempt < maxAttempts
  }

  function Plus(count: multiset<Id>, id: Id, counted: bool): multiset<Id> {
    if counted then count[id := count[id] + 1] else count
  }

  function Retried(s: State, maxAttempts: int, w: nat, fate: Fate): State
    requires HandOf(s, w) != []
  {
    var copy := HandOf(s, w)[0];
    s.(rows := RetriedRows(s.rows, maxAttempts, copy, fate),
       hands := s.hands[w := HandOf(s, w)[1..]],
       failures := Plus(s.failures, copy.id, RecordsFailure(s, maxAttempts, copy, fate)),
       sends := Plus(s.sends, copy.id, fate.endpointOk),
       lastSends := Plus(s.lastSends, copy.id, fate.endpointOk && copy.attempt >= maxAttempts),
       lost := Plus(s.lost, copy.id, fate.endpointOk && copy.attempt < maxAttempts && !fate.dbOk))
  }

  /** The effect of a step; a step that is not possible in a state changes nothing. */
  function Step(s: State, maxAttempts: int, a: Action): State {
    match a
    case Create(id) => if id in s.rows then s else s.(rows := s.rows[id := NewWebhookLog(id, s.clock)])
    case Fetch(w, batch) =>
      if HandOf(s, w) == [] && IsBatch(s.rows, batch, s.clock) then s.(hands := s.hands[w := batch]) else s
    case Retry(w, endpointOk, response, dbOk) =>
      if HandOf(s, w) != [] then Retried(s, maxAttempts, w, Fate(s.clock, endpointOk, response, dbOk)) else s
    case SetClock(now) => s.(clock := now)
  }

  function Run(s: State, maxAttempts: int, actions: seq<Action>): State
    decreases |actions|
  {
    if actions == [] then s else Run(Step(s, maxAttempts, actions[0]), maxAttempts, actions[1..])
  }

  /** The action is the one worker's, or not a worker's at all. */
  predicate ByOneWorker(a: Action) {
    match a
    case Fetch(w, _) => w == 0
    case Retry(w, _, _, _) => w == 0
    case _ => true
  }

  /** One worker, whatever the clock does. */
  predicate OneWorker(actions: seq<Action>) {
    forall k | 0 <= k < |actions| :: ByOneWorker(actions[k])
  }

  predicate Orderly(s: State, a: Action) {
    ByOneWorker(a) && (a.SetClock? ==> s.clock <= a.now)
  }

  /** One worker, and a clock that never goes back. */
  predicate OrderlyRun(s: State, maxAttempts: int, actions: seq<Action>)
    decreases |actions|
  {
    actions != [] ==> Orderly(s, actions[0]) && OrderlyRun(Step(s, maxAttempts, actions[0]), maxAttempts, actions[1..])
  }

  /** The attempts tell the failures on record and stay within the limit, and every send is accounted for. */
  predicate RowInOrder(s: State, maxAttempts: int, id: Id)
    requires id in s.rows
  {
    var r := s.rows[id];
    && r.id == id
    && r.attempt == s.failures[id] + 1
    && (r.attempt == 1 || r.attempt <= maxAttempts)
    && s.sends[id] == s.lastSends[id] + s.failures[id] + s.lost[id]
                      + (if r.status.Delivered? && r.attempt < maxAttempts then 1 else 0)
  }

  predicate CopyIsRow(s: State, copy: LogRow) {
    copy.id in s.rows && s.rows[copy.id] == copy && !copy.status.Delivered?
  }

  ghost predicate InOrder(s: State, maxAttempts: int) {
    && (forall i | i in s.rows :: RowInOrder(s, maxAttempts, i))
    && (forall i: Id | i !in s.rows :: s.failures[i] == s.sends[i] == s.lastSends[i] == s.lost[i] == 0)
    && (forall k | 0 <= k < |HandOf(s, 0)| :: CopyIsRow(s, HandOf(s, 0)[k]))
    && (forall j, k | 0 <= j < k < |HandOf(s, 0)| :: HandOf(s, 0)[j].id != HandOf(s, 0)[k].id)
  }

  lemma RetriedRowInOrder(s: State, maxAttempts: int, fate: Fate, i: Id)
    requires HandOf(s, 0) != [] && CopyIsRow(s, HandOf(s, 0)[0])
    requires i in s.rows && RowInOrder(s, maxAttempts, i)
    ensures var next := Retried(s, maxAttempts, 0, fate);
            && next.rows.Keys == s.rows.Keys && RowInOrder(next, maxAttempts, i)
            && (s.rows[i].status.Delivered? ==> next.rows[i] == s.rows[i])
            && (i != HandOf(s, 0)[0].id ==> next.rows[i] == s.rows[i])
  {
    hide Pow2;
  }

  /** One worker keeps the rows in order, and never touches a delivered row. */
  lemma StepKeepsInOrder(s: State, maxAttempts: int, a: Action)
    requires InOrder(s, maxAttempts) && ByOneWorker(a)
    ensures InOrder(Step(s, maxAttempts, a), maxAttempts)
    ensures forall i | i in s.rows && s.rows[i].status.Delivered? ::
              i in Step(s, maxAttempts, a).rows && Step(s, maxAttempts, a).rows[i] == s.rows[i]
  {
    match a {
      case Retry(w, endpointOk, response, dbOk) =>
        if HandOf(s, 0) != [] {
          RetryInOrder(s, maxAttempts, Fate(s.clock, endpointOk, response, dbOk));
        }
      case Create(id) => CreateInOrder(s, maxAttempts, id);
      case Fetch(w, batch) => FetchOrTickInOrder(s, maxAttempts, a);
      case SetClock(now) => FetchOrTickInOrder(s, maxAttempts, a);
    }
  }

  lemma RetryInOrder(s: State, maxAttempts: int, fate: Fate)
    requires InOrder(s, maxAttempts) && HandOf(s, 0) != []
    ensures InOrder(Retried(s, maxAttempts, 0, fate), maxAttempts)
    ensures forall i | i in s.rows && s.rows[i].status.Delivered? ::
              i in Retried(s, maxAttempts, 0, fate).rows && Retried(s, maxAttempts, 0, fate).rows[i] == s.rows[i]
  {
    hide RowInOrder, RetriedRows;
    var next := Retried(s, maxAttempts, 0, fate);
    var hand := HandOf(s, 0);
    assert CopyIsRow(s, hand[0]);
    RetriedRowInOrder(s, maxAttempts, fate, hand[0].id);
    forall i | i in s.rows
      ensures RowInOrder(next, maxAttempts, i)
      ensures s.rows[i].status.Delivered? || i != hand[0].id ==> next.rows[i] == s.rows[i]
    {
      RetriedRowInOrder(s, maxAttempts, fate, i);
    }
    assert HandOf(next, 0) == hand[1..];
    forall k | 0 <= k < |HandOf(next, 0)| ensures CopyIsRow(next, HandOf(next, 0)[k]) {
      assert CopyIsRow(s, hand[k + 1]);
    }
  }

  lemma CreateInOrder(s: State, maxAttempts: int, id: Id)
    requires InOrder(s, maxAttempts)
    ensures InOrder(Step(s, maxAttempts, Create(id)), maxAttempts)
  {
    hide RowInOrder;
    var next := Step(s, maxAttempts, Create(id));
    forall i | i in next.rows ensures RowInOrder(next, maxAttempts, i) {
      if i in s.rows {
        UntouchedRowInOrder(s, next, maxAttempts, i);
      } else {
        NewRowInOrder(next, maxAttempts, i);
      }
    }
    assert HandOf(next, 0) == HandOf(s, 0);
    forall k | 0 <= k < |HandOf(next, 0)| ensures CopyIsRow(next, HandOf(next, 0)[k]) {
      assert CopyIsRow(s, HandOf(s, 0)[k]);
    }
  }

  lemma UntouchedRowInOrder(s: State, next: State, maxAttempts: int, i: Id)
    requires i in s.rows && RowInOrder(s, maxAttempts, i)
    requires i in next.rows && next.rows[i] == s.rows[i]
    requires next.failures == s.failures && next.sends == s.sends
    requires next.lastSends == s.lastSends && next.lost == s.lost
    ensures RowInOrder(next, maxAttempts, i)
  {
  }

  lemma NewRowInOrder(s: State, maxAttempts: int, i: Id)
    requires i in s.rows && s.rows[i] == NewWebhookLog(i, s.clock)
    requires s.failures[i] == s.sends[i] == s.lastSends[i] == s.lost[i] == 0
    ensures RowInOrder(s, maxAttempts, i)
  {
  }

  lemma FetchOrTickInOrder(s: State, maxAttempts: int, a: Action)
    requires InOrder(s, maxAttempts) && ByOneWorker(a) && (a.Fetch? || a.SetClock?)
    ensures InOrder(Step(s, maxAttempts, a), maxAttempts)
    ensures Step(s, maxAttempts, a).rows == s.rows
  {
    var next := Step(s, maxAttempts, a);
    forall i | i in next.rows ensures RowInOrder(next, maxAttempts, i) {
      assert RowInOrder(s, maxAttempts, i);
    }
    forall k | 0 <= k < |HandOf(next, 0)| ensures CopyIsRow(next, HandOf(next, 0)[k]) {
      if HandOf(next, 0) == HandOf(s, 0) {
        assert CopyIsRow(s, HandOf(s, 0)[k]);
      }
    }
    assert || HandOf(next, 0) == HandOf(s, 0)
           || (a.Fetch? && HandOf(next, 0) == a.batch && IsBatch(s.rows, a.batch, s.clock));
  }

  lemma {:induction false} OneWorkerInOrder(s: State, maxAttempts: int, actions: seq<Action>)
    requires InOrder(s, maxAttempts) && OneWorker(actions)
    ensures InOrder(Run(s, maxAttempts, actions), maxAttempts)
    ensures forall i | i in s.rows && s.rows[i].status.Delivered? ::
              i in Run(s, maxAttempts, actions).rows && Run(s, maxAttempts, actions).rows[i] == s.rows[i]
    decreases |actions|
  {
    hide Step, InOrder, ByOneWorker;
    if actions != [] {
      StepKeepsInOrder(s, maxAttempts, actions[0]);
      OneWorkerInOrder(Step(s, maxAttempts, actions[0]), maxAttempts, actions[1..]);
    }
  }

  /**
    With one worker, whatever the clock does, after any run: an entry with `k` failures on record
    is at attempt k + 1, within the limit; and an entry once delivered stays exactly as it is.
   */
  lemma RetryBounds(clock: int, maxAttempts: int, first: seq<Action>, rest: seq<Action>, id: Id)
    requires maxAttempts >= 1 && OneWorker(first) && OneWorker(rest)
    requires id in Run(Start(clock), maxAttempts, first).rows
    ensures var s := Run(Start(clock), maxAttempts, first);
            var r := s.rows[id];
            && 1 <= r.attempt == s.failures[id] + 1 <= maxAttempts
            && (r.status.Delivered? ==>
                  var later := Run(s, maxAttempts, rest); id in later.rows && later.rows[id] == r)
  {
    hide Run, OneWorker;
    OneWorkerInOrder(Start(clock), maxAttempts, first);
    var s := Run(Start(clock), maxAttempts, first);
    assert RowInOrder(s, maxAttempts, id);
    OneWorkerInOrder(s, maxAttempts, rest);
  }

  /**
    Over such a run, the limit bounds the sends before the last attempt: there is one fewer than
    it allows, and one more for every send whose outcome was lost.
   */
  lemma SendsBounded(clock: int, maxAttempts: int, actions: seq<Action>, id: Id)
    requires maxAttempts >= 1 && OneWorker(actions)
    ensures var s := Run(Start(clock), maxAttempts, actions);
            s.sends[id] - s.lastSends[id] <= maxAttempts - 1 + s.lost[id]
  {
    hide Run, OneWorker;
    OneWorkerInOrder(Start(clock), maxAttempts, actions);
    var s := Run(Start(clock), maxAttempts, actions);
    if id in s.rows {
      assert RowInOrder(s, maxAttempts, id);
    }
  }

  /** Steps that poll for one entry when it is due, and have it refused. */
  function RefusedPoll(s: State, id: Id): seq<Action>
    requires id in s.rows
  {
    [SetClock(if s.clock <= s.rows[id].nextAttemptAt then s.rows[id].nextAttemptAt else s.clock),
     Fetch(0, [s.rows[id]]), Retry(0, true, Some(500), true)]
  }

  /** Between polls: the entry is there, undelivered, and the worker's hands are empty. */
  predicate Polled(s: State, id: Id) {
    && id in s.rows && s.rows[id].id == id && s.rows[id].attempt >= 1
    && !s.rows[id].status.Delivered? && HandOf(s, 0) == []
  }

  lemma RefusedPollCounts(s: State, maxAttempts: int, id: Id)
    requires Polled(s, id)
    ensures var a := RefusedPoll(s, id);
            var next := Step(Step(Step(s, maxAttempts, a[0]), maxAttempts, a[1]), maxAttempts, a[2]);
            && Polled(next, id)
            && Orderly(s, a[0]) && Orderly(Step(s, maxAttempts, a[0]), a[1])
            && Orderly(Step(Step(s, maxAttempts, a[0]), maxAttempts, a[1]), a[2])
            && next.rows[id].attempt == s.rows[id].attempt + (if s.rows[id].attempt < maxAttempts then 1 else 0)
            && next.lastSends[id] == s.lastSends[id] + (if s.rows[id].attempt < maxAttempts then 0 else 1)
  {
    hide Pow2;
    var a := RefusedPoll(s, id);
    var row := s.rows[id];
    var due := Step(s, maxAttempts, a[0]);
    assert Due(row, due.clock) && IsBatch(due.rows, [row], due.clock);
    assert HandOf(Step(due, maxAttempts, a[1]), 0) == [row];
  }

  lemma ThreeThenRest(s: State, m: int, a: Action, b: Action, c: Action, rest: seq<Action>)
    requires Orderly(s, a) && Orderly(Step(s, m, a), b) && Orderly(Step(Step(s, m, a), m, b), c)
    requires OrderlyRun(Step(Step(Step(s, m, a), m, b), m, c), m, rest)
    ensures OrderlyRun(s, m, [a, b, c] + rest)
    ensures Run(s, m, [a, b, c] + rest) == Run(Step(Step(Step(s, m, a), m, b), m, c), m, rest)
  {
    hide Step, Orderly;
    assert ([a, b, c] + rest)[1..] == [b, c] + rest;
    assert ([b, c] + rest)[1..] == [c] + rest;
    assert ([c] + rest)[1..] == rest;
    assert Run(Step(s, m, a), m, [b, c] + rest) == Run(Step(Step(s, m, a), m, b), m, [c] + rest);
    assert OrderlyRun(Step(Step(s, m, a), m, b), m, [c] + rest);
    assert OrderlyRun(Step(s, m, a), m, [b, c] + rest);
  }

  lemma {:induction false} RefusedAgain(s: State, maxAttempts: int, id: Id, n: nat) returns (actions: seq<Action>)
    requires Polled(s, id)
    ensures OrderlyRun(s, maxAttempts, actions)
    ensures Run(s, maxAttempts, actions).lastSends[id] == s.lastSends[id] + n
    decreases n + if s.rows[id].attempt < maxAttempts then maxAttempts - s.rows[id].attempt else 0
  {
    hide Step, Orderly;
    if s.rows[id].attempt >= maxAttempts && n == 0 {
      actions := [];
    } else {
      var a := RefusedPoll(s, id);
      var next := Step(Step(Step(s, maxAttempts, a[0]), maxAttempts, a[1]), maxAttempts, a[2]);
      RefusedPollCounts(s, maxAttempts, id);
      var rest := RefusedAgain(next, maxAttempts, id, if s.rows[id].attempt < maxAttempts then n else n - 1);
      ThreeThenRest(s, maxAttempts, a[0], a[1], a[2], rest);
      assert a == [a[0], a[1], a[2]];
      actions := a + rest;
    }
  }

  /** Nothing bounds the sends at the last attempt: for every limit and number there is a run that makes so many. */
  lemma LastSendsUnbounded(clock: int, maxAttempts: int, id: Id, n: nat)
    ensures exists actions: seq<Action> ::
              && OrderlyRun(Start(clock), maxAttempts, actions)
              && Run(Start(clock), maxAttempts, actions).lastSends[id] == n
  {
    hide Step;
    var s := Step(Start(clock), maxAttempts, Create(id));
    Created(clock, maxAttempts, id);
    var rest := RefusedAgain(s, maxAttempts, id, n);
    var actions := [Create(id)] + rest;
    assert actions[1..] == rest;
    assert OrderlyRun(Start(clock), maxAttempts, actions) && Run(Start(clock), maxAttempts, actions).lastSends[id] == n;
  }

  lemma Created(clock: int, maxAttempts: int, id: Id)
    ensures var s := Step(Start(clock), maxAttempts, Create(id));
            && Polled(s, id) && s.rows[id] == NewWebhookLog(id, clock)
            && s.lastSends[id] == 0 && s.hands == map[] && s.clock == clock
  {
  }

  /**
    Exactly when a refused entry is due again at a later poll: its attempts are used up, the
    endpoint was not found, the update was lost, or the delay of its attempt is over.
   */
  lemma RefusedStillDueIff(rows: Rows, maxAttempts: int, id: Id, fate: Fate, later: int)
    requires id in rows && rows[id].id == id && rows[id].attempt >= 1 && Due(rows[id], fate.now)
    requires !Accepted(fate) && fate.now <= later
    ensures id in RetriedRows(rows, maxAttempts, rows[id], fate)
    ensures Due(RetriedRows(rows, maxAttempts, rows[id], fate)[id], later)
       <==> rows[id].attempt >= maxAttempts || !fate.endpointOk || !fate.dbOk
            || later >= fate.now + Pow2(rows[id].attempt - 1) * SECOND
  {
    hide Pow2;
  }

  /** Over any run of one worker an entry at its last attempt stays exactly as it is, and due, until it is delivered. */
  lemma {:induction false} ExhaustedUntilDelivered(s: State, maxAttempts: int, actions: seq<Action>, id: Id)
    requires InOrder(s, maxAttempts) && OneWorker(actions)
    requires id in s.rows && s.rows[id].attempt >= maxAttempts
    ensures var last := Run(s, maxAttempts, actions);
            id in last.rows && (last.rows[id] == s.rows[id] || last.rows[id].status.Delivered?)
    decreases |actions|
  {
    hide Step, InOrder, ByOneWorker;
    if actions != [] {
      var next := Step(s, maxAttempts, actions[0]);
      StepKeepsInOrder(s, maxAttempts, actions[0]);
      ExhaustedStep(s, maxAttempts, actions[0], id);
      ExhaustedUntilDelivered(next, maxAttempts, actions[1..], id);
    }
  }

  lemma ExhaustedStep(s: State, maxAttempts: int, a: Action, id: Id)
    requires InOrder(s, maxAttempts) && ByOneWorker(a) && id in s.rows && s.rows[id].attempt >= maxAttempts
    ensures var next := Step(s, maxAttempts, a);
            && id in next.rows && next.rows[id].attempt >= maxAttempts
            && (next.rows[id] == s.rows[id] || next.rows[id].status.Delivered?)
            && (s.rows[id].status.Delivered? ==> next.rows[id] == s.rows[id])
  {
    hide RowInOrder;
    StepKeepsInOrder(s, maxAttempts, a);
    if a.Retry? && HandOf(s, 0) != [] {
      assert CopyIsRow(s, HandOf(s, 0)[0]);
    }
  }

  /**
    Exactly when a delivered entry stops being delivered, with any number of workers: a worker that
    fetched it earlier has its copy next, and the refusal of that delivery goes on record.
   */
  lemma UndeliveredIff(s: State, maxAttempts: int, a: Action, id: Id)
    requires id in s.rows && s.rows[id].status.Delivered?
    ensures id in Step(s, maxAttempts, a).rows
    ensures !Step(s, maxAttempts, a).rows[id].status.Delivered?
       <==> a.Retry? && HandOf(s, a.worker) != [] && HandOf(s, a.worker)[0].id == id
            && RecordsFailure(s, maxAttempts, HandOf(s, a.worker)[0], Fate(s.clock, a.endpointOk, a.response, a.dbOk))
  {
    hide Pow2, Plus, IsBatch;
  }

  /** A worker holds a copy of the entry from before its last attempt. */
  ghost predicate HoldsCopy(s: State, maxAttempts: int, id: Id) {
    exists w, k ::
      w in s.hands && 0 <= k < |s.hands[w]| && s.hands[w][k].id == id && 0 < s.hands[w][k].attempt < maxAttempts
  }

  lemma OldCopyKeepsDelivered(rows: Rows, maxAttempts: int, copy: LogRow, fate: Fate, id: Id)
    requires id in rows && rows[id].status.Delivered?
    requires copy.id != id || !(0 < copy.attempt < maxAttempts)
    ensures var after := RetriedRows(rows, maxAttempts, copy, fate); id in after && after[id].status.Delivered?
  {
    hide Pow2;
  }

  lemma StaysDeliveredStep(s: State, maxAttempts: int, a: Action, id: Id)
    requires id in s.rows && s.rows[id].status.Delivered? && !HoldsCopy(s, maxAttempts, id)
    ensures var next := Step(s, maxAttempts, a);
            id in next.rows && next.rows[id].status.Delivered? && !HoldsCopy(next, maxAttempts, id)
  {
    hide Pow2, Plus, RetriedRows;
    var next := Step(s, maxAttempts, a);
    if a.Retry? && HandOf(s, a.worker) != [] {
      var fate := Fate(s.clock, a.endpointOk, a.response, a.dbOk);
      OldCopyKeepsDelivered(s.rows, maxAttempts, HandOf(s, a.worker)[0], fate, id);
    }
    forall w, k | w in next.hands && 0 <= k < |next.hands[w]|
      ensures next.hands[w][k].id != id || !(0 < next.hands[w][k].attempt < maxAttempts)
    {
      if a.Retry? && a.worker == w && HandOf(s, w) != [] {
        assert next.hands[w][k] == s.hands[w][k + 1];
      }
    }
  }

  lemma {:induction false} StaysDelivered(s: State, maxAttempts: int, actions: seq<Action>, id: Id)
    requires id in s.rows && s.rows[id].status.Delivered? && !HoldsCopy(s, maxAttempts, id)
    ensures id in Run(s, maxAttempts, actions).rows && Run(s, maxAttempts, actions).rows[id].status.Delivered?
    decreases |actions|
  {
    hide Step, HoldsCopy;
    if actions != [] {
      StaysDeliveredStep(s, maxAttempts, actions[0], id);
      StaysDelivered(Step(s, maxAttempts, actions[0]), maxAttempts, actions[1..], id);
    }
  }

  /** A worker that drops the copies before it, and has the copy refused, takes the entry back. */
  lemma {:induction false} TakesBack(s: State, maxAttempts: int, w: nat, k: nat, id: Id) returns (actions: seq<Action>)
    requires id in s.rows && w in s.hands && k < |s.hands[w]|
    requires s.hands[w][k].id == id && 0 < s.hands[w][k].attempt < maxAttempts
    ensures id in Run(s, maxAttempts, actions).rows && Run(s, maxAttempts, actions).rows[id].status.Failed?
    decreases k
  {
    hide Pow2, Plus;
    if k == 0 {
      actions := [Retry(w, true, Some(500), true)];
      RunOfNone(Step(s, maxAttempts, actions[0]), maxAttempts);
      assert actions[1..] == [];
    } else {
      var a := Retry(w, false, None, true);
      var next := Step(s, maxAttempts, a);
      assert next.rows == s.rows && next.hands[w] == s.hands[w][1..];
      var rest := TakesBack(next, maxAttempts, w, k - 1, id);
      actions := [a] + rest;
      assert actions[1..] == rest;
    }
  }

  /**
    Exactly when a delivered entry stays delivered whatever any number of workers do from now on:
    none of them holds a copy of it from before its last attempt.
   */
  lemma DeliveredForGoodIff(s: State, maxAttempts: int, id: Id)
    requires id in s.rows && s.rows[id].status.Delivered?
    ensures (forall actions: seq<Action> ::
               id in Run(s, maxAttempts, actions).rows && Run(s, maxAttempts, actions).rows[id].status.Delivered?)
       <==> !HoldsCopy(s, maxAttempts, id)
  {
    hide Run, Step;
    if HoldsCopy(s, maxAttempts, id) {
      var w, k :|
        w in s.hands && 0 <= k < |s.hands[w]| && s.hands[w][k].id == id && 0 < s.hands[w][k].attempt < maxAttempts;
      var actions := TakesBack(s, maxAttempts, w, k, id);
    } else {
      forall actions: seq<Action>
        ensures id in Run(s, maxAttempts, actions).rows && Run(s, maxAttempts, actions).rows[id].status.Delivered?
      {
        StaysDelivered(s, maxAttempts, actions, id);
      }
    }
  }

  /** With two workers a delivered entry can become failed again: the slower one holds a stale copy. */
  lemma TwoWorkersUndeliver(clock: int, id: Id)
    ensures var row := NewWebhookLog(id, clock);
            var s := Run(Start(clock), 5,
                         [Create(id), Fetch(0, [row]), Fetch(1, [row]), Retry(0, true, Some(200), true)]);
            && id in s.rows && s.rows[id].status.Delivered?
            && Step(s, 5, Retry(1, true, Some(500), true)).rows[id].status.Failed?
  {
    hide Step, Run;
    var row := NewWebhookLog(id, clock);
    var a := [Create(id), Fetch(0, [row]), Fetch(1, [row]), Retry(0, true, Some(200), true)];
    var s1 := Step(Start(clock), 5, a[0]);
    var s2 := Step(s1, 5, a[1]);
    var s3 := Step(s2, 5, a[2]);
    Created(clock, 5, id);
    FetchedCopy(s1, 5, 0, row);
    FetchedCopy(s2, 5, 1, row);
    DeliveredByFirst(s3, id);
    RunOfTwo(Start(clock), 5, a);
    RunOfTwo(s2, 5, a[2..]);
    RunOfNone(Step(s3, 5, a[3]), 5);
    assert a[2..][2..] == [];
    UndeliveredIff(Step(s3, 5, a[3]), 5, Retry(1, true, Some(500), true), id);
    OnlyOtherStatus(Step(s3, 5, a[3]), id);
  }

  lemma RunOfNone(s: State, m: int)
    ensures Run(s, m, []) == s
  {
  }

  lemma FetchedCopy(s: State, m: int, w: nat, row: LogRow)
    requires HandOf(s, w) == [] && row.id in s.rows && s.rows[row.id] == row && Due(row, s.clock)
    ensures Step(s, m, Fetch(w, [row])) == s.(hands := s.hands[w := [row]])
  {
  }

  lemma DeliveredByFirst(s: State, id: Id)
    requires Polled(s.(hands := map[]), id) && s.rows[id].attempt < 5 && HandOf(s, 0) == HandOf(s, 1) == [s.rows[id]]
    ensures var next := Step(s, 5, Retry(0, true, Some(200), true));
            && id in next.rows && next.rows[id].status.Delivered?
            && HandOf(next, 1) == [s.rows[id]] && next.clock == s.clock
  {
    hide Pow2;
  }

  /** A failure on record makes the entry failed. */
  lemma OnlyOtherStatus(s: State, id: Id)
    requires id in s.rows && s.rows[id].status.Delivered?
    ensures var next := Step(s, 5, Retry(1, true, Some(500), true));
            id in next.rows && (next.rows[id].status.Delivered? || next.rows[id].status.Failed?)
  {
    hide Pow2, Plus;
  }

  lemma RunOfTwo(s: State, m: int, a: seq<Action>)
    requires |a| >= 2
    ensures Run(s, m, a) == Run(Step(Step(s, m, a[0]), m, a[1]), m, a[2..])
  {
    hide Step;
    assert a[1..][1..] == a[2..];
    assert Run(Step(s, m, a[0]), m, a[1..]) == Run(Step(Step(s, m, a[0]), m, a[1]), m, a[1..][1..]);
  }

  /** No entry and no copy is past the limit. */
  predicate WithinLimit(s: State, maxAttempts: int) {
    && (forall i | i in s.rows :: s.rows[i].attempt <= maxAttempts)
    && (forall w, k | w in s.hands && 0 <= k < |s.hands[w]| :: s.hands[w][k].attempt <= maxAttempts)
  }

  /** The delivery is of a copy from before the last attempt of an entry that has come to its last since. */
  predicate Overtakes(s: State, maxAttempts: int, a: Action) {
    && a.Retry? && HandOf(s, a.worker) != []
    && var copy := HandOf(s, a.worker)[0];
    && RecordsFailure(s, maxAttempts, copy, Fate(s.clock, a.endpointOk, a.response, a.dbOk))
    && s.rows[copy.id].attempt == maxAttempts
  }

  lemma StepPassesLimitIff(s: State, maxAttempts: int, a: Action)
    requires WithinLimit(s, maxAttempts) && maxAttempts >= 1
    ensures WithinLimit(Step(s, maxAttempts, a), maxAttempts) <==> !Overtakes(s, maxAttempts, a)
  {
    hide Pow2, Plus;
    var next := Step(s, maxAttempts, a);
    if Overtakes(s, maxAttempts, a) {
      var id := HandOf(s, a.worker)[0].id;
      assert id in next.rows && next.rows[id].attempt == maxAttempts + 1;
    } else {
      forall w, k | w in next.hands && 0 <= k < |next.hands[w]| ensures next.hands[w][k].attempt <= maxAttempts {
        if a.Retry? && a.worker == w && next.hands[w] != HandOf(s, w) {
          assert next.hands[w][k] == s.hands[w][k + 1];
        }
      }
    }
  }

  /** Some step of the run makes a delivery from an overtaken copy. */
  predicate EverOvertakes(s: State, maxAttempts: int, actions: seq<Action>)
    decreases |actions|
  {
    actions != [] && (Overtakes(s, maxAttempts, actions[0])
                      || EverOvertakes(Step(s, maxAttempts, actions[0]), maxAttempts, actions[1..]))
  }

  /**
    With any number of workers, a run keeps every entry within the limit all along, if and only if
    no step puts on record the refusal of a copy that was overtaken by the last attempt.
   */
  lemma {:induction false} WithinLimitIff(s: State, maxAttempts: int, actions: seq<Action>)
    requires WithinLimit(s, maxAttempts) && maxAttempts >= 1
    ensures (forall k: nat :: k <= |actions| ==> WithinLimit(Run(s, maxAttempts, actions[..k]), maxAttempts))
       <==> !EverOvertakes(s, maxAttempts, actions)
    decreases |actions|
  {
    hide Step, WithinLimit, Overtakes;
    RunOfNone(s, maxAttempts);
    assert actions[..0] == [];
    if actions != [] {
      var next := Step(s, maxAttempts, actions[0]);
      StepPassesLimitIff(s, maxAttempts, actions[0]);
      if Overtakes(s, maxAttempts, actions[0]) {
        RunHead(s, maxAttempts, actions[..1]);
        RunOfNone(next, maxAttempts);
        assert actions[..1][1..] == [];
        assert !WithinLimit(Run(s, maxAttempts, actions[..1]), maxAttempts);
      } else {
        WithinLimitIff(next, maxAttempts, actions[1..]);
        PrefixesShift(s, next, maxAttempts, actions);
      }
    }
  }

  lemma PrefixesShift(s: State, next: State, m: int, actions: seq<Action>)
    requires actions != [] && WithinLimit(s, m) && next == Step(s, m, actions[0])
    ensures (forall k: nat :: k <= |actions| ==> WithinLimit(Run(s, m, actions[..k]), m))
       <==> (forall k: nat :: k <= |actions| - 1 ==> WithinLimit(Run(next, m, actions[1..][..k]), m))
  {
    hide Step, WithinLimit, Run;
    forall k: nat | k < |actions| ensures Run(s, m, actions[..k + 1]) == Run(next, m, actions[1..][..k]) {
      RunHead(s, m, actions[..k + 1]);
      assert actions[..k + 1][1..] == actions[1..][..k];
    }
    if forall k: nat :: k <= |actions| ==> WithinLimit(Run(s, m, actions[..k]), m) {
      forall k: nat | k <= |actions| - 1 ensures WithinLimit(Run(next, m, actions[1..][..k]), m) {
        assert WithinLimit(Run(s, m, actions[..k + 1]), m);
      }
    }
    if forall k: nat :: k <= |actions| - 1 ==> WithinLimit(Run(next, m, actions[1..][..k]), m) {
      forall k: nat | k <= |actions| ensures WithinLimit(Run(s, m, actions[..k]), m) {
        if k == 0 {
          assert actions[..0] == [];
          RunOfNone(s, m);
        } else {
          assert WithinLimit(Run(next, m, actions[1..][..k - 1]), m);
        }
      }
    }
  }

  lemma RunHead(s: State, m: int, actions: seq<Action>)
    requires actions != []
    ensures Run(s, m, actions) == Run(Step(s, m, actions[0]), m, actions[1..])
  {
    hide Step;
  }

  /** The steps of a poll: the fetch, then each delivery at its own clock reading. */
  function DeliverySteps(w: nat, fates: seq<Fate>): seq<Action>
    decreases |fates|
  {
    if fates == [] then []
    else [SetClock(fates[0].now), Retry(w, fates[0].endpointOk, fates[0].response, fates[0].dbOk)]
         + DeliverySteps(w, fates[1..])
  }

  lemma {:induction false} DeliveriesAreRun(s: State, maxAttempts: int, w: nat, fates: seq<Fate>)
    requires |HandOf(s, w)| == |fates|
    ensures Run(s, maxAttempts, DeliverySteps(w, fates)).rows == RetriedAll(s.rows, maxAttempts, HandOf(s, w), fates)
    ensures HandOf(Run(s, maxAttempts, DeliverySteps(w, fates)), w) == []
    decreases |fates|
  {
    hide RetriedRows, Plus;
    if fates != [] {
      var steps := DeliverySteps(w, fates);
      var ticked := Step(s, maxAttempts, steps[0]);
      var next := Step(ticked, maxAttempts, steps[1]);
      assert HandOf(ticked, w) == HandOf(s, w);
      RunOfTwo(s, maxAttempts, steps);
      assert steps[2..] == DeliverySteps(w, fates[1..]);
      assert HandOf(next, w) == HandOf(s, w)[1..];
      assert next.rows == RetriedRows(s.rows, maxAttempts, HandOf(s, w)[0], fates[0]);
      DeliveriesAreRun(next, maxAttempts, w, fates[1..]);
    }
  }

  /** A poll of a worker, which leaves the table as `RetriedAll` has it, is a run of the protocol. */
  lemma PollIsRun(s: State, maxAttempts: int, w: nat, now: int, batch: seq<LogRow>, fates: seq<Fate>)
    requires HandOf(s, w) == [] && IsBatch(s.rows, batch, now) && |fates| == |batch|
    ensures var last := Run(s, maxAttempts, [SetClock(now), Fetch(w, batch)] + DeliverySteps(w, fates));
            last.rows == RetriedAll(s.rows, maxAttempts, batch, fates) && HandOf(last, w) == []
  {
    hide IsBatch, Run;
    var steps := [SetClock(now), Fetch(w, batch)] + DeliverySteps(w, fates);
    RunOfTwo(s, maxAttempts, steps);
    assert steps[2..] == DeliverySteps(w, fates);
    DeliveriesAreRun(Step(Step(s, maxAttempts, steps[0]), maxAttempts, steps[1]), maxAttempts, w, fates);
  }
}
