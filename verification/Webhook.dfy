/** Webhook deliveries: the log entry, its table, and the worker that retries with growing delays. */
module Webhook {
  import opened Wrappers
  import opened Backoff
  import opened Polling

  type Id = nat

  datatype Status = Pending | Delivered | Failed

  datatype LogRow = LogRow(
    id: Id,
    status: Status,
    responseCode: Option<int>,
    attempt: nat,
    maxAttempts: nat,
    hasError: bool,
    nextAttemptAt: int,
    deliveredAt: Option<int>,
    createdAt: int,
    updatedAt: int)

  function NewWebhookLog(id: Id, now: int): LogRow {
    LogRow(id, Pending, None, 1, 5, false, now, None, now, now)
  }

  function DeliveredLog(r: LogRow, responseCode: int, now: int): LogRow {
    r.(status := Delivered, responseCode := Some(responseCode), hasError := false, deliveredAt := Some(now),
       updatedAt := now)
  }

  /** The entity's own failure transition; the worker uses the table's instead. */
  function FailedLog(r: LogRow, nextAttempt: int, now: int): LogRow {
    r.(hasError := true, attempt := r.attempt + 1, nextAttemptAt := nextAttempt, updatedAt := now,
       status := if r.attempt + 1 >= r.maxAttempts then Failed else Pending)
  }

  /** The table's failure update. */
  function RescheduledRow(r: LogRow, nextAttempt: int, now: int): LogRow {
    r.(status := Failed, hasError := true, nextAttemptAt := nextAttempt, attempt := r.attempt + 1, updatedAt := now)
  }

  class WebhookLog {
    const id: Id
    var status: Status
    var responseCode: Option<int>
    var attempt: nat
    const maxAttempts: nat
    var hasError: bool
    var nextAttemptAt: int
    var deliveredAt: Option<int>
    const createdAt: int
    var updatedAt: int

    function Row(): LogRow
      reads this
    {
      LogRow(id, status, responseCode, attempt, maxAttempts, hasError, nextAttemptAt, deliveredAt, createdAt, updatedAt)
    }

    constructor Load(r: LogRow)
      ensures Row() == r
    {
      id, status, responseCode := r.id, r.status, r.responseCode;
      attempt, maxAttempts := r.attempt, r.maxAttempts;
      hasError, nextAttemptAt, deliveredAt := r.hasError, r.nextAttemptAt, r.deliveredAt;
      createdAt, updatedAt := r.createdAt, r.updatedAt;
    }

    method MarkDelivered(code: int, now: int)
      modifies this
      ensures Row() == DeliveredLog(old(Row()), code, now)
    {
      status := Delivered;
      responseCode := Some(code);
      hasError := false;
      deliveredAt := Some(now);
      updatedAt := now;
    }

    method MarkFailed(now: int, nextAttempt: int)
      modifies this
      ensures Row() == FailedLog(old(Row()), nextAttempt, now)
    {
      hasError := true;
      attempt := attempt + 1;
      nextAttemptAt := nextAttempt;
      updatedAt := now;
      if attempt >= maxAttempts {
        status := Failed;
      } else {
        status := Pending;
      }
    }
  }

  type Rows = map<Id, LogRow>

  predicate Keyed(rows: Rows) {
    forall i | i in rows :: rows[i].id == i
  }

  /** Undelivered and due: the attempts made so far play no part. */
  predicate Due(r: LogRow, now: int) {
    !r.status.Delivered? && r.nextAttemptAt <= now
  }

  predicate IsBatch(rows: Rows, batch: seq<LogRow>, now: int) {
    && (forall k | 0 <= k < |batch| :: batch[k].id in rows && rows[batch[k].id] == batch[k] && Due(batch[k], now))
    && (forall j, k | 0 <= j < k < |batch| :: batch[j].id != batch[k].id)
  }

  /** Longest due first, and nothing due left out but for the limit. */
  predicate IsOldestBatch(rows: Rows, batch: seq<LogRow>, now: int, limit: nat) {
    && IsBatch(rows, batch, now) && |batch| <= limit
    && (forall j, k | 0 <= j < k < |batch| :: batch[j].nextAttemptAt <= batch[k].nextAttemptAt)
    && (forall i | i in rows && Due(rows[i], now) ::
          rows[i] in batch
          || (|batch| == limit && forall k | 0 <= k < |batch| :: batch[k].nextAttemptAt <= rows[i].nextAttemptAt))
  }

  predicate NoLater(a: LogRow, b: LogRow) {
    a.nextAttemptAt <= b.nextAttemptAt
  }

  class WebhookLogRepository {
    var rows: Rows

    constructor (rows: Rows)
      ensures this.rows == rows
    {
      this.rows := rows;
    }

    method GetPendingForRetry(now: int, limit: nat) returns (logs: seq<LogRow>)
      requires Keyed(rows)
      ensures IsOldestBatch(rows, logs, now, limit)
    {
      hide Due;
      var due := set i | i in rows && Due(rows[i], now);
      var ids;
      ids, logs := Fetch(rows, due, NoLater, limit);
      assert forall k | 0 <= k < |logs| :: logs[k].id == ids[k];
      forall i | i in rows && Due(rows[i], now)
        ensures rows[i] in logs
                || (|logs| == limit && forall k | 0 <= k < |logs| :: logs[k].nextAttemptAt <= rows[i].nextAttemptAt)
      {
        assert i in due;
        if i in ids {
          var k :| 0 <= k < |ids| && ids[k] == i;
          assert logs[k] == rows[i];
        }
      }
    }

    /** Writes every column of the copy back. */
    method Update(wl: LogRow) returns (ok: bool)
      modifies this
      ensures ok == (wl.id in old(rows))
      ensures rows == if ok then old(rows)[wl.id := wl] else old(rows)
    {
      ok := wl.id in rows;
      if ok {
        rows := rows[wl.id := wl];
      }
    }

    method MarkFailed(id: Id, nextAttemptAt: int, now: int) returns (ok: bool)
      modifies this
      ensures ok == (id in old(rows))
      ensures rows == if ok then old(rows)[id := RescheduledRow(old(rows)[id], nextAttemptAt, now)] else old(rows)
    {
      ok := id in rows;
      if ok {
        var r := rows[id];
        rows := rows[id := r.(status := Failed, hasError := true, nextAttemptAt := nextAttemptAt,
                              attempt := r.attempt + 1, updatedAt := now)];
      }
    }
  }

  /** What befalls one delivery: the clock, the endpoint lookup, the response if one comes, the row update. */
  datatype Fate = Fate(now: int, endpointOk: bool, response: Option<int>, dbOk: bool)

  predicate Accepted(fate: Fate) {
    fate.response.Some? && 200 <= fate.response.value < 300
  }

  /** The table after one delivery made from a fetched copy. */
  function RetriedRows(rows: Rows, maxAttempts: int, copy: LogRow, fate: Fate): Rows {
    if !fate.endpointOk || !fate.dbOk || copy.id !in rows then rows
    else if Accepted(fate) then rows[copy.id := DeliveredLog(copy, fate.response.value, fate.now)]
    else if copy.attempt >= maxAttempts || copy.attempt == 0 then rows
    else rows[copy.id := RescheduledRow(rows[copy.id], fate.now + Pow2(copy.attempt - 1) * SECOND, fate.now)]
  }

  /**
    Exactly when a delivery counts as made: the endpoint was found, it answered with a status from
    200 to 299, and the row was written. It then holds that answer and the time.
   */
  lemma DeliveredIff(rows: Rows, maxAttempts: int, id: Id, fate: Fate)
    requires id in rows && rows[id].id == id && !rows[id].status.Delivered?
    ensures var after := RetriedRows(rows, maxAttempts, rows[id], fate);
            && id in after
            && (after[id].status == Delivered <==>
                  fate.endpointOk && fate.dbOk && fate.response.Some? && 200 <= fate.response.value <= 299)
            && (after[id].status == Delivered ==>
                  && after[id].responseCode == fate.response && after[id].deliveredAt == Some(fate.now)
                  && !after[id].hasError && after[id].updatedAt == fate.now)
  {
  }

  /** A refusal that is recorded leaves the entry failed, with an error, at the next attempt. */
  lemma RefusalRecorded(rows: Rows, maxAttempts: int, id: Id, fate: Fate)
    requires id in rows && rows[id].id == id && 0 < rows[id].attempt < maxAttempts
    requires fate.endpointOk && fate.dbOk
    requires fate.response.None? || fate.response.value < 200 || fate.response.value >= 300
    ensures var after := RetriedRows(rows, maxAttempts, rows[id], fate);
            && after.Keys == rows.Keys
            && after[id].status == Failed && after[id].hasError && after[id].updatedAt == fate.now
            && after[id].attempt == rows[id].attempt + 1
            && after[id].responseCode == rows[id].responseCode && after[id].createdAt == rows[id].createdAt
  {
  }

  /** An entry after a number of failures put on it by its own method. */
  function FailedTimes(r: LogRow, times: nat, nextAttempt: int, now: int): LogRow
    decreases times
  {
    if times == 0 then r else FailedLog(FailedTimes(r, times - 1, nextAttempt, now), nextAttempt, now)
  }

  /** A new entry is at its first attempt, due at once, and failed for good from its fourth failure on. */
  lemma {:induction false} NewLogAllowsFive(id: Id, now: int, times: nat, nextAttempt: int, later: int)
    ensures var r := FailedTimes(NewWebhookLog(id, now), times, nextAttempt, later);
            && r.attempt == times + 1 && r.maxAttempts == 5 && r.createdAt == now
            && (times == 0 ==> !r.hasError && r.updatedAt == now)
            && (r.status == Failed <==> times >= 4) && (times < 4 ==> r.status == Pending)
            && (times > 0 ==> r.hasError && r.nextAttemptAt == nextAttempt && r.updatedAt == later)
    ensures Due(NewWebhookLog(id, now), later) <==> now <= later
    decreases times
  {
    if times > 0 {
      NewLogAllowsFive(id, now, times - 1, nextAttempt, later);
    }
  }

  /** The deliveries of a batch, one after the other. */
  function RetriedAll(rows: Rows, maxAttempts: int, batch: seq<LogRow>, fates: seq<Fate>): Rows
    requires |fates| == |batch|
    decreases |batch|
  {
    if batch == [] then rows
    else RetriedAll(RetriedRows(rows, maxAttempts, batch[0], fates[0]), maxAttempts, batch[1..], fates[1..])
  }

  class WebhookRetryWorker {
    const logs: WebhookLogRepository
    const maxAttempts: int

    constructor (logs: WebhookLogRepository, maxAttempts: int)
      ensures this.logs == logs && this.maxAttempts == maxAttempts
    {
      this.logs, this.maxAttempts := logs, maxAttempts;
    }

    method RetryWebhook(wl: WebhookLog, fate: Fate)
      requires wl.attempt >= 1
      modifies logs, wl
      ensures logs.rows == RetriedRows(old(logs.rows), maxAttempts, old(wl.Row()), fate)
    {
      if !fate.endpointOk {
        return;
      }
      if Accepted(fate) {
        wl.MarkDelivered(fate.response.value, fate.now);
        if fate.dbOk {
          var _ := logs.Update(wl.Row());
        }
        return;
      }
      if wl.attempt >= maxAttempts {
        return;
      }
      var backoffSeconds := Pow2(wl.attempt - 1);
      var nextAttemptAt := fate.now + backoffSeconds * SECOND;
      if fate.dbOk {
        var _ := logs.MarkFailed(wl.id, nextAttemptAt, fate.now);
      }
    }

    method ProcessBatch(now: int, limit: nat, fates: nat -> Fate) returns (batch: seq<LogRow>)
      requires Keyed(logs.rows) && forall i | i in logs.rows :: logs.rows[i].attempt >= 1
      modifies logs
      ensures IsOldestBatch(old(logs.rows), batch, now, limit)
      ensures logs.rows == RetriedAll(old(logs.rows), maxAttempts, batch, seq(|batch|, k requires 0 <= k => fates(k)))
    {
      hide RetriedRows, Due;
      batch := logs.GetPendingForRetry(now, limit);
      ghost var all := seq(|batch|, k requires 0 <= k => fates(k));
      var k := 0;
      while k < |batch|
        invariant 0 <= k <= |batch|
        invariant RetriedAll(logs.rows, maxAttempts, batch[k..], all[k..])
               == RetriedAll(old(logs.rows), maxAttempts, batch, all)
      {
        var wl := new WebhookLog.Load(batch[k]);
        assert batch[k..][1..] == batch[k + 1..] && all[k..][1..] == all[k + 1..];
        RetryWebhook(wl, fates(k));
        k := k + 1;
      }
    }
  }
}
