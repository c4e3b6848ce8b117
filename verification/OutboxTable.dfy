/** The outbox table: which rows are fetched, in what order, and how rows are marked and removed. */
module OutboxTable {
  import opened Wrappers
  import opened Backoff
  import opened DomainEvents
  import opened OutboxEvents
  import opened Polling

  const MAX_ATTEMPT: nat := 5

  type Rows = map<Id, OutboxRow>

  /** Fetched are rows not processed, with an attempt to spare, whose next attempt is due. */
  predicate Eligible(r: OutboxRow, now: int) {
    !r.processed && r.attempt <= MAX_ATTEMPT && (r.nextAttemptAt.None? || r.nextAttemptAt.value <= now)
  }

  /** Rows never attempted come first, then the longest due; among equals the oldest. */
  predicate NoLater(a: OutboxRow, b: OutboxRow) {
    match (a.nextAttemptAt, b.nextAttemptAt)
    case (None, None) => a.createdAt <= b.createdAt
    case (None, Some(_)) => true
    case (Some(_), None) => false
    case (Some(x), Some(y)) => x < y || (x == y && a.createdAt <= b.createdAt)
  }

  predicate Keyed(rows: Rows) {
    forall i | i in rows :: rows[i].id == i
  }

  /** A batch of rows as they are in the table, all due, no row twice. */
  predicate IsBatch(rows: Rows, batch: seq<OutboxRow>, now: int) {
    && (forall k | 0 <= k < |batch| :: batch[k].id in rows && rows[batch[k].id] == batch[k] && Eligible(batch[k], now))
    && (forall j, k | 0 <= j < k < |batch| :: batch[j].id != batch[k].id)
  }

  /** The batch is in order and left nothing due out, locked rows apart, but later rows beyond the limit. */
  predicate IsFairBatch(rows: Rows, locked: set<Id>, batch: seq<OutboxRow>, now: int, limit: nat) {
    && IsBatch(rows, batch, now)
    && |batch| <= limit
    && (forall j, k | 0 <= j < k < |batch| :: NoLater(batch[j], batch[k]))
    && (forall i | i in rows && i !in locked && Eligible(rows[i], now) ::
          rows[i] in batch || (|batch| == limit && forall k | 0 <= k < |batch| :: NoLater(batch[k], rows[i])))
    && (forall k | 0 <= k < |batch| :: batch[k].id !in locked)
  }

  function Marked(r: OutboxRow, dbNow: int): OutboxRow {
    r.(processed := true, processedAt := Some(dbNow))
  }

  function Deferred(r: OutboxRow, attempt: nat, now: int): OutboxRow {
    r.(attempt := attempt, nextAttemptAt := Some(now + Pow2(attempt) * SECOND))
  }

  /** Processed long enough ago to be removed. */
  predicate Expired(r: OutboxRow, olderThan: int, dbNow: int) {
    r.processed && r.processedAt.Some? && r.processedAt.value <= dbNow - olderThan
  }

  class OutboxRepository {
    var rows: Rows

    constructor (rows: Rows)
      ensures this.rows == rows
    {
      this.rows := rows;
    }

    /** Inserts all rows or, if an identifier is taken, none. */
    method SaveBatch(events: seq<OutboxRow>) returns (err: Option<Error>)
      requires forall j, k | 0 <= j < k < |events| :: events[j].id != events[k].id
      modifies this
      ensures err.Some? <==> exists k :: 0 <= k < |events| && events[k].id in old(rows)
      ensures err.Some? ==> rows == old(rows)
      ensures err.None? ==> rows.Keys == old(rows).Keys + (set k | 0 <= k < |events| :: events[k].id)
      ensures err.None? ==> forall i | i in old(rows) :: rows[i] == old(rows)[i]
      ensures err.None? ==> forall k | 0 <= k < |events| :: rows[events[k].id] == events[k]
    {
      var tx := rows;
      for k := 0 to |events|
        invariant rows == old(rows)
        invariant forall j | 0 <= j < k :: events[j].id !in rows
        invariant tx.Keys == rows.Keys + (set j | 0 <= j < k :: events[j].id)
        invariant forall i | i in rows :: tx[i] == rows[i]
        invariant forall j | 0 <= j < k :: events[j].id in tx && tx[events[j].id] == events[j]
      {
        if events[k].id in rows {
          return Some(ConstraintViolated);
        }
        tx := tx[events[k].id := events[k]];
      }
      rows := tx;
      return None;
    }

    /** Rows that another query has locked at this moment are skipped. */
    method GetUnprocessed(limit: nat, locked: set<Id>, now: int) returns (events: seq<OutboxRow>)
      requires Keyed(rows)
      ensures IsFairBatch(rows, locked, events, now, limit)
    {
      hide Eligible;
      var due := set i | i in rows && i !in locked && Eligible(rows[i], now);
      var ids;
      ids, events := Fetch(rows, due, NoLater, limit);
      hide NoLater;
      assert forall k | 0 <= k < |events| :: events[k].id == ids[k];
      forall i | i in rows && i !in locked && Eligible(rows[i], now)
        ensures rows[i] in events || (|events| == limit && forall k | 0 <= k < |events| :: NoLater(events[k], rows[i]))
      {
        assert i in due;
        if i in ids {
          var k :| 0 <= k < |ids| && ids[k] == i;
          assert events[k] == rows[i];
        }
      }
    }

    method MarkProcessed(id: Id, dbNow: int) returns (err: Option<Error>)
      modifies this
      ensures err.None? <==> id in old(rows)
      ensures rows == if id in old(rows) then old(rows)[id := Marked(old(rows)[id], dbNow)] else old(rows)
    {
      if id !in rows {
        return Some(ConstraintViolated);
      }
      rows := rows[id := Marked(rows[id], dbNow)];
      return None;
    }

    method MarkFailed(id: Id, attempt: nat, now: int) returns (err: Option<Error>)
      modifies this
      ensures err.None? <==> id in old(rows)
      ensures rows == if id in old(rows) then old(rows)[id := Deferred(old(rows)[id], attempt, now)] else old(rows)
    {
      var backoffSeconds := Pow2(attempt);
      var nextAttemptAt := now + backoffSeconds * SECOND;
      if id !in rows {
        return Some(ConstraintViolated);
      }
      rows := rows[id := rows[id].(attempt := attempt, nextAttemptAt := Some(nextAttemptAt))];
      return None;
    }

    method DeleteOldProcessed(olderThan: int, dbNow: int) returns (count: nat)
      modifies this
      ensures rows == map i | i in old(rows) && !Expired(old(rows)[i], olderThan, dbNow) :: old(rows)[i]
      ensures count == |old(rows)| - |rows|
    {
      var gone := set i | i in rows && Expired(rows[i], olderThan, dbNow);
      count := |gone|;
      ghost var before := rows;
      rows := map i | i in rows && !Expired(rows[i], olderThan, dbNow) :: rows[i];
      assert before.Keys == rows.Keys + gone && rows.Keys !! gone;
      assert |before| == |before.Keys| && |rows| == |rows.Keys|;
    }
  }
}
