/** Running a transaction body with retries: all of its effect, once, or nothing. */
module TransactionManager {
  import opened Wrappers
  import opened Backoff

  /** What can be asked of an error: the database code it carries, and the sentinels in its chain. */
  datatype TxError = TxError(code: Option<string>, deadlineExceeded: bool, canceled: bool, txClosed: bool)

  /** How one attempt goes: which of its three steps fails, if any. */
  datatype Attempt = BeginFails(error: TxError) | BodyFails(error: TxError) | CommitFails(error: TxError) | Commits

  const RETRYABLE_CODES: set<string> :=
    {"40P01", "40001", "08000", "08003", "08006", "08001", "08004", "08007", "08P01"}

  /** A retryable database code decides; otherwise context errors are final and a closed transaction is not. */
  predicate IsRetryable(e: TxError) {
    (e.code.Some? && e.code.value in RETRYABLE_CODES) || (!e.deadlineExceeded && !e.canceled && e.txClosed)
  }

  /** What the caller sees of an error: a sentinel in its place, or the error itself. */
  datatype Reported = TransactionTimeout | ConflictingData | InvalidData | Kept(error: TxError)

  function HandleError(e: TxError): Reported {
    if e.deadlineExceeded then TransactionTimeout
    else if e.canceled then Kept(e)
    else if e.code == Some("23505") then ConflictingData
    else if e.code == Some("23503") then InvalidData
    else Kept(e)
  }

  datatype Outcome =
    | Committed
    | Failed(error: Reported)
    | GaveUpWaiting
    | NeverTried
    | Panicked

  /** The way a call goes from a given attempt on, and the number of the last attempt made. */
  function Execution(cfg: RetryConfig, script: nat -> Attempt, canceled: nat -> bool, attempt: nat): (Outcome, nat)
    requires attempt >= 1
    decreases cfg.maxAttempts - attempt
  {
    if attempt > cfg.maxAttempts then (NeverTried, attempt - 1)
    else if script(attempt).Commits? then (Committed, attempt)
    else if !IsRetryable(script(attempt).error) || attempt == cfg.maxAttempts then
      (Failed(HandleError(script(attempt).error)), attempt)
    else if !CanDraw(BackoffAt(cfg.baseRetryDelay, cfg.maxRetryDelay, attempt - 1)) then (Panicked, attempt)
    else if canceled(attempt) then (GaveUpWaiting, attempt)
    else Execution(cfg, script, canceled, attempt + 1)
  }

  /** Another attempt follows this one. */
  predicate Retries(cfg: RetryConfig, script: nat -> Attempt, canceled: nat -> bool, attempt: nat) {
    && 1 <= attempt < cfg.maxAttempts
    && !script(attempt).Commits? && IsRetryable(script(attempt).error)
    && CanDraw(BackoffAt(cfg.baseRetryDelay, cfg.maxRetryDelay, attempt - 1))
    && !canceled(attempt)
  }

  /**
    Exactly when a call commits: some attempt within the limit does, and every one before it
    failed with an error worth retrying and was not canceled while waiting.
   */
  lemma {:induction false} CommitsIff(cfg: RetryConfig, script: nat -> Attempt, canceled: nat -> bool, attempt: nat)
    requires attempt >= 1
    ensures Execution(cfg, script, canceled, attempt).0 == Committed
       <==> exists n: nat :: attempt <= n <= cfg.maxAttempts && script(n).Commits?
                        && forall k: nat :: attempt <= k < n ==> Retries(cfg, script, canceled, k)
    decreases cfg.maxAttempts - attempt
  {
    if attempt <= cfg.maxAttempts && !script(attempt).Commits? && Retries(cfg, script, canceled, attempt) {
      CommitsIff(cfg, script, canceled, attempt + 1);
      if n: nat :| attempt + 1 <= n <= cfg.maxAttempts && script(n).Commits?
                   && forall k: nat :: attempt + 1 <= k < n ==> Retries(cfg, script, canceled, k) {
        assert forall k: nat :: attempt <= k < n ==> Retries(cfg, script, canceled, k);
      }
    }
  }

  /**
    Where a call stops: within the limit, at the first attempt that is not retried, and all the
    attempts before it were. An error that is not worth retrying therefore ends it at once.
   */
  lemma {:induction false} StopsAtFirstUnretried(cfg: RetryConfig, script: nat -> Attempt, canceled: nat -> bool,
                                                 attempt: nat)
    requires 1 <= attempt <= cfg.maxAttempts
    ensures var (outcome, last) := Execution(cfg, script, canceled, attempt);
            && attempt <= last <= cfg.maxAttempts
            && !Retries(cfg, script, canceled, last)
            && (forall k: nat :: attempt <= k < last ==> Retries(cfg, script, canceled, k))
            && (outcome == Committed <==> script(last).Commits?)
            && (outcome.Failed? ==> script(last) != Commits && outcome.error == HandleError(script(last).error))
    decreases cfg.maxAttempts - attempt
  {
    if Retries(cfg, script, canceled, attempt) {
      StopsAtFirstUnretried(cfg, script, canceled, attempt + 1);
    }
  }

  /**
    Exactly when a failed attempt is followed by another, with one left, a delay that can be drawn
    and a wait that nothing cancels: the database code is one of nine, or the transaction was
    closed and neither a deadline nor a cancellation is the reason.
   */
  lemma FollowedIff(cfg: RetryConfig, script: nat -> Attempt, canceled: nat -> bool, attempt: nat)
    requires 1 <= attempt < cfg.maxAttempts && !script(attempt).Commits? && !canceled(attempt)
    requires CanDraw(BackoffAt(cfg.baseRetryDelay, cfg.maxRetryDelay, attempt - 1))
    ensures var e := script(attempt).error;
            Execution(cfg, script, canceled, attempt).1 > attempt
            <==> (e.code.Some? && (e.code.value == "40P01" || e.code.value == "40001"
                                   || e.code.value == "08000" || e.code.value == "08003" || e.code.value == "08006"
                                   || e.code.value == "08001" || e.code.value == "08004" || e.code.value == "08007"
                                   || e.code.value == "08P01"))
                 || (e.txClosed && !e.deadlineExceeded && !e.canceled)
  {
    hide CanDraw, BackoffAt;
    StopsAtFirstUnretried(cfg, script, canceled, attempt + 1);
  }

  /** A serialization failure is retried, and the retry commits. */
  lemma SerializationFailureRetried(cfg: RetryConfig, script: nat -> Attempt, canceled: nat -> bool)
    requires cfg.maxAttempts >= 2 && CanDraw(cfg.baseRetryDelay) && !canceled(1)
    requires !script(1).Commits? && script(1).error.code == Some("40001") && script(2).Commits?
    ensures Execution(cfg, script, canceled, 1) == (Committed, 2)
  {
    hide CanDraw;
    assert BackoffAt(cfg.baseRetryDelay, cfg.maxRetryDelay, 0) == cfg.baseRetryDelay;
    assert Execution(cfg, script, canceled, 2) == (Committed, 2);
  }

  /**
    What the caller sees of the last error: a deadline is a timeout, a duplicate key a conflict and
    a missing reference invalid data, unless the context was canceled; anything else as it is.
   */
  lemma SeenByCaller(cfg: RetryConfig, script: nat -> Attempt, canceled: nat -> bool)
    requires cfg.maxAttempts >= 1 && Execution(cfg, script, canceled, 1).0.Failed?
    ensures var (outcome, last) := Execution(cfg, script, canceled, 1);
            script(last) != Commits
            && var e := script(last).error;
            && (outcome.error == TransactionTimeout <==> e.deadlineExceeded)
            && (outcome.error == ConflictingData <==> !e.deadlineExceeded && !e.canceled && e.code == Some("23505"))
            && (outcome.error == InvalidData <==> !e.deadlineExceeded && !e.canceled && e.code == Some("23503"))
            && (outcome.error.Kept? ==> outcome.error.error == e)
  {
    hide CanDraw, BackoffAt, IsRetryable;
    StopsAtFirstUnretried(cfg, script, canceled, 1);
  }

  /** A failure that is retried whenever an attempt is left, on a context that is never canceled. */
  const ALWAYS_RETRIED: nat -> Attempt := _ => BeginFails(TxError(None, false, false, true))

  const NEVER_CANCELED: nat -> bool := _ => false

  lemma {:induction false} DrawableNeverPanics(cfg: RetryConfig, script: nat -> Attempt, canceled: nat -> bool,
                                               attempt: nat)
    requires attempt >= 1 && AllDrawable(cfg.baseRetryDelay, cfg.maxRetryDelay, cfg.maxAttempts - 1)
    ensures Execution(cfg, script, canceled, attempt).0 != Panicked
    decreases cfg.maxAttempts - attempt
  {
    hide CanDraw, BackoffAt, IsRetryable;
    if attempt < cfg.maxAttempts {
      assert CanDraw(BackoffAt(cfg.baseRetryDelay, cfg.maxRetryDelay, attempt - 1));
    }
    if attempt <= cfg.maxAttempts {
      DrawableNeverPanics(cfg, script, canceled, attempt + 1);
    }
  }

  /** If every attempt fails and is retried, the loop comes to each of its draws. */
  lemma {:induction false} ComesToDraw(cfg: RetryConfig, attempt: nat, k: nat)
    requires 1 <= attempt <= k + 1 < cfg.maxAttempts
    requires !CanDraw(BackoffAt(cfg.baseRetryDelay, cfg.maxRetryDelay, k))
    ensures Execution(cfg, ALWAYS_RETRIED, NEVER_CANCELED, attempt).0 == Panicked
    decreases k + 1 - attempt
  {
    hide CanDraw, BackoffAt;
    if attempt < k + 1 {
      ComesToDraw(cfg, attempt + 1, k);
    }
  }

  /**
    Exactly when no failure pattern makes a call panic: every delay it can come to before its
    last attempt can be drawn from; in closed form, for every configuration that passes validation.
   */
  lemma NeverPanicsIff(cfg: RetryConfig)
    requires InInt64(cfg.baseRetryDelay) && InInt64(cfg.maxRetryDelay) && cfg.baseRetryDelay <= cfg.maxRetryDelay
    ensures (forall script: nat -> Attempt, canceled: nat -> bool :: Execution(cfg, script, canceled, 1).0 != Panicked)
       <==> StaysDrawable(cfg.baseRetryDelay, cfg.maxRetryDelay, cfg.maxAttempts - 1)
  {
    hide CanDraw, BackoffAt, StaysDrawable, Execution, IsRetryable;
    AllDrawableIff(cfg.baseRetryDelay, cfg.maxRetryDelay, cfg.maxAttempts - 1);
    if AllDrawable(cfg.baseRetryDelay, cfg.maxRetryDelay, cfg.maxAttempts - 1) {
      forall script: nat -> Attempt, canceled: nat -> bool
        ensures Execution(cfg, script, canceled, 1).0 != Panicked
      {
        DrawableNeverPanics(cfg, script, canceled, 1);
      }
    } else {
      var k: nat :| k < cfg.maxAttempts - 1 && !CanDraw(BackoffAt(cfg.baseRetryDelay, cfg.maxRetryDelay, k));
      ComesToDraw(cfg, 1, k);
    }
  }

  class Manager<S> {
    /** What is committed. */
    var store: S
    /** How many transactions have been committed. */
    var commits: nat
    const cfg: RetryConfig

    constructor (initial: S, cfg: RetryConfig)
      ensures store == initial && commits == 0 && this.cfg == cfg
    {
      store, commits, this.cfg := initial, 0, cfg;
    }

    /** A base delay above the cap is refused; it may be equal to it, zero, or negative. */
    static method NewManager(initial: S, cfg: RetryConfig) returns (manager: Manager?<S>)
      ensures manager == null <==> cfg.baseRetryDelay > cfg.maxRetryDelay
      ensures manager != null ==>
                fresh(manager) && manager.store == initial && manager.commits == 0 && manager.cfg == cfg
    {
      if cfg.baseRetryDelay > cfg.maxRetryDelay {
        return null;
      }
      manager := new Manager(initial, cfg);
    }

    /**
      One attempt. The body works on the transaction's own copy; whatever it did there when it
      or the commit fails, given by `partial`, is dropped by the rollback.
     */
    method DoTransaction(body: S -> S, partial: S -> S, attempt: Attempt) returns (err: Option<TxError>)
      modifies this
      ensures err.None? <==> attempt.Commits?
      ensures err.Some? ==> err.value == attempt.error && store == old(store) && commits == old(commits)
      ensures err.None? ==> store == body(old(store)) && commits == old(commits) + 1
    {
      if attempt.BeginFails? {
        return Some(attempt.error);
      }
      var tx := store;
      if attempt.BodyFails? {
        tx := partial(tx);
        return Some(attempt.error);
      }
      tx := body(tx);
      if attempt.CommitFails? {
        return Some(attempt.error);
      }
      store := tx;
      commits := commits + 1;
      return None;
    }

    /**
      For every pattern of failures: a commit means the effect of the body as the last attempt
      ran it, and of no other attempt, was committed exactly once; anything else leaves the store
      as it was. The body may do something else at each attempt. Every wait is the draw of its
      turn, cut off at the cap.
     */
    method ExecuteInTransaction(bodies: nat -> (S -> S), partials: nat -> (S -> S), script: nat -> Attempt,
                                canceled: nat -> bool, draws: nat -> nat)
      returns (outcome: Outcome, ghost attempts: nat, waits: seq<int>)
      requires forall k: nat :: CanDraw(BackoffAt(cfg.baseRetryDelay, cfg.maxRetryDelay, k)) ==>
                                  draws(k) < Wrap64(2 * BackoffAt(cfg.baseRetryDelay, cfg.maxRetryDelay, k))
      modifies this
      ensures (outcome, attempts) == Execution(cfg, script, canceled, 1)
      ensures outcome == Committed ==> store == bodies(attempts)(old(store)) && commits == old(commits) + 1
      ensures outcome != Committed ==> store == old(store) && commits == old(commits)
      ensures attempts <= if cfg.maxAttempts >= 0 then cfg.maxAttempts else 0
      ensures attempts > 0 ==> attempts - 1 <= |waits| <= attempts
      ensures forall k :: 0 <= k < |waits| ==> waits[k] == Jitter(draws(k), cfg.maxRetryDelay)
    {
      hide CanDraw, IsRetryable, HandleError, Half, Wrap64;
      waits := [];
      attempts := 0;
      var currentBackoff := cfg.baseRetryDelay;
      var attempt: nat := 1;
      while attempt <= cfg.maxAttempts
        invariant attempts == attempt - 1 == |waits| && (attempt == 1 || attempt <= cfg.maxAttempts)
        invariant currentBackoff == BackoffAt(cfg.baseRetryDelay, cfg.maxRetryDelay, attempt - 1)
        invariant Execution(cfg, script, canceled, attempt) == Execution(cfg, script, canceled, 1)
        invariant store == old(store) && commits == old(commits)
        invariant forall k :: 0 <= k < |waits| ==> waits[k] == Jitter(draws(k), cfg.maxRetryDelay)
      {
        attempts := attempt;
        var err := DoTransaction(bodies(attempt), partials(attempt), script(attempt));
        if err.None? {
          return Committed, attempts, waits;
        }
        var lastErr := err.value;
        if !IsRetryable(lastErr) || attempt == cfg.maxAttempts {
          return Failed(HandleError(lastErr)), attempts, waits;
        }
        if !CanDraw(currentBackoff) {
          return Panicked, attempts, waits;
        }
        waits := waits + [Jitter(draws(attempt - 1), cfg.maxRetryDelay)];
        if canceled(attempt) {
          return GaveUpWaiting, attempts, waits;
        }
        if currentBackoff < Half(cfg.maxRetryDelay) {
          currentBackoff := Wrap64(currentBackoff * 2);
        } else {
          currentBackoff := cfg.maxRetryDelay;
        }
        attempt := attempt + 1;
      }
      return NeverTried, attempts, waits;
    }
  }
}
