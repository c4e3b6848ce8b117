/** Handling one consumed message with retries, the dead letter queue, and when its offset is committed. */
module KafkaProcessor {
  import opened Backoff

  datatype HandlerResult = Handled | RetryableError | UnretryableError

  /** What happens while one message is processed, in order. */
  datatype Effect =
    | Handle(result: HandlerResult)
    | Wait(jitter: int)
    | PublishToDlq(ok: bool)
    | Commit(ok: bool)

  /** How the processing of a message ends. */
  datatype Ending = Succeeded | DeadLettered | Abandoned | Panicked

  /** The handler's result and the outcome of the wait, for each attempt at one message. */
  datatype Fate = Fate(handler: nat -> HandlerResult, canceled: nat -> bool, dlqOk: bool, commitOk: bool)

  /** The attempt fails in a way that leads to another one, and nothing interrupts the wait for it. */
  predicate Retries(cfg: RetryConfig, fate: Fate, attempt: nat) {
    && 1 <= attempt < cfg.maxAttempts
    && fate.handler(attempt).RetryableError?
    && CanDraw(BackoffAt(cfg.baseRetryDelay, cfg.maxRetryDelay, attempt - 1))
    && !fate.canceled(attempt)
  }

  /** How processing ends, from an attempt on, and how often the handler has run by then. */
  function Processing(cfg: RetryConfig, fate: Fate, attempt: nat): (Ending, nat)
    requires attempt >= 1
    decreases cfg.maxAttempts - attempt
  {
    if attempt > cfg.maxAttempts then (DeadLettered, attempt - 1)
    else
      match fate.handler(attempt)
      case Handled => (Succeeded, attempt)
      case UnretryableError => (DeadLettered, attempt)
      case RetryableError =>
        if attempt == cfg.maxAttempts then (DeadLettered, attempt)
        else if !CanDraw(BackoffAt(cfg.baseRetryDelay, cfg.maxRetryDelay, attempt - 1)) then (Panicked, attempt)
        else if fate.canceled(attempt) then (Abandoned, attempt)
        else Processing(cfg, fate, attempt + 1)
  }

  function Closing(ending: Ending, fate: Fate): seq<Effect> {
    match ending
    case Succeeded => [Commit(fate.commitOk)]
    case DeadLettered => [PublishToDlq(fate.dlqOk), Commit(fate.commitOk)]
    case _ => []
  }

  /** The attempts up to the `runs`-th, with a wait of its own between each and the next. */
  function AttemptTrace(cfg: RetryConfig, fate: Fate, draws: nat -> nat, runs: nat): seq<Effect>
    decreases runs, 0
  {
    if runs == 0 then []
    else Waited(cfg, fate, draws, runs - 1) + [Handle(fate.handler(runs))]
  }

  function Waited(cfg: RetryConfig, fate: Fate, draws: nat -> nat, runs: nat): seq<Effect>
    decreases runs, 1
  {
    if runs == 0 then []
    else AttemptTrace(cfg, fate, draws, runs) + [Wait(Jitter(draws(runs - 1), cfg.maxRetryDelay))]
  }

  /** All that happens while one message is processed. */
  function Trace(cfg: RetryConfig, fate: Fate, draws: nat -> nat): seq<Effect> {
    var (ending, runs) := Processing(cfg, fate, 1);
    AttemptTrace(cfg, fate, draws, runs) + Closing(ending, fate)
  }

  /**
    The trace of one message: attempts and waits, then, after a success, the commit; after
    giving up, the dead letter publish and then the commit; after an interrupted wait, nothing.
   */
  method ProcessWithRetry(cfg: RetryConfig, fate: Fate, draws: nat -> nat)
    returns (ending: Ending, runs: nat, trace: seq<Effect>)
    ensures (ending, runs) == Processing(cfg, fate, 1)
    ensures trace == Trace(cfg, fate, draws)
  {
    hide CanDraw, Half, Wrap64;
    trace := [];
    runs := 0;
    var currentBackoff := cfg.baseRetryDelay;
    var attempt: nat := 1;
    while attempt <= cfg.maxAttempts
      invariant runs == attempt - 1 && (attempt == 1 || attempt <= cfg.maxAttempts)
      invariant currentBackoff == BackoffAt(cfg.baseRetryDelay, cfg.maxRetryDelay, attempt - 1)
      invariant Processing(cfg, fate, attempt) == Processing(cfg, fate, 1)
      invariant trace == Waited(cfg, fate, draws, runs)
    {
      var lastErr := fate.handler(attempt);
      trace := trace + [Handle(lastErr)];
      runs := attempt;
      if lastErr == Handled {
        trace := trace + [Commit(fate.commitOk)];
        return Succeeded, runs, trace;
      }
      if lastErr == UnretryableError {
        break;
      }
      if attempt >= cfg.maxAttempts {
        break;
      }
      if !CanDraw(currentBackoff) {
        assert trace + [] == trace;
        return Panicked, runs, trace;
      }
      if fate.canceled(attempt) {
        assert trace + [] == trace;
        return Abandoned, runs, trace;
      }
      trace := trace + [Wait(Jitter(draws(attempt - 1), cfg.maxRetryDelay))];
      if currentBackoff < Half(cfg.maxRetryDelay) {
        currentBackoff := Wrap64(currentBackoff * 2);
      } else {
        currentBackoff := cfg.maxRetryDelay;
      }
      attempt := attempt + 1;
    }
    ending := DeadLettered;
    trace := trace + [PublishToDlq(fate.dlqOk), Commit(fate.commitOk)];
  }

  lemma {:induction false} AttemptsOnly(cfg: RetryConfig, fate: Fate, draws: nat -> nat, runs: nat)
    ensures forall e | e in AttemptTrace(cfg, fate, draws, runs) ::
              e.Handle? || (e.Wait? && e.jitter <= cfg.maxRetryDelay)
    ensures runs > 0 ==> Handle(fate.handler(runs)) in AttemptTrace(cfg, fate, draws, runs)
    decreases runs
  {
    if runs > 0 {
      AttemptsOnly(cfg, fate, draws, runs - 1);
    }
  }

  /**
    Where processing stops: the handler runs at most `maxAttempts` times, an unretryable error
    ends the retries, and only an interrupted wait abandons the message.
   */
  lemma {:induction false} StopsAtFirstUnretried(cfg: RetryConfig, fate: Fate, attempt: nat)
    requires 1 <= attempt <= cfg.maxAttempts
    ensures var (ending, runs) := Processing(cfg, fate, attempt);
            && attempt <= runs <= cfg.maxAttempts
            && (forall k: nat :: attempt <= k < runs ==> Retries(cfg, fate, k))
            && (ending.Succeeded? <==> fate.handler(runs).Handled?)
            && (ending.DeadLettered? <==> fate.handler(runs).UnretryableError?
                                          || (fate.handler(runs).RetryableError? && runs == cfg.maxAttempts))
            && (ending.Abandoned? ==>
                  fate.handler(runs).RetryableError? && runs < cfg.maxAttempts && fate.canceled(runs))
    decreases cfg.maxAttempts - attempt
  {
    hide CanDraw;
    if Retries(cfg, fate, attempt) {
      StopsAtFirstUnretried(cfg, fate, attempt + 1);
    }
  }

  const ALWAYS_RETRIED: Fate := Fate(_ => RetryableError, _ => false, true, true)

  lemma {:induction false} DrawableNeverPanics(cfg: RetryConfig, fate: Fate, attempt: nat)
    requires attempt >= 1 && AllDrawable(cfg.baseRetryDelay, cfg.maxRetryDelay, cfg.maxAttempts - 1)
    ensures Processing(cfg, fate, attempt).0 != Panicked
    decreases cfg.maxAttempts - attempt
  {
    hide CanDraw, BackoffAt;
    if attempt < cfg.maxAttempts {
      assert CanDraw(BackoffAt(cfg.baseRetryDelay, cfg.maxRetryDelay, attempt - 1));
    }
    if attempt <= cfg.maxAttempts {
      DrawableNeverPanics(cfg, fate, attempt + 1);
    }
  }

  lemma {:induction false} ComesToDraw(cfg: RetryConfig, attempt: nat, k: nat)
    requires 1 <= attempt <= k + 1 < cfg.maxAttempts
    requires !CanDraw(BackoffAt(cfg.baseRetryDelay, cfg.maxRetryDelay, k))
    ensures Processing(cfg, ALWAYS_RETRIED, attempt).0 == Panicked
    decreases k + 1 - attempt
  {
    hide CanDraw, BackoffAt;
    if attempt < k + 1 {
      ComesToDraw(cfg, attempt + 1, k);
    }
  }

  /** Exactly when no message can make a worker panic, for every configuration that passes validation. */
  lemma NeverPanicsIff(cfg: RetryConfig)
    requires InInt64(cfg.baseRetryDelay) && InInt64(cfg.maxRetryDelay) && cfg.baseRetryDelay <= cfg.maxRetryDelay
    ensures (forall fate: Fate :: Processing(cfg, fate, 1).0 != Panicked)
       <==> StaysDrawable(cfg.baseRetryDelay, cfg.maxRetryDelay, cfg.maxAttempts - 1)
  {
    hide CanDraw, BackoffAt, StaysDrawable, Processing;
    AllDrawableIff(cfg.baseRetryDelay, cfg.maxRetryDelay, cfg.maxAttempts - 1);
    if AllDrawable(cfg.baseRetryDelay, cfg.maxRetryDelay, cfg.maxAttempts - 1) {
      forall fate: Fate ensures Processing(cfg, fate, 1).0 != Panicked {
        DrawableNeverPanics(cfg, fate, 1);
      }
    } else {
      var k: nat :| k < cfg.maxAttempts - 1 && !CanDraw(BackoffAt(cfg.baseRetryDelay, cfg.maxRetryDelay, k));
      ComesToDraw(cfg, 1, k);
    }
  }

  /**
    The attempts of a message, one by one: the handler's runs in order, and between each and the
    next one wait, which is the draw of its turn, cut off at the cap.
   */
  lemma {:induction false} AttemptsInOrder(cfg: RetryConfig, fate: Fate, draws: nat -> nat, runs: nat, k: nat)
    requires k < runs
    ensures var trace := AttemptTrace(cfg, fate, draws, runs);
            && |trace| == 2 * runs - 1
            && trace[2 * k] == Handle(fate.handler(k + 1))
            && (k + 1 < runs ==>
                  trace[2 * k + 1].Wait?
                  && var wait := trace[2 * k + 1].jitter;
                  wait <= draws(k) && wait <= cfg.maxRetryDelay && (wait == draws(k) || wait == cfg.maxRetryDelay))
    decreases runs
  {
    if runs > 1 {
      AttemptsInOrder(cfg, fate, draws, runs - 1, if k + 1 < runs then k else k - 1);
    }
  }

  predicate HasCommit(trace: seq<Effect>) {
    exists k :: 0 <= k < |trace| && trace[k].Commit?
  }

  /**
    A message that was handled, or handed to the dead letter queue, is committed once, and that is
    the last that happens; any other message is not committed at all. It is published to the queue
    once, right before the commit, exactly if it is handed on.
   */
  lemma CommittedOnceAtTheEnd(cfg: RetryConfig, fate: Fate, draws: nat -> nat)
    ensures var ending := Processing(cfg, fate, 1).0;
            var trace := Trace(cfg, fate, draws);
            && (ending == Succeeded || ending == DeadLettered ==>
                  && trace != [] && trace[|trace| - 1] == Commit(fate.commitOk)
                  && (forall k | 0 <= k < |trace| - 1 :: !trace[k].Commit?))
            && (ending == Abandoned || ending == Panicked ==>
                  forall k | 0 <= k < |trace| :: !trace[k].Commit?)
            && (ending == DeadLettered ==>
                  && |trace| >= 2 && trace[|trace| - 2] == PublishToDlq(fate.dlqOk)
                  && (forall k | 0 <= k < |trace| && k != |trace| - 2 :: !trace[k].PublishToDlq?))
            && (ending != DeadLettered ==> forall k | 0 <= k < |trace| :: !trace[k].PublishToDlq?)
  {
    hide CanDraw, AttemptTrace, Processing;
    var (ending, runs) := Processing(cfg, fate, 1);
    var attempts := AttemptTrace(cfg, fate, draws, runs);
    AttemptsOnly(cfg, fate, draws, runs);
    assert forall k | 0 <= k < |attempts| :: attempts[k] in attempts;
  }

  /** Every commit comes right after the successful run of the handler, or after a tried dead letter publish. */
  lemma CommitIsSafe(cfg: RetryConfig, fate: Fate, draws: nat -> nat, k: nat)
    requires k < |Trace(cfg, fate, draws)| && Trace(cfg, fate, draws)[k].Commit?
    ensures var trace := Trace(cfg, fate, draws);
            && Settled(Processing(cfg, fate, 1).0)
            && k > 0 && (trace[k - 1] == Handle(Handled) || trace[k - 1] == PublishToDlq(fate.dlqOk))
  {
    hide CanDraw, AttemptTrace, Processing;
    var (ending, runs) := Processing(cfg, fate, 1);
    var attempts := AttemptTrace(cfg, fate, draws, runs);
    CommittedOnceAtTheEnd(cfg, fate, draws);
    if ending.Succeeded? {
      EndsWithSuccess(cfg, fate);
      AttemptsInOrder(cfg, fate, draws, runs, runs - 1);
    }
  }

  /** Without a single attempt allowed, a message goes to the dead letter queue unhandled. */
  lemma NoAttemptAllowed(cfg: RetryConfig, fate: Fate, draws: nat -> nat)
    requires cfg.maxAttempts <= 0
    ensures Trace(cfg, fate, draws) == [PublishToDlq(fate.dlqOk), Commit(fate.commitOk)]
  {
    assert AttemptTrace(cfg, fate, draws, 0) == [];
  }

  lemma EndsWithSuccess(cfg: RetryConfig, fate: Fate)
    requires Processing(cfg, fate, 1).0.Succeeded?
    ensures var runs := Processing(cfg, fate, 1).1; runs > 0 && fate.handler(runs).Handled?
  {
    if cfg.maxAttempts >= 1 {
      StopsAtFirstUnretried(cfg, fate, 1);
    }
  }

  /** The message was handled or handed on, so its offset is committed. */
  predicate Settled(ending: Ending) {
    ending.Succeeded? || ending.DeadLettered?
  }

  /** One worker takes messages in offset order, and stops at the first whose trace has no commit. */
  function Worker(cfg: RetryConfig, fates: seq<Fate>, draws: nat -> nat): (traces: seq<seq<Effect>>)
    ensures |traces| <= |fates|
    decreases |fates|
  {
    if fates == [] then []
    else
      var trace := Trace(cfg, fates[0], draws);
      [trace] + if Settled(Processing(cfg, fates[0], 1).0) then Worker(cfg, fates[1..], draws) else []
  }

  lemma CommitsIffSettled(cfg: RetryConfig, fate: Fate, draws: nat -> nat)
    ensures HasCommit(Trace(cfg, fate, draws)) <==> Settled(Processing(cfg, fate, 1).0)
  {
    hide Trace, Processing;
    CommittedOnceAtTheEnd(cfg, fate, draws);
    var trace := Trace(cfg, fate, draws);
    if Settled(Processing(cfg, fate, 1).0) {
      assert trace[|trace| - 1].Commit?;
    }
  }

  /**
    The messages that one worker commits are exactly those before the first that it neither handles
    nor hands on, so committing an offset never skips an unsettled message.
   */
  lemma {:induction false} CommittedPrefix(cfg: RetryConfig, fates: seq<Fate>, draws: nat -> nat, k: nat)
    requires k < |fates|
    ensures var traces := Worker(cfg, fates, draws);
            (k < |traces| && HasCommit(traces[k]))
            <==> (forall j: nat :: j <= k ==>
                    Processing(cfg, fates[j], 1).0 == Succeeded || Processing(cfg, fates[j], 1).0 == DeadLettered)
    decreases k
  {
    hide Processing, Trace, HasCommit;
    CommitsIffSettled(cfg, fates[0], draws);
    if k > 0 {
      CommittedPrefix(cfg, fates[1..], draws, k - 1);
      assert forall j: nat :: j < k ==> fates[1..][j] == fates[j + 1];
      assert forall j: nat :: 0 < j <= k ==> fates[j] == fates[1..][j - 1];
    }
  }
}
