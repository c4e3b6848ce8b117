/**
  The dead letter queue: publishers fill a bounded channel, one worker empties it, sending
  each message with a growing pause after failures, and drains it on shutdown.
 */
module Dlq {
  import opened Backoff

  /** Where the worker is; a message it has taken out of the channel is in its hand. */
  datatype Worker<M> =
    | Receiving
    | Sending(m: M)
    | Pausing(m: M)
    | Draining
    | DrainSending(m: M)
    | Stopped

  datatype Config = Config(bufferSize: nat, initialBackoff: int, maxBackoff: int)

  /** `failures` counts the pauses since the last successful send; the multisets account for every queued message. */
  datatype State<M> = State(
    channel: seq<M>,
    worker: Worker<M>,
    canceled: bool,
    backoff: int,
    failures: nat,
    queued: multiset<M>,
    sent: multiset<M>,
    lost: multiset<M>)

  /** One atomic step of a publisher, the worker, or the owner closing the queue. */
  datatype Action<M> =
    | Enqueue(m: M)
    | SendDirectly(m: M, ok: bool)
    | Refuse(m: M)
    | Receive
    | SendDone(ok: bool)
    | PauseOver
    | Close
    | CancelPause
    | StartDrain
    | DrainReceive
    | DrainSendDone(ok: bool)
    | DrainOver

  function Start<M>(cfg: Config): State<M> {
    State([], Receiving, false, cfg.initialBackoff, 0, multiset{}, multiset{}, multiset{})
  }

  /** A send into the channel does not block: there is room, or without a buffer the worker is waiting. */
  predicate HasRoom<M>(cfg: Config, s: State<M>) {
    |s.channel| < cfg.bufferSize || (cfg.bufferSize == 0 && s.worker.Receiving?)
  }

  function Enqueued<M>(cfg: Config, s: State<M>, m: M): State<M> {
    if !HasRoom(cfg, s) then s
    else if cfg.bufferSize == 0 then s.(worker := Sending(m), queued := s.queued + multiset{m})
    else s.(channel := s.channel + [m], queued := s.queued + multiset{m})
  }

  function Taken<M>(s: State<M>, w: Worker<M>): State<M>
    requires s.channel != []
  {
    s.(worker := w, channel := s.channel[1..])
  }

  function Dropped<M>(s: State<M>): State<M>
    requires s.worker.Pausing?
  {
    s.(worker := Stopped, lost := s.lost + multiset{s.worker.m})
  }

  function Sent<M>(cfg: Config, s: State<M>, ok: bool): State<M>
    requires s.worker.Sending?
  {
    if ok then
      s.(worker := Receiving, sent := s.sent + multiset{s.worker.m}, backoff := cfg.initialBackoff, failures := 0)
    else s.(worker := Pausing(s.worker.m))
  }

  function DrainSent<M>(s: State<M>, ok: bool): State<M>
    requires s.worker.DrainSending?
  {
    if ok then s.(worker := Draining, sent := s.sent + multiset{s.worker.m})
    else s.(worker := Draining, lost := s.lost + multiset{s.worker.m})
  }

  function Paused<M>(cfg: Config, s: State<M>): State<M>
    requires s.worker.Pausing?
  {
    var rested := s.(worker := Receiving, backoff := Min(2 * s.backoff, cfg.maxBackoff), failures := s.failures + 1);
    if |s.channel| < cfg.bufferSize then rested.(channel := s.channel + [s.worker.m])
    else rested.(lost := s.lost + multiset{s.worker.m})
  }

  /** The effect of a step; a step that is not possible in a state changes nothing. */
  function Step<M>(cfg: Config, s: State<M>, a: Action<M>): State<M> {
    match a
    case Enqueue(m) => Enqueued(cfg, s, m)
    case SendDirectly(_, _) => s
    case Refuse(_) => s
    case Receive =>
      if s.worker.Receiving? && s.channel != [] then Taken(s, Sending(s.channel[0])) else s
    case SendDone(ok) => if s.worker.Sending? then Sent(cfg, s, ok) else s
    case PauseOver => if s.worker.Pausing? then Paused(cfg, s) else s
    case Close => s.(canceled := true)
    case CancelPause =>
      if s.worker.Pausing? && s.canceled then Dropped(s) else s
    case StartDrain =>
      if s.worker.Receiving? && s.canceled then s.(worker := Draining) else s
    case DrainReceive =>
      if s.worker.Draining? && s.channel != [] then Taken(s, DrainSending(s.channel[0])) else s
    case DrainSendDone(ok) => if s.worker.DrainSending? then DrainSent(s, ok) else s
    case DrainOver =>
      if s.worker.Draining? && s.channel == [] then s.(worker := Stopped) else s
  }

  function Run<M>(cfg: Config, s: State<M>, actions: seq<Action<M>>): State<M>
    decreases |actions|
  {
    if actions == [] then s else Run(cfg, Step(cfg, s, actions[0]), actions[1..])
  }

  function InHand<M>(w: Worker<M>): multiset<M> {
    match w
    case Sending(m) => multiset{m}
    case Pausing(m) => multiset{m}
    case DrainSending(m) => multiset{m}
    case _ => multiset{}
  }

  /** The delay before the pause that follows `k` earlier ones in a row. */
  function PauseAfter(cfg: Config, k: nat): int {
    if k == 0 then cfg.initialBackoff else Min(cfg.initialBackoff * Pow2(k), cfg.maxBackoff)
  }

  /** Nothing is made up or forgotten. */
  predicate Conserved<M>(s: State<M>) {
    s.queued == s.sent + multiset(s.channel) + InHand(s.worker) + s.lost
  }

  /** The channel keeps its bound and the delay is the capped power. */
  predicate Bounded<M>(cfg: Config, s: State<M>) {
    |s.channel| <= cfg.bufferSize && s.backoff == PauseAfter(cfg, s.failures)
  }

  /** Three places give a message up: no room after the pause, shutdown in a pause, failure while draining. */
  predicate GivesUp<M>(cfg: Config, s: State<M>, a: Action<M>) {
    || (a.PauseOver? && s.worker.Pausing? && |s.channel| >= cfg.bufferSize)
    || (a.CancelPause? && s.worker.Pausing? && s.canceled)
    || (a == DrainSendDone(false) && s.worker.DrainSending?)
  }

  function Buffered<M(==)>(channel: seq<M>, x: M): nat {
    multiset(channel)[x]
  }

  /** How often a message is accounted for. */
  function Accounted<M(==)>(s: State<M>, x: M): nat {
    s.sent[x] + Buffered(s.channel, x) + InHand(s.worker)[x] + s.lost[x]
  }

  lemma HeadAndTail<M>(channel: seq<M>)
    requires channel != []
    ensures multiset(channel) == multiset{channel[0]} + multiset(channel[1..])
  {
    assert channel == [channel[0]] + channel[1..];
  }

  lemma StepAccounts<M>(cfg: Config, s: State<M>, a: Action<M>, x: M)
    requires s.queued[x] == Accounted(s, x)
    ensures Step(cfg, s, a).queued[x] == Accounted(Step(cfg, s, a), x)
  {
    hide Accounted, InHand, Enqueued, Taken, Sent, DrainSent, Paused, Dropped;
    InHandOf(s.worker);
    match a {
      case Enqueue(m) => EnqueueAccounts(cfg, s, m, x);
      case Receive => if s.channel != [] { TakeAccounts(s, Sending(s.channel[0]), x); }
      case DrainReceive => if s.channel != [] { TakeAccounts(s, DrainSending(s.channel[0]), x); }
      case CancelPause => DropAccounts(s, x);
      case SendDone(ok) => SendAccounts(cfg, s, ok, x);
      case DrainSendDone(ok) => DrainSendAccounts(s, ok, x);
      case PauseOver => PauseAccounts(cfg, s, x);
      case _ => QuietAccounts(cfg, s, a, x);
    }
  }

  lemma InHandOf<M>(w: Worker<M>)
    ensures w.Receiving? || w.Draining? || w.Stopped? ==> InHand(w) == multiset{}
    ensures forall m: M :: InHand(Sending(m)) == multiset{m} && InHand(DrainSending(m)) == multiset{m}
  {
  }

  lemma QuietAccounts<M>(cfg: Config, s: State<M>, a: Action<M>, x: M)
    requires s.queued[x] == Accounted(s, x)
    requires a.SendDirectly? || a.Refuse? || a.Close? || a.StartDrain? || a.DrainOver?
    ensures Step(cfg, s, a).queued[x] == Accounted(Step(cfg, s, a), x)
  {
    hide Buffered, InHand, Enqueued, Taken, Sent, DrainSent, Paused, Dropped;
    InHandOf(s.worker);
    InHandOf(Step(cfg, s, a).worker);
  }

  lemma AppendCounts<M>(channel: seq<M>, m: M, x: M)
    ensures Buffered(channel + [m], x) == Buffered(channel, x) + multiset{m}[x]
  {
    assert multiset(channel + [m]) == multiset(channel) + multiset{m};
  }

  lemma HeadCounts<M>(channel: seq<M>, x: M)
    requires channel != []
    ensures Buffered(channel, x) == multiset{channel[0]}[x] + Buffered(channel[1..], x)
  {
    assert channel == [channel[0]] + channel[1..];
  }

  lemma EnqueueAccounts<M>(cfg: Config, s: State<M>, m: M, x: M)
    requires s.queued[x] == Accounted(s, x)
    ensures Enqueued(cfg, s, m).queued[x] == Accounted(Enqueued(cfg, s, m), x)
  {
    hide Buffered;
    AppendCounts(s.channel, m, x);
  }

  lemma TakeAccounts<M>(s: State<M>, w: Worker<M>, x: M)
    requires s.queued[x] == Accounted(s, x) && s.channel != []
    ensures InHand(s.worker) == multiset{} && InHand(w) == multiset{s.channel[0]} ==>
              Taken(s, w).queued[x] == Accounted(Taken(s, w), x)
  {
    hide Buffered;
    HeadCounts(s.channel, x);
  }

  lemma DropAccounts<M>(s: State<M>, x: M)
    requires s.queued[x] == Accounted(s, x)
    ensures s.worker.Pausing? ==> Dropped(s).queued[x] == Accounted(Dropped(s), x)
  {
    hide Buffered;
  }

  lemma SendAccounts<M>(cfg: Config, s: State<M>, ok: bool, x: M)
    requires s.queued[x] == Accounted(s, x)
    ensures s.worker.Sending? ==> Sent(cfg, s, ok).queued[x] == Accounted(Sent(cfg, s, ok), x)
  {
    hide Buffered;
  }

  lemma DrainSendAccounts<M>(s: State<M>, ok: bool, x: M)
    requires s.queued[x] == Accounted(s, x)
    ensures s.worker.DrainSending? ==> DrainSent(s, ok).queued[x] == Accounted(DrainSent(s, ok), x)
  {
    hide Buffered;
  }

  lemma PauseAccounts<M>(cfg: Config, s: State<M>, x: M)
    requires s.queued[x] == Accounted(s, x)
    ensures s.worker.Pausing? ==> Paused(cfg, s).queued[x] == Accounted(Paused(cfg, s), x)
  {
    hide Min, Buffered;
    if s.worker.Pausing? {
      AppendCounts(s.channel, s.worker.m, x);
    }
  }

  lemma ConservedEach<M>(s: State<M>)
    ensures Conserved(s) <==> forall x: M :: s.queued[x] == Accounted(s, x)
  {
    var total := s.sent + multiset(s.channel) + InHand(s.worker) + s.lost;
    assert forall x: M :: total[x] == Accounted(s, x);
    if forall x: M :: s.queued[x] == Accounted(s, x) {
      assert forall x: M :: s.queued[x] == total[x];
    }
  }

  lemma StepConserves<M>(cfg: Config, s: State<M>, a: Action<M>)
    requires Conserved(s)
    ensures Conserved(Step(cfg, s, a))
  {
    hide Step, Accounted, Conserved;
    ConservedEach(s);
    forall x: M ensures Step(cfg, s, a).queued[x] == Accounted(Step(cfg, s, a), x) {
      StepAccounts(cfg, s, a, x);
    }
    ConservedEach(Step(cfg, s, a));
  }

  lemma StepKeepsBounded<M>(cfg: Config, s: State<M>, a: Action<M>)
    requires Bounded(cfg, s) && cfg.maxBackoff >= 0
    ensures Bounded(cfg, Step(cfg, s, a))
  {
    hide PauseAfter;
    PauseDoubles(cfg, s.failures);
    PauseStarts(cfg);
  }

  lemma PauseStarts(cfg: Config)
    ensures PauseAfter(cfg, 0) == cfg.initialBackoff
  {
  }

  lemma PauseDoubles(cfg: Config, k: nat)
    requires cfg.maxBackoff >= 0
    ensures PauseAfter(cfg, k + 1) == Min(2 * PauseAfter(cfg, k), cfg.maxBackoff)
  {
    assert Pow2(k + 1) == 2 * Pow2(k);
    assert cfg.initialBackoff * (2 * Pow2(k)) == 2 * (cfg.initialBackoff * Pow2(k));
  }

  /** Messages are lost only where the code gives up, one at a time: the one in hand. */
  lemma LossOnlyWhereGivenUp<M>(cfg: Config, s: State<M>, a: Action<M>)
    ensures Step(cfg, s, a).lost == s.lost + if GivesUp(cfg, s, a) then InHand(s.worker) else multiset{}
    ensures GivesUp(cfg, s, a) ==> |InHand(s.worker)| == 1
  {
  }

  lemma {:induction false} RunsStaySound<M>(cfg: Config, s: State<M>, actions: seq<Action<M>>)
    requires Conserved(s) && Bounded(cfg, s) && cfg.maxBackoff >= 0
    ensures Conserved(Run(cfg, s, actions)) && Bounded(cfg, Run(cfg, s, actions))
    decreases |actions|
  {
    hide Step, Conserved, Bounded;
    if actions != [] {
      StepConserves(cfg, s, actions[0]);
      StepKeepsBounded(cfg, s, actions[0]);
      RunsStaySound(cfg, Step(cfg, s, actions[0]), actions[1..]);
    }
  }

  /** How many steps of a run give a message up. */
  function GiveUps<M>(cfg: Config, s: State<M>, actions: seq<Action<M>>): nat
    decreases |actions|
  {
    if actions == [] then 0
    else (if GivesUp(cfg, s, actions[0]) then 1 else 0) + GiveUps(cfg, Step(cfg, s, actions[0]), actions[1..])
  }

  lemma {:induction false} LossesAreGiveUps<M>(cfg: Config, s: State<M>, actions: seq<Action<M>>)
    ensures |Run(cfg, s, actions).lost| == |s.lost| + GiveUps(cfg, s, actions)
    decreases |actions|
  {
    hide Step, GivesUp;
    if actions != [] {
      LossOnlyWhereGivenUp(cfg, s, actions[0]);
      LossesAreGiveUps(cfg, Step(cfg, s, actions[0]), actions[1..]);
    }
  }

  /** The pauses gone through since the last message the worker sent, by the steps of a run. */
  function Streak<M>(cfg: Config, s: State<M>, actions: seq<Action<M>>, streak: nat): nat
    decreases |actions|
  {
    if actions == [] then streak
    else
      var a := actions[0];
      Streak(cfg, Step(cfg, s, a), actions[1..],
             if a == SendDone(true) && s.worker.Sending? then 0
             else if a.PauseOver? && s.worker.Pausing? then streak + 1
             else streak)
  }

  lemma {:induction false} FailuresAreStreak<M>(cfg: Config, s: State<M>, actions: seq<Action<M>>)
    ensures Run(cfg, s, actions).failures == Streak(cfg, s, actions, s.failures)
    decreases |actions|
  {
    hide Min;
    if actions != [] {
      FailuresAreStreak(cfg, Step(cfg, s, actions[0]), actions[1..]);
    }
  }

  /**
    In every interleaving from the start: the queued messages are those sent, buffered, in hand
    and lost; as many are lost as steps gave one up; the channel keeps its bound; and after `k`
    pauses since the last success the delay is the initial one doubled `k` times, up to the cap.
   */
  lemma Conservation<M>(cfg: Config, actions: seq<Action<M>>)
    requires 0 <= cfg.initialBackoff <= cfg.maxBackoff
    ensures var s := Run(cfg, Start<M>(cfg), actions);
            && s.queued == s.sent + multiset(s.channel) + InHand(s.worker) + s.lost
            && |s.lost| == GiveUps(cfg, Start<M>(cfg), actions)
            && |s.channel| <= cfg.bufferSize
            && s.backoff
               == Min(cfg.initialBackoff * Pow2(Streak(cfg, Start<M>(cfg), actions, 0)), cfg.maxBackoff)
  {
    hide Run, GiveUps, Streak;
    FailuresAreStreak(cfg, Start<M>(cfg), actions);
    RunsStaySound(cfg, Start<M>(cfg), actions);
    LossesAreGiveUps(cfg, Start<M>(cfg), actions);
  }

  /** Nothing is put into the channel: without a buffer nothing can be, as nobody receives any more. */
  predicate NothingEnqueued<M>(cfg: Config, actions: seq<Action<M>>) {
    cfg.bufferSize == 0 || forall k | 0 <= k < |actions| :: !actions[k].Enqueue?
  }

  /** A stopped worker stays stopped; what is in the channel is never sent, and counted as neither sent nor lost. */
  lemma {:induction false} StoppedKeepsChannel<M>(cfg: Config, s: State<M>, actions: seq<Action<M>>)
    requires s.worker.Stopped?
    ensures var last := Run(cfg, s, actions);
            && last.worker.Stopped? && s.channel <= last.channel && last.sent == s.sent && last.lost == s.lost
            && (last.channel == [] <==> s.channel == [] && NothingEnqueued(cfg, actions))
    decreases |actions|
  {
    hide Step;
    assert NothingEnqueued<M>(cfg, []);
    if actions != [] {
      var next := Step(cfg, s, actions[0]);
      StoppedStep(cfg, s, actions[0]);
      StoppedKeepsChannel(cfg, next, actions[1..]);
      NothingEnqueuedSplits(cfg, actions);
    }
  }

  lemma NothingEnqueuedSplits<M>(cfg: Config, actions: seq<Action<M>>)
    requires actions != []
    ensures NothingEnqueued(cfg, actions)
       <==> (cfg.bufferSize == 0 || !actions[0].Enqueue?) && NothingEnqueued(cfg, actions[1..])
  {
    assert actions == [actions[0]] + actions[1..];
  }

  lemma StoppedStep<M>(cfg: Config, s: State<M>, a: Action<M>)
    requires s.worker.Stopped?
    ensures var next := Step(cfg, s, a);
            && next.worker.Stopped? && s.channel <= next.channel && next.sent == s.sent && next.lost == s.lost
            && (next.channel == [] <==> s.channel == [] && (cfg.bufferSize == 0 || !a.Enqueue?))
  {
  }

  /**
    Exactly when nothing is left behind in the channel, whatever comes before and after the step
    that stops the worker: it stopped at the end of draining, or in a pause with nothing waiting,
    and nothing was enqueued since.
   */
  lemma NothingLeftBehindIff<M>(cfg: Config, first: seq<Action<M>>, a: Action<M>, rest: seq<Action<M>>)
    requires var s := Run(cfg, Start<M>(cfg), first);
             !s.worker.Stopped? && Step(cfg, s, a).worker.Stopped?
    ensures var s := Run(cfg, Start<M>(cfg), first);
            Run(cfg, Step(cfg, s, a), rest).channel == []
            <==> (a.DrainOver? || s.channel == []) && NothingEnqueued(cfg, rest)
  {
    hide Run;
    StoppedKeepsChannel(cfg, Step(cfg, Run(cfg, Start<M>(cfg), first), a), rest);
  }

  /** The queue as an object: every method is one atomic step of the protocol, or the drain loop. */
  class DeadLetterQueue<M(==)> {
    const cfg: Config
    var channel: seq<M>
    var worker: Worker<M>
    var canceled: bool
    var backoff: int
    var failures: nat
    var queued: multiset<M>
    var sent: multiset<M>
    var lost: multiset<M>

    function Current(): State<M>
      reads this
    {
      State(channel, worker, canceled, backoff, failures, queued, sent, lost)
    }

    constructor (cfg: Config)
      ensures this.cfg == cfg && Current() == Start(cfg)
    {
      this.cfg := cfg;
      channel, worker, canceled := [], Receiving, false;
      backoff, failures := cfg.initialBackoff, 0;
      queued, sent, lost := multiset{}, multiset{}, multiset{};
    }

    /**
      A publisher's select. Without room the caller's context or a direct send decides; with
      both room and a canceled context either branch may be taken, as `preferCancel` says.
     */
    method PublishError(m: M, callerCanceled: bool, preferCancel: bool, sendOk: bool) returns (ok: bool)
      modifies this
      ensures var room := old(HasRoom(cfg, Current()));
              var refused := callerCanceled && (preferCancel || !room);
              && ok == (!refused && (room || sendOk))
              && Current() == Step(cfg, old(Current()),
                                   if refused then Refuse(m) else if room then Enqueue(m) else SendDirectly(m, sendOk))
    {
      if callerCanceled && (preferCancel || !HasRoom(cfg, Current())) {
        return false;
      }
      if HasRoom(cfg, Current()) {
        queued := queued + multiset{m};
        if cfg.bufferSize == 0 {
          worker := Sending(m);
        } else {
          channel := channel + [m];
        }
        return true;
      }
      return sendOk;
    }

    method ReceiveNext()
      requires worker.Receiving? && channel != []
      modifies this
      ensures Current() == Step(cfg, old(Current()), Receive)
    {
      worker := Sending(channel[0]);
      channel := channel[1..];
    }

    method AfterSend(ok: bool)
      requires worker.Sending?
      modifies this
      ensures Current() == Step(cfg, old(Current()), SendDone(ok))
    {
      if ok {
        sent := sent + multiset{worker.m};
        backoff := cfg.initialBackoff;
        failures := 0;
        worker := Receiving;
      } else {
        worker := Pausing(worker.m);
      }
    }

    method AfterPause()
      requires worker.Pausing?
      modifies this
      ensures Current() == Step(cfg, old(Current()), PauseOver)
    {
      PauseEnds(cfg, Current());
      hide Step, Min;
      backoff := Min(backoff * 2, cfg.maxBackoff);
      failures := failures + 1;
      if |channel| < cfg.bufferSize {
        channel := channel + [worker.m];
      } else {
        lost := lost + multiset{worker.m};
      }
      worker := Receiving;
    }

    method DrainOne(ok: bool)
      requires worker.Draining? && channel != []
      modifies `channel, `sent, `lost
      ensures Current() == Step(cfg, Step(cfg, old(Current()), DrainReceive), DrainSendDone(ok))
      ensures channel == old(channel)[1..] && worker.Draining?
      ensures TallyIn(Current()) == old(TallyIn(Current()))
    {
      hide TallyIn, Step;
      ghost var before := Current();
      var m := channel[0];
      channel := channel[1..];
      if ok {
        sent := sent + multiset{m};
      } else {
        lost := lost + multiset{m};
      }
      DrainsOne(cfg, before, ok);
    }

    /** Shutdown finds the worker waiting: it sends what is left in the channel, once each, and stops. */
    method Drain(sendOk: nat -> bool) returns (ghost steps: seq<Action<M>>)
      requires worker.Receiving? && canceled
      modifies this
      ensures Current() == Run(cfg, old(Current()), steps)
      ensures worker.Stopped? && channel == []
      ensures sent + lost == old(sent) + old(lost) + multiset(old(channel))
    {
      hide Step;
      ghost var s0 := Current();
      steps := [];
      worker := Draining;
      Drains(cfg, s0, Current());
      RunSnoc(cfg, s0, steps, StartDrain);
      steps := steps + [StartDrain];
      var n: nat := 0;
      while channel != []
        invariant worker.Draining?
        invariant Current() == Run(cfg, s0, steps)
        invariant TallyIn(Current()) == old(TallyIn(Current()))
        decreases |channel|
      {
        RunSnoc(cfg, s0, steps, DrainReceive);
        RunSnoc(cfg, s0, steps + [DrainReceive], DrainSendDone(sendOk(n)));
        DrainOne(sendOk(n));
        steps := steps + [DrainReceive] + [DrainSendDone(sendOk(n))];
        n := n + 1;
      }
      RunSnoc(cfg, s0, steps, DrainOver);
      Drained(cfg, Current());
      worker := Stopped;
      steps := steps + [DrainOver];
    }

    /** Shutdown finds the worker in a pause: it drops the message and leaves the channel as it is. */
    method StopInPause()
      requires worker.Pausing? && canceled
      modifies this
      ensures Current() == Step(cfg, old(Current()), CancelPause)
    {
      lost := lost + multiset{worker.m};
      worker := Stopped;
    }
  }

  /** What has been sent, lost, or is still to be sent from the channel. */
  function TallyIn<M>(s: State<M>): multiset<M> {
    s.sent + s.lost + multiset(s.channel)
  }

  lemma PauseEnds<M>(cfg: Config, s: State<M>)
    requires s.worker.Pausing?
    ensures Step(cfg, s, PauseOver) == Paused(cfg, s)
  {
  }

  lemma Drains<M>(cfg: Config, s: State<M>, next: State<M>)
    requires s.worker.Receiving? && s.canceled && next == s.(worker := Draining)
    ensures next == Step(cfg, s, StartDrain)
  {
  }

  /** What draining one message makes of the state. */
  function DrainedOne<M>(s: State<M>, ok: bool): State<M>
    requires s.channel != []
  {
    var m := multiset{s.channel[0]};
    s.(channel := s.channel[1..], sent := if ok then s.sent + m else s.sent, lost := if ok then s.lost else s.lost + m)
  }

  lemma DrainsOne<M>(cfg: Config, s: State<M>, ok: bool)
    requires s.worker.Draining? && s.channel != []
    ensures Step(cfg, Step(cfg, s, DrainReceive), DrainSendDone(ok)) == DrainedOne(s, ok)
    ensures TallyIn(DrainedOne(s, ok)) == TallyIn(s)
  {
    HeadAndTail(s.channel);
  }

  lemma Drained<M>(cfg: Config, s: State<M>)
    requires s.worker.Draining? && s.channel == []
    ensures Step(cfg, s, DrainOver) == s.(worker := Stopped)
  {
  }

  lemma {:induction false} RunSnoc<M>(cfg: Config, s: State<M>, actions: seq<Action<M>>, a: Action<M>)
    ensures Run(cfg, s, actions + [a]) == Step(cfg, Run(cfg, s, actions), a)
    decreases |actions|
  {
    hide Step;
    if actions == [] {
      assert actions + [a] == [a];
      assert Run(cfg, Step(cfg, s, a), [a][1..]) == Step(cfg, s, a);
    } else {
      assert (actions + [a])[1..] == actions[1..] + [a];
      RunSnoc(cfg, Step(cfg, s, actions[0]), actions[1..], a);
    }
  }
}
