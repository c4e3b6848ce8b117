/** One batch of renewals: a closed channel of jobs, a fixed number of workers, and the lock around each job. */
module RenewalPool {
  import opened DomainEvents
  import opened Transactions
  import opened Services
  import opened Lease

  const LOCK_TTL: int := 60_000_000_000

  /** The jobs not yet taken, what each busy worker is at, and who took what, in order. */
  datatype Pool = Pool(jobs: seq<Id>, busy: map<nat, Id>, taken: seq<(nat, Id)>)

  datatype Action = Take(worker: nat) | Finish(worker: nat)

  function Start(subs: seq<Id>): Pool {
    Pool(subs, map[], [])
  }

  function Step(workerCount: nat, p: Pool, a: Action): Pool {
    match a
    case Take(w) =>
      if w < workerCount && w !in p.busy && p.jobs != [] then
        Pool(p.jobs[1..], p.busy[w := p.jobs[0]], p.taken + [(w, p.jobs[0])])
      else p
    case Finish(w) => if w in p.busy then p.(busy := p.busy - {w}) else p
  }

  function Run(workerCount: nat, p: Pool, actions: seq<Action>): Pool
    decreases |actions|
  {
    if actions == [] then p else Run(workerCount, Step(workerCount, p, actions[0]), actions[1..])
  }

  predicate Possible(workerCount: nat, p: Pool, a: Action) {
    match a
    case Take(w) => w < workerCount && w !in p.busy && p.jobs != []
    case Finish(w) => w in p.busy
  }

  /** Every action of the run could be taken when it was. */
  predicate AllPossible(workerCount: nat, p: Pool, actions: seq<Action>)
    decreases |actions|
  {
    actions != [] ==>
      Possible(workerCount, p, actions[0]) && AllPossible(workerCount, Step(workerCount, p, actions[0]), actions[1..])
  }

  function Subs(taken: seq<(nat, Id)>): (subs: seq<Id>)
    ensures |subs| == |taken|
  {
    seq(|taken|, k requires 0 <= k < |taken| => taken[k].1)
  }

  /** Steps still to come: two for a job not taken, one for a job being done. */
  function StepsLeft(p: Pool): nat {
    2 * |p.jobs| + |p.busy|
  }

  lemma EachStepCounts(workerCount: nat, p: Pool, a: Action)
    requires Possible(workerCount, p, a)
    ensures StepsLeft(Step(workerCount, p, a)) == StepsLeft(p) - 1
  {
    match a {
      case Take(w) => assert p.busy[w := p.jobs[0]].Keys == p.busy.Keys + {w};
      case Finish(w) =>
        assert (p.busy - {w}).Keys == p.busy.Keys - {w};
        assert |p.busy| == |p.busy.Keys| && |p.busy - {w}| == |(p.busy - {w}).Keys|;
    }
  }

  lemma {:induction false} RunTakesInOrder(workerCount: nat, p: Pool, actions: seq<Action>)
    requires AllPossible(workerCount, p, actions)
    ensures var q := Run(workerCount, p, actions);
            && Subs(q.taken) + q.jobs == Subs(p.taken) + p.jobs
            && StepsLeft(q) == StepsLeft(p) - |actions|
    decreases |actions|
  {
    hide StepsLeft;
    if actions != [] {
      var next := Step(workerCount, p, actions[0]);
      EachStepCounts(workerCount, p, actions[0]);
      assert Subs(next.taken) + next.jobs == Subs(p.taken) + p.jobs;
      RunTakesInOrder(workerCount, next, actions[1..]);
    }
  }

  /**
    Under every interleaving of the workers: the subscriptions taken are the fetched ones in
    order, each exactly once; no run is longer than two steps for each; and a pool with workers
    is stuck only when every subscription has been taken and finished, which is exactly after
    that many steps.
   */
  lemma EachTakenOnceAndAllDone(workerCount: nat, subs: seq<Id>, actions: seq<Action>)
    requires workerCount > 0 && AllPossible(workerCount, Start(subs), actions)
    ensures var q := Run(workerCount, Start(subs), actions);
            && Subs(q.taken) + q.jobs == subs
            && |actions| <= 2 * |subs|
            && ((forall a :: !Possible(workerCount, q, a)) <==> |actions| == 2 * |subs|)
            && (|actions| == 2 * |subs| ==> Subs(q.taken) == subs && q.busy == map[])
  {
    hide Run, AllPossible;
    RunTakesInOrder(workerCount, Start(subs), actions);
    var q := Run(workerCount, Start(subs), actions);
    assert Subs([]) + subs == subs;
    if StepsLeft(q) == 0 {
      assert q.jobs == [] && q.busy == map[];
      assert Subs(q.taken) + [] == Subs(q.taken);
    } else if q.busy != map[] {
      var w :| w in q.busy;
      assert Possible(workerCount, q, Finish(w));
    } else {
      assert Possible(workerCount, q, Take(0));
    }
  }

  /** The lock of a renewal keeps every other one of the subscription out for a minute, unless it is released before. */
  lemma LockLastsAMinute(entries: Entries, s: Id, token: Token, now: int, later: int)
    requires !Taken(entries, s, now)
    ensures Taken(Locked(entries, s, Entry(token, now + LOCK_TTL), now, Answered), s, later)
       <==> later < now + 60_000_000_000
  {
  }

  class TimeService {
    const processor: BillingService
    const cache: LockManager

    constructor (processor: BillingService, cache: LockManager)
      ensures this.processor == processor && this.cache == cache
    {
      this.processor, this.cache := processor, cache;
    }

    /**
      One job: renew under the lock, and give the lock back. When another holder has it, or no
      answer comes, nothing is renewed. The store is asked at `lockedAt` and again at `later`.
     */
    method ProcessSingleSubscription(s: Id, paid: bool, now: int, lockedAt: int, later: int,
                                     reply: Reply, reached: bool)
      returns (renewed: bool)
      requires OnTime(processor.db.tables)
      requires cache.Valid() && cache.trail.clock <= lockedAt <= later
      modifies processor.db, cache
      ensures cache.Valid()
      ensures renewed == (reply.Answered? && !old(Taken(cache.entries, s, lockedAt)))
      ensures !renewed ==> processor.db.tables == old(processor.db.tables)
      ensures !renewed && !reply.ReplyLost? ==> cache.entries == old(cache.entries)
      ensures renewed ==>
                (exists err :: Commits(old(processor.db.tables),
                                       Transactions.RenewSubscription(old(processor.db.tables), s, paid, now),
                                       err, processor.db.tables))
      ensures forall k | k != s ::
                (k in cache.entries <==> k in old(cache.entries))
                && (k in cache.entries ==> cache.entries[k] == old(cache.entries)[k])
      ensures renewed && reached ==> !Taken(cache.entries, s, later)
    {
      hide Lease.Step;
      var token := cache.Lock(s, LOCK_TTL, lockedAt, reply);
      if token.None? {
        return false;
      }
      var err := processor.RenewSubscription(s, paid, now);
      cache.Unlock(s, token.value, later, reached);
      return true;
    }
  }
}
