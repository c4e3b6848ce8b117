/** The leased lock: set if absent, with an expiry, and released only by the token that took it. */
module Lease {
  import opened Wrappers
  import opened DomainEvents

  type Token = nat

  datatype Entry = Entry(token: Token, expiresAt: int)

  type Entries = map<Id, Entry>

  /** A request can get lost on its way to the store, or its answer on the way back: the client sees an error. */
  datatype Reply = Answered | NotReached | ReplyLost

  /** The store has the key, and has not let it expire. */
  predicate Taken(entries: Entries, key: Id, now: int) {
    key in entries && now < entries[key].expiresAt
  }

  function Without(entries: Entries, key: Id): Entries {
    map k | k in entries && k != key :: entries[k]
  }

  /** What a lock request leaves: the key is set if the request arrives and nothing unexpired is there. */
  function Locked(entries: Entries, key: Id, entry: Entry, now: int, reply: Reply): Entries {
    if reply.NotReached? || Taken(entries, key, now) then entries else entries[key := entry]
  }

  /** What the release script leaves: the key goes only if it is there and still has the token. */
  function Released(entries: Entries, key: Id, token: Token, now: int): Entries {
    if Taken(entries, key, now) && entries[key].token == token then Without(entries, key) else entries
  }

  /** A lock that was granted, as the client that got it sees it. */
  datatype Grant = Grant(key: Id, expiresAt: int, released: bool)

  datatype State = State(entries: Entries, grants: map<Token, Grant>, nextToken: Token, clock: int)

  /** Any number of clients lock, release, or fail to; time passes. */
  datatype Action = Acquire(key: Id, ttl: int, reply: Reply) | Release(token: Token, reached: bool) | Tick(d: nat)

  function Start(clock: int): State {
    State(map[], map[], 0, clock)
  }

  function Step(s: State, a: Action): State {
    match a
    case Acquire(key, ttl, reply) =>
      s.(entries := Locked(s.entries, key, Entry(s.nextToken, s.clock + ttl), s.clock, reply),
         grants := if reply.Answered? && !Taken(s.entries, key, s.clock)
                   then s.grants[s.nextToken := Grant(key, s.clock + ttl, false)] else s.grants,
         nextToken := s.nextToken + 1)
    case Release(token, reached) =>
      if token !in s.grants then s
      else s.(entries := if reached then Released(s.entries, s.grants[token].key, token, s.clock) else s.entries,
              grants := s.grants[token := s.grants[token].(released := true)])
    case Tick(d) => s.(clock := s.clock + d)
  }

  function Run(s: State, actions: seq<Action>): State
    decreases |actions|
  {
    if actions == [] then s else Run(Step(s, actions[0]), actions[1..])
  }

  class LockManager {
    var entries: Entries
    /** Every lock takes a token never used before. */
    var nextToken: Token
    /** The protocol state that the store is part of. */
    ghost var trail: State

    ghost predicate Valid()
      reads this
    {
      trail.entries == entries && trail.nextToken == nextToken
    }

    constructor (clock: int)
      ensures Valid() && trail == Start(clock)
    {
      entries, nextToken := map[], 0;
      trail := Start(clock);
    }

    /** No token is an error: another holder has the key, or no answer came. */
    method Lock(key: Id, ttl: int, now: int, reply: Reply) returns (token: Option<Token>)
      requires Valid() && trail.clock <= now
      modifies this
      ensures Valid() && trail.clock == now
      ensures trail == Step(Step(old(trail), Tick(now - old(trail).clock)), Acquire(key, ttl, reply))
      ensures token == if reply.Answered? && !old(Taken(entries, key, now)) then Some(old(nextToken)) else None
      ensures token.Some? ==> token.value in trail.grants && trail.grants[token.value] == Grant(key, now + ttl, false)
      ensures entries == Locked(old(entries), key, Entry(old(nextToken), now + ttl), now, reply)
    {
      var lockValue := nextToken;
      nextToken := nextToken + 1;
      trail := Step(Step(trail, Tick(now - trail.clock)), Acquire(key, ttl, reply));
      if Taken(entries, key, now) || reply.NotReached? {
        return None;
      }
      entries := entries[key := Entry(lockValue, now + ttl)];
      return if reply.Answered? then Some(lockValue) else None;
    }

    /** An error of the release is ignored. */
    method Unlock(key: Id, token: Token, now: int, reached: bool)
      requires Valid() && trail.clock <= now && token in trail.grants && trail.grants[token].key == key
      modifies `entries, `trail
      ensures Valid()
      ensures trail == Step(Step(old(trail), Tick(now - old(trail).clock)), Release(token, reached))
      ensures entries == if reached then Released(old(entries), key, token, now) else old(entries)
    {
      trail := Step(Step(trail, Tick(now - trail.clock)), Release(token, reached));
      if reached && Taken(entries, key, now) && entries[key].token == token {
        entries := Without(entries, key);
      }
    }
  }

  /** The lease of a grant is in force: not released, not expired. */
  predicate Holds(s: State, token: Token, key: Id) {
    token in s.grants && s.grants[token].key == key && !s.grants[token].released && s.clock < s.grants[token].expiresAt
  }

  /** The key is taken, and nobody knows: its lock was never answered, or its release never arrived. */
  predicate Orphaned(s: State, key: Id) {
    Taken(s.entries, key, s.clock) && !Holds(s, s.entries[key].token, key)
  }

  /** Every lease in force has its entry in the store, and an entry that was granted says what its grant says. */
  ghost predicate Faithful(s: State) {
    && (forall t | t in s.grants :: t < s.nextToken)
    && (forall k | k in s.entries :: s.entries[k].token < s.nextToken)
    && (forall t: Token, k: Id | Holds(s, t, k) :: Taken(s.entries, k, s.clock) && s.entries[k].token == t)
    && (forall k | k in s.entries && s.entries[k].token in s.grants ::
          var g := s.grants[s.entries[k].token]; g.key == k && g.expiresAt == s.entries[k].expiresAt)
  }

  lemma StepKeepsFaithful(s: State, a: Action)
    requires Faithful(s)
    ensures Faithful(Step(s, a))
  {
    var next := Step(s, a);
    forall t: Token, k: Id | Holds(next, t, k)
      ensures Taken(next.entries, k, next.clock) && next.entries[k].token == t
    {
      if t in s.grants {
        assert Holds(s, t, k);
      }
    }
  }

  lemma {:induction false} RunsStayFaithful(s: State, actions: seq<Action>)
    requires Faithful(s)
    ensures Faithful(Run(s, actions))
    decreases |actions|
  {
    hide Step, Faithful;
    if actions != [] {
      StepKeepsFaithful(s, actions[0]);
      RunsStayFaithful(Step(s, actions[0]), actions[1..]);
    }
  }

  /**
    In every interleaving of any number of clients, whatever requests and answers get lost: a key
    has at most one lease in force; a lock that is answered is granted exactly when the key has
    none and is not orphaned; and a release leaves every lease in force but its own.
   */
  lemma MutualExclusion(clock: int, actions: seq<Action>, key: Id, ttl: int, token: Token, reached: bool)
    ensures var s := Run(Start(clock), actions);
            && (forall t, u | Holds(s, t, key) && Holds(s, u, key) :: t == u)
            && (s.nextToken in Step(s, Acquire(key, ttl, Answered)).grants
                <==> !Orphaned(s, key) && forall t: Token :: !Holds(s, t, key))
            && (forall t: Token, k: Id | Holds(s, t, k) && t != token :: Holds(Step(s, Release(token, reached)), t, k))
  {
    hide Run;
    RunsStayFaithful(Start(clock), actions);
    var s := Run(Start(clock), actions);
    if Taken(s.entries, key, s.clock) && !Orphaned(s, key) {
      assert Holds(s, s.entries[key].token, key);
    }
  }

  /** The step loses neither a lock's answer nor a release. */
  predicate GetsThrough(a: Action) {
    (a.Acquire? ==> !a.reply.ReplyLost?) && (a.Release? ==> a.reached)
  }

  ghost predicate NoOrphans(s: State) {
    Faithful(s) && forall k: Id :: !Orphaned(s, k)
  }

  /** Exactly when a step orphans a key: the lock of a free key is not answered, or the release of a lease gets lost. */
  lemma OrphansIff(s: State, a: Action)
    requires NoOrphans(s) && (a.Acquire? ==> a.ttl > 0)
    ensures NoOrphans(Step(s, a))
       <==> !(a.Acquire? && a.reply.ReplyLost? && !Taken(s.entries, a.key, s.clock))
            && !(a.Release? && !a.reached && a.token in s.grants && Holds(s, a.token, s.grants[a.token].key))
  {
    StepKeepsFaithful(s, a);
    var next := Step(s, a);
    if a.Acquire? && a.reply.ReplyLost? && !Taken(s.entries, a.key, s.clock) {
      assert Orphaned(next, a.key);
    } else if a.Release? && !a.reached && a.token in s.grants && Holds(s, a.token, s.grants[a.token].key) {
      assert Orphaned(next, s.grants[a.token].key);
    } else {
      forall k: Id ensures !Orphaned(next, k) {
        assert !Orphaned(s, k);
        if a.Release? && a.token in s.grants && Taken(next.entries, k, next.clock) {
          assert Holds(s, s.entries[k].token, k);
        }
      }
    }
  }

  lemma {:induction false} NothingOrphaned(s: State, actions: seq<Action>)
    requires NoOrphans(s) && forall k | 0 <= k < |actions| :: GetsThrough(actions[k])
    ensures NoOrphans(Run(s, actions))
    decreases |actions|
  {
    hide Step, NoOrphans, GetsThrough;
    if actions != [] {
      OrphansNothing(s, actions[0]);
      NothingOrphaned(Step(s, actions[0]), actions[1..]);
    }
  }

  lemma OrphansNothing(s: State, a: Action)
    requires NoOrphans(s) && GetsThrough(a)
    ensures NoOrphans(Step(s, a))
  {
    StepKeepsFaithful(s, a);
    var next := Step(s, a);
    forall k: Id ensures !Orphaned(next, k) {
      assert !Orphaned(s, k);
    }
  }

  /** When every answer and every release gets through, a lock is granted exactly when the key has no lease in force. */
  lemma GrantedIffFree(clock: int, actions: seq<Action>, key: Id, ttl: int)
    requires forall k | 0 <= k < |actions| :: GetsThrough(actions[k])
    ensures var s := Run(Start(clock), actions);
            s.nextToken in Step(s, Acquire(key, ttl, Answered)).grants <==> forall t: Token :: !Holds(s, t, key)
  {
    hide Run, GetsThrough;
    NothingOrphaned(Start(clock), actions);
    MutualExclusion(clock, actions, key, ttl, 0, true);
    assert !Orphaned(Run(Start(clock), actions), key);
  }
}
