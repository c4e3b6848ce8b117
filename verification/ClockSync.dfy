/** Several clock instances on one store: every change is three steps, and deliveries come in between. */
module ClockSync {
  import opened VirtualClock

  /** An instance loads the offset when it is made; only from its subscription on is it sent anything. */
  datatype Instance = Instance(offset: int, inbox: seq<int>, subscribed: bool)

  /** A change made locally that is yet to be saved or, that done, to be sent; a reset is sent regardless. */
  datatype InFlight = InFlight(offset: int, reset: bool, saveDone: bool)

  datatype State = State(stored: int, instances: map<nat, Instance>, changes: map<nat, InFlight>)

  datatype Action =
    | Load(i: nat)
    | Subscribe(i: nat)
    | Begin(i: nat, change: Change, realNow: int)
    | Save(i: nat, ok: bool)
    | Publish(i: nat, ok: bool)
    | Deliver(i: nat)

  function Start(stored: int): State {
    State(stored, map[], map[])
  }

  function Drop(changes: map<nat, InFlight>, i: nat): map<nat, InFlight> {
    map j | j in changes && j != i :: changes[j]
  }

  function Sent(inst: Instance, offset: int): Instance {
    if inst.subscribed then inst.(inbox := inst.inbox + [offset]) else inst
  }

  /** The effect of a step; a step that is not possible in a state changes nothing. */
  function Step(s: State, a: Action): State {
    match a
    case Load(i) =>
      if i in s.instances then s else s.(instances := s.instances[i := Instance(s.stored, [], false)])
    case Subscribe(i) =>
      if i !in s.instances then s else s.(instances := s.instances[i := s.instances[i].(subscribed := true)])
    case Begin(i, change, realNow) =>
      if i !in s.instances || i in s.changes then s
      else
        var offset := NewOffset(s.instances[i].offset, change, realNow);
        s.(instances := s.instances[i := s.instances[i].(offset := offset)],
           changes := s.changes[i := InFlight(offset, change.Reset?, false)])
    case Save(i, ok) =>
      if i !in s.changes || s.changes[i].saveDone then s
      else
        s.(stored := if ok then s.changes[i].offset else s.stored,
           changes := if ok || s.changes[i].reset then s.changes[i := s.changes[i].(saveDone := true)]
                      else Drop(s.changes, i))
    case Publish(i, ok) =>
      if i !in s.changes || !s.changes[i].saveDone then s
      else
        s.(instances := if ok then map j | j in s.instances :: Sent(s.instances[j], s.changes[i].offset)
                        else s.instances,
           changes := Drop(s.changes, i))
    case Deliver(i) =>
      if i !in s.instances || s.instances[i].inbox == [] then s
      else
        var inst := s.instances[i];
        s.(instances := s.instances[i := inst.(offset := inst.inbox[0], inbox := inst.inbox[1..])])
  }

  function Run(s: State, actions: seq<Action>): State
    decreases |actions|
  {
    if actions == [] then s else Run(Step(s, actions[0]), actions[1..])
  }

  /** Saves and publishes succeed. */
  predicate Succeeds(a: Action) {
    (a.Save? ==> a.ok) && (a.Publish? ==> a.ok)
  }

  /** No change begins while another is under way. */
  predicate Alone(s: State, a: Action) {
    a.Begin? ==> s.changes == map[]
  }

  /** An instance that subscribes has the stored offset, or a change is under way that it will be sent. */
  predicate Timely(s: State, a: Action) {
    a.Subscribe? && a.i in s.instances && !s.instances[a.i].subscribed ==>
      s.instances[a.i].offset == s.stored || s.changes != map[]
  }

  predicate Smooth(s: State, actions: seq<Action>)
    decreases |actions|
  {
    actions != [] ==>
      && Succeeds(actions[0]) && Alone(s, actions[0]) && Timely(s, actions[0])
      && Smooth(Step(s, actions[0]), actions[1..])
  }

  /** The offset an instance will have when it has received everything sent to it so far. */
  function Final(inst: Instance): int {
    if inst.inbox == [] then inst.offset else inst.inbox[|inst.inbox| - 1]
  }

  /** One change at most is under way, and once saved it is the stored offset; only subscribers are sent anything. */
  predicate OneChange(s: State) {
    && (forall i, j | i in s.changes && j in s.changes :: i == j)
    && (forall i | i in s.changes :: i in s.instances && (s.changes[i].saveDone ==> s.stored == s.changes[i].offset))
    && (forall i | i in s.instances && !s.instances[i].subscribed :: s.instances[i].inbox == [])
  }

  /** With no change under way every subscribed instance is bound for the stored offset. */
  predicate Converging(s: State) {
    && OneChange(s)
    && (s.changes == map[] ==>
          forall i | i in s.instances && s.instances[i].subscribed :: Final(s.instances[i]) == s.stored)
  }

  lemma StepKeepsOneChange(s: State, a: Action)
    requires OneChange(s) && Succeeds(a) && Alone(s, a)
    ensures OneChange(Step(s, a))
  {
  }

  /** A change that is sent leaves every subscribed instance bound for it. */
  lemma SendingConverges(s: State, i: nat)
    requires OneChange(s) && i in s.changes && s.changes[i].saveDone
    ensures var next := Step(s, Publish(i, true));
            && next.changes == map[] && next.stored == s.stored && next.instances.Keys == s.instances.Keys
            && forall j | j in next.instances && next.instances[j].subscribed :: Final(next.instances[j]) == s.stored
  {
    assert forall j | j in s.changes :: j == i;
  }

  /** Exactly when a step of changes that go one at a time and succeed keeps the instances converging. */
  lemma StepConvergesIff(s: State, a: Action)
    requires Converging(s) && Succeeds(a) && Alone(s, a)
    ensures Converging(Step(s, a)) <==> Timely(s, a)
  {
    StepKeepsOneChange(s, a);
    if a.Publish? && a.i in s.changes && s.changes[a.i].saveDone {
      SendingConverges(s, a.i);
    } else if a.Save? && a.i in s.changes {
      assert a.i in Step(s, a).changes;
    } else if !Timely(s, a) {
      var inst := Step(s, a).instances[a.i];
      assert inst.subscribed && Final(inst) != s.stored;
    }
  }

  lemma {:induction false} SmoothRunsConverge(s: State, actions: seq<Action>)
    requires Converging(s) && Smooth(s, actions)
    ensures Converging(Run(s, actions))
    decreases |actions|
  {
    hide Step, Converging, Succeeds, Alone, Timely;
    if actions != [] {
      StepConvergesIff(s, actions[0]);
      SmoothRunsConverge(Step(s, actions[0]), actions[1..]);
    }
  }

  /** Everything published has been received, and no change is under way. */
  predicate Drained(s: State) {
    s.changes == map[] && forall i | i in s.instances :: s.instances[i].inbox == []
  }

  /**
    With changes one at a time that succeed, deliveries in order at any time, instances made at any
    time and subscribed in time: between changes every subscribed instance is bound for the stored
    offset, and once everything is delivered all of them have it.
   */
  lemma Convergence(stored: int, actions: seq<Action>)
    requires Smooth(Start(stored), actions)
    ensures var s := Run(Start(stored), actions);
            && (s.changes == map[] ==>
                  forall i | i in s.instances && s.instances[i].subscribed :: Final(s.instances[i]) == s.stored)
            && (Drained(s) ==>
                  forall i | i in s.instances && s.instances[i].subscribed :: s.instances[i].offset == s.stored)
  {
    hide Run, Smooth;
    SmoothRunsConverge(Start(stored), actions);
    var s := Run(Start(stored), actions);
    if Drained(s) {
      forall i | i in s.instances && s.instances[i].subscribed ensures s.instances[i].offset == s.stored {
        assert Final(s.instances[i]) == s.stored;
      }
    }
  }

  /** Messages are received one at a time, in the order they were sent. */
  lemma {:induction false} DeliveredInOrder(s: State, i: nat, n: nat)
    requires i in s.instances && n <= |s.instances[i].inbox|
    ensures var inst := s.instances[i];
            var last := Run(s, Deliveries(i, n));
            && i in last.instances
            && last.instances[i].offset == (if n == 0 then inst.offset else inst.inbox[n - 1])
            && last.instances[i].inbox == inst.inbox[n..]
            && last.stored == s.stored
    decreases n
  {
    if n > 0 {
      var a := Deliver(i);
      var steps := Deliveries(i, n);
      assert steps[0] == a && steps[1..] == Deliveries(i, n - 1);
      DeliveredInOrder(Step(s, a), i, n - 1);
    }
  }

  /** Receiving everything takes one delivery for each message, and brings an instance to its final offset. */
  lemma {:induction false} DeliveriesDrain(s: State, i: nat)
    requires i in s.instances
    ensures var inst := s.instances[i];
            var last := Run(s, Deliveries(i, |inst.inbox|));
            i in last.instances && last.instances[i] == inst.(offset := Final(inst), inbox := [])
    decreases |s.instances[i].inbox|
  {
    if s.instances[i].inbox != [] {
      var next := Step(s, Deliver(i));
      assert Final(next.instances[i]) == Final(s.instances[i]);
      DeliveriesDrain(next, i);
    }
  }

  function Deliveries(i: nat, n: nat): seq<Action>
    decreases n
  {
    if n == 0 then [] else [Deliver(i)] + Deliveries(i, n - 1)
  }

  lemma RunOfThree(s: State, a: Action, b: Action, c: Action)
    ensures Run(s, [a, b, c]) == Step(Step(Step(s, a), b), c)
  {
    hide Step;
    assert [a, b, c][1..] == [b, c] && [b, c][1..] == [c] && [c][1..] == [];
    assert Run(s, [a, b, c]) == Run(Step(s, a), [b, c]);
    assert Run(Step(s, a), [b, c]) == Run(Step(Step(s, a), b), [c]);
  }

  lemma {:induction false} RunAppend(s: State, a: seq<Action>, b: seq<Action>)
    ensures Run(s, a + b) == Run(Run(s, a), b)
    decreases |a|
  {
    hide Step;
    if a == [] {
      assert a + b == b;
    } else {
      assert (a + b)[1..] == a[1..] + b;
      RunAppend(Step(s, a[0]), a[1..], b);
    }
  }

  /** The inboxes of the subscribed instances, as the store keeps them. */
  function Inboxes(instances: map<nat, Instance>): map<nat, seq<int>> {
    map i | i in instances && instances[i].subscribed :: instances[i].inbox
  }

  /** A change's three steps in a row leave what the clock's own method does: offset, stored offset, messages sent. */
  lemma ChangeInThreeSteps(s: State, i: nat, change: Change, realNow: int, saveOk: bool, publishOk: bool)
    requires i in s.instances && i !in s.changes
    ensures var last := Run(s, [Begin(i, change, realNow), Save(i, saveOk), Publish(i, publishOk)]);
            var offset := NewOffset(s.instances[i].offset, change, realNow);
            && i in last.instances && last.instances[i].offset == offset
            && last.stored == (if saveOk then offset else s.stored)
            && Inboxes(last.instances) == (if publishOk && (saveOk || change.Reset?)
                                           then Broadcast(Inboxes(s.instances), offset) else Inboxes(s.instances))
            && last.changes == s.changes
  {
    hide NewOffset, Run, Step, Inboxes, Broadcast;
    RunOfThree(s, Begin(i, change, realNow), Save(i, saveOk), Publish(i, publishOk));
    BegunAndSaved(s, i, change, realNow, saveOk);
    PublishBroadcasts(Step(Step(s, Begin(i, change, realNow)), Save(i, saveOk)), i, publishOk);
  }

  /** The first two steps: the offset is changed locally and stored, and nothing is sent. */
  lemma BegunAndSaved(s: State, i: nat, change: Change, realNow: int, saveOk: bool)
    requires i in s.instances && i !in s.changes
    ensures var saved := Step(Step(s, Begin(i, change, realNow)), Save(i, saveOk));
            var offset := NewOffset(s.instances[i].offset, change, realNow);
            && i in saved.instances && saved.instances[i].offset == offset
            && saved.stored == (if saveOk then offset else s.stored)
            && Inboxes(saved.instances) == Inboxes(s.instances)
            && Drop(saved.changes, i) == s.changes
            && (i in saved.changes <==> saveOk || change.Reset?)
            && (i in saved.changes ==> saved.changes[i].saveDone && saved.changes[i].offset == offset)
  {
    hide NewOffset;
  }

  lemma PublishBroadcasts(s: State, i: nat, ok: bool)
    requires i in s.instances && (i in s.changes ==> s.changes[i].saveDone)
    ensures var last := Step(s, Publish(i, ok));
            && i in last.instances && last.instances[i].offset == s.instances[i].offset
            && last.stored == s.stored && last.changes == Drop(s.changes, i)
            && Inboxes(last.instances) == (if ok && i in s.changes
                                           then Broadcast(Inboxes(s.instances), s.changes[i].offset)
                                           else Inboxes(s.instances))
  {
  }

  /** Some change is sent in the run. */
  predicate Sends(s: State, actions: seq<Action>)
    decreases |actions|
  {
    actions != [] && (IsSending(s, actions[0]) || Sends(Step(s, actions[0]), actions[1..]))
  }

  predicate IsSending(s: State, a: Action) {
    a.Publish? && a.ok && a.i in s.changes && s.changes[a.i].saveDone
  }

  /** Changes go one at a time and succeed, and none is made by instance `j`, which neither loads nor subscribes. */
  predicate Around(s: State, actions: seq<Action>, j: nat)
    decreases |actions|
  {
    actions != [] ==>
      && Succeeds(actions[0]) && Alone(s, actions[0])
      && !((actions[0].Begin? || actions[0].Load? || actions[0].Subscribe?) && actions[0].i == j)
      && Around(Step(s, actions[0]), actions[1..], j)
  }

  /** What instance `j` has heard: nothing since it loaded, or all there was to hear between changes. */
  predicate Hears(s: State, j: nat, loaded: int, heard: bool) {
    && OneChange(s) && j in s.instances && j !in s.changes
    && (heard ==> s.instances[j].subscribed && (s.changes == map[] ==> Final(s.instances[j]) == s.stored))
    && (!heard ==> s.instances[j].offset == loaded && s.instances[j].inbox == [])
  }

  lemma StepHears(s: State, a: Action, j: nat, loaded: int, heard: bool)
    requires Hears(s, j, loaded, heard) && Succeeds(a) && Alone(s, a)
    requires !((a.Begin? || a.Load? || a.Subscribe?) && a.i == j)
    ensures Hears(Step(s, a), j, loaded, heard || (s.instances[j].subscribed && IsSending(s, a)))
    ensures j in Step(s, a).instances && Step(s, a).instances[j].subscribed == s.instances[j].subscribed
  {
    StepKeepsOneChange(s, a);
    if IsSending(s, a) {
      SendingConverges(s, a.i);
    } else if a.Save? && a.i in s.changes {
      assert a.i in Step(s, a).changes;
    }
  }

  lemma {:induction false} RunHears(s: State, actions: seq<Action>, j: nat, loaded: int, heard: bool)
    requires Hears(s, j, loaded, heard) && Around(s, actions, j)
    ensures Hears(Run(s, actions), j, loaded, heard || (s.instances[j].subscribed && Sends(s, actions)))
    ensures Run(s, actions).instances[j].subscribed == s.instances[j].subscribed
    decreases |actions|
  {
    hide Step, Succeeds, Alone, IsSending, OneChange;
    if actions != [] {
      StepHears(s, actions[0], j, loaded, heard);
      RunHears(Step(s, actions[0]), actions[1..], j, loaded,
               heard || (s.instances[j].subscribed && IsSending(s, actions[0])));
    }
  }

  /**
    Exactly when an instance that is made at one time and subscribed at another comes to agree,
    whatever changes others make before, in between and after: a change is sent after it has
    subscribed, or the stored offset is the one it loaded.
   */
  lemma JoinConvergesIff(s: State, j: nat, between: seq<Action>, after: seq<Action>)
    requires OneChange(s) && j !in s.instances
    requires var loaded := Step(s, Load(j));
             var subscribed := Step(Run(loaded, between), Subscribe(j));
             && Around(loaded, between, j) && Around(subscribed, after, j)
             && Run(subscribed, after).changes == map[]
    ensures var subscribed := Step(Run(Step(s, Load(j)), between), Subscribe(j));
            var last := Run(subscribed, after);
            j in last.instances
            && (Final(last.instances[j]) == last.stored <==> Sends(subscribed, after) || last.stored == s.stored)
  {
    hide Run, Around, Sends;
    var loaded := Step(s, Load(j));
    assert Hears(loaded, j, s.stored, false);
    RunHears(loaded, between, j, s.stored, false);
    var mid := Run(loaded, between);
    var subscribed := Step(mid, Subscribe(j));
    assert Hears(subscribed, j, s.stored, false);
    RunHears(subscribed, after, j, s.stored, false);
  }

  /** Every instance has the stored offset, with nothing sent that it has still to receive. */
  predicate Agreeing(s: State) {
    Drained(s) && forall j | j in s.instances :: s.instances[j].offset == s.stored
  }

  /** Every instance has the stored offset, or will once it has received what was sent. */
  predicate BoundForStored(s: State) {
    forall j | j in s.instances :: Final(s.instances[j]) == s.stored
  }

  /** No other instance, or all the others are subscribed and the change is sent. */
  predicate Reaches(s: State, i: nat, publishOk: bool) {
    forall j | j in s.instances && j != i :: publishOk && s.instances[j].subscribed
  }

  /**
    Exactly when a change made alone keeps all instances together, resets included: it changes
    nothing, or it is saved, and sent to all the others if there are any.
   */
  lemma LoneChangeIff(s: State, i: nat, change: Change, realNow: int, saveOk: bool, publishOk: bool)
    requires i in s.instances && Agreeing(s)
    ensures BoundForStored(Run(s, [Begin(i, change, realNow), Save(i, saveOk), Publish(i, publishOk)]))
       <==> NewOffset(s.stored, change, realNow) == s.stored || (saveOk && Reaches(s, i, publishOk))
  {
    hide Run, NewOffset;
    RunOfThree(s, Begin(i, change, realNow), Save(i, saveOk), Publish(i, publishOk));
    var last := Run(s, [Begin(i, change, realNow), Save(i, saveOk), Publish(i, publishOk)]);
    var offset := NewOffset(s.stored, change, realNow);
    forall j | j in s.instances
      ensures j in last.instances && Final(last.instances[j]) == LoneFinal(s, i, change, offset, saveOk, publishOk, j)
    {
      LoneChangeLeaves(s, i, change, realNow, saveOk, publishOk, j);
    }
    LoneChangeStores(s, i, change, realNow, saveOk, publishOk);
    assert Final(last.instances[i]) == offset;
    if saveOk && offset != s.stored && !Reaches(s, i, publishOk) {
      var j :| j in s.instances && j != i && !(publishOk && s.instances[j].subscribed);
      assert Final(last.instances[j]) == s.stored;
    }
  }

  /** What an instance is bound for after a change made alone. */
  function LoneFinal(s: State, i: nat, change: Change, offset: int, saveOk: bool, publishOk: bool, j: nat): int
    requires j in s.instances
  {
    if j == i || (publishOk && (saveOk || change.Reset?) && s.instances[j].subscribed) then offset else s.stored
  }

  lemma LoneChangeLeaves(s: State, i: nat, change: Change, realNow: int, saveOk: bool, publishOk: bool, j: nat)
    requires i in s.instances && j in s.instances && Agreeing(s)
    ensures var last := Step(Step(Step(s, Begin(i, change, realNow)), Save(i, saveOk)), Publish(i, publishOk));
            var offset := NewOffset(s.stored, change, realNow);
            j in last.instances && Final(last.instances[j]) == LoneFinal(s, i, change, offset, saveOk, publishOk, j)
  {
    hide NewOffset;
  }

  lemma LoneChangeStores(s: State, i: nat, change: Change, realNow: int, saveOk: bool, publishOk: bool)
    requires i in s.instances && Agreeing(s)
    ensures var last := Step(Step(Step(s, Begin(i, change, realNow)), Save(i, saveOk)), Publish(i, publishOk));
            last.stored == (if saveOk then NewOffset(s.stored, change, realNow) else s.stored)
            && last.instances.Keys == s.instances.Keys
  {
    hide NewOffset;
  }

  /** The clock a change leaves its instance with: moved, at the time asked for, or back at real time. */
  lemma ChangeSetsClock(s: State, i: nat, d: int, time: int, realNow: int)
    requires i in s.instances && i !in s.changes
    ensures realNow + Step(s, Begin(i, Advance(d), realNow)).instances[i].offset == realNow + s.instances[i].offset + d
    ensures realNow + Step(s, Begin(i, SetTime(time), realNow)).instances[i].offset == time
    ensures realNow + Step(s, Begin(i, Reset, realNow)).instances[i].offset == realNow
  {
  }

  /** The offset sent last in a run, `sent` being the one before it. */
  function LastSent(s: State, actions: seq<Action>, sent: int): int
    decreases |actions|
  {
    if actions == [] then sent
    else LastSent(Step(s, actions[0]), actions[1..], SentBy(s, actions[0], sent))
  }

  function SentBy(s: State, a: Action, sent: int): int {
    if IsSending(s, a) then s.changes[a.i].offset else sent
  }

  predicate SucceedsWithoutJoins(actions: seq<Action>) {
    forall k | 0 <= k < |actions| :: Succeeds(actions[k]) && !actions[k].Load? && !actions[k].Subscribe?
  }

  predicate AllSubscribed(s: State) {
    forall j | j in s.instances :: s.instances[j].subscribed
  }

  /** An instance with no change of its own under way is bound for the offset sent last. */
  predicate BoundForSent(s: State, sent: int) {
    && AllSubscribed(s)
    && (forall j | j in s.instances && j !in s.changes :: Final(s.instances[j]) == sent)
    && (forall j | j in s.changes :: j in s.instances)
  }

  lemma StepKeepsBoundForSent(s: State, a: Action, sent: int)
    requires BoundForSent(s, sent) && Succeeds(a) && !a.Load? && !a.Subscribe?
    ensures BoundForSent(Step(s, a), SentBy(s, a, sent)) && Step(s, a).instances.Keys == s.instances.Keys
  {
  }

  lemma {:induction false} RunsBoundForSent(s: State, actions: seq<Action>, sent: int)
    requires BoundForSent(s, sent) && SucceedsWithoutJoins(actions)
    ensures BoundForSent(Run(s, actions), LastSent(s, actions, sent))
    ensures Run(s, actions).instances.Keys == s.instances.Keys
    decreases |actions|
  {
    hide Step, SentBy, BoundForSent, Succeeds;
    if actions != [] {
      StepKeepsBoundForSent(s, actions[0], sent);
      RunsBoundForSent(Step(s, actions[0]), actions[1..], SentBy(s, actions[0], sent));
    }
  }

  /**
    Exactly when changes that overlap in any way, all of them saved and sent, leave the instances
    together: the offset sent last is the one saved last.
   */
  lemma OverlapConvergesIff(s: State, actions: seq<Action>)
    requires Agreeing(s) && AllSubscribed(s) && s.instances != map[]
    requires SucceedsWithoutJoins(actions) && Run(s, actions).changes == map[]
    ensures BoundForStored(Run(s, actions)) <==> LastSent(s, actions, s.stored) == Run(s, actions).stored
  {
    hide Run, LastSent, SucceedsWithoutJoins;
    RunsBoundForSent(s, actions, s.stored);
    var i :| i in s.instances;
    var last := Run(s, actions);
    assert i in last.instances && Final(last.instances[i]) == LastSent(s, actions, s.stored);
  }

  /** Two instances that agree. */
  function Pair(stored: int): State {
    State(stored, map[0 := Instance(stored, [], true), 1 := Instance(stored, [], true)], map[])
  }

  /** Changes that overlap can leave everyone off the stored offset: saved in one order, sent in the other. */
  lemma OverlappingDiverges(stored: int, d0: int, d1: int)
    requires d0 != d1
    ensures var s := Run(Pair(stored), [Begin(0, Advance(d0), 0), Begin(1, Advance(d1), 0), Save(0, true)]
                                       + [Save(1, true), Publish(1, true), Publish(0, true)]);
            && s.changes == map[] && s.stored == stored + d1
            && 0 in s.instances && 1 in s.instances
            && Final(s.instances[0]) == Final(s.instances[1]) == stored + d0
  {
    hide Run, Step, Final;
    var first := [Begin(0, Advance(d0), 0), Begin(1, Advance(d1), 0), Save(0, true)];
    var second := [Save(1, true), Publish(1, true), Publish(0, true)];
    var mid := Run(Pair(stored), first);
    RunAppend(Pair(stored), first, second);
    RunOfThree(Pair(stored), first[0], first[1], first[2]);
    FirstSaved(stored, d0, d1);
    RunOfThree(mid, second[0], second[1], second[2]);
    BothSent(mid, stored + d0, stored + d1);
  }

  lemma FirstSaved(stored: int, d0: int, d1: int)
    ensures var s := Step(Step(Step(Pair(stored), Begin(0, Advance(d0), 0)), Begin(1, Advance(d1), 0)), Save(0, true));
            && s.changes == map[0 := InFlight(stored + d0, false, true), 1 := InFlight(stored + d1, false, false)]
            && s.instances.Keys == {0, 1} && AllSubscribed(s)
  {
  }

  lemma BothSent(s: State, o0: int, o1: int)
    requires s.changes == map[0 := InFlight(o0, false, true), 1 := InFlight(o1, false, false)]
    requires s.instances.Keys == {0, 1} && AllSubscribed(s)
    ensures var last := Step(Step(Step(s, Save(1, true)), Publish(1, true)), Publish(0, true));
            && last.changes == map[] && last.stored == o1
            && 0 in last.instances && 1 in last.instances
            && Final(last.instances[0]) == Final(last.instances[1]) == o0
  {
    var saved := Step(s, Save(1, true));
    var one := Step(saved, Publish(1, true));
    assert one.changes.Keys == {0} && one.changes[0] == InFlight(o0, false, true);
    assert one.instances.Keys == {0, 1} && AllSubscribed(one);
  }

  /** A change whose save fails stays with its instance alone. */
  lemma FailedSaveDiverges(stored: int, d: int)
    requires d != 0
    ensures var s := Run(Start(stored), [Load(0), Begin(0, Advance(d), 0), Save(0, false)]);
            Drained(s) && 0 in s.instances && s.instances[0].offset != s.stored
  {
    RunOfThree(Start(stored), Load(0), Begin(0, Advance(d), 0), Save(0, false));
  }
}
