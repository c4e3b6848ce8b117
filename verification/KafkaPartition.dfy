/**
  Several workers on one reader: it hands out the messages of a partition in offset order, the
  workers finish in any order, and the offset committed for the group covers all earlier ones.
 */
module KafkaPartition {
  import opened KafkaProcessor

  /** `committed` is one past the highest offset committed; `busy` is what each worker is at. */
  datatype State = State(next: nat, busy: map<nat, nat>, ended: map<nat, Ending>, committed: nat)

  /** A worker fetches the next message, or its processing ends; a commit that fails is only logged. */
  datatype Action = Take(worker: nat) | End(worker: nat, ending: Ending, commitOk: bool)

  const START := State(0, map[], map[], 0)

  function Max(a: nat, b: nat): nat {
    if a >= b then a else b
  }

  /** The effect of a step; a step that is not possible in a state changes nothing. */
  function Step(s: State, a: Action): State {
    match a
    case Take(w) =>
      if w in s.busy then s else s.(next := s.next + 1, busy := s.busy[w := s.next])
    case End(w, ending, commitOk) =>
      if w !in s.busy then s
      else
        var offset := s.busy[w];
        s.(busy := map v | v in s.busy && v != w :: s.busy[v],
           ended := s.ended[offset := ending],
           committed := if Settled(ending) && commitOk then Max(s.committed, offset + 1) else s.committed)
  }

  function Run(s: State, actions: seq<Action>): State
    decreases |actions|
  {
    if actions == [] then s else Run(Step(s, actions[0]), actions[1..])
  }

  predicate IsBusy(s: State, offset: nat) {
    exists w :: w in s.busy && s.busy[w] == offset
  }

  /** Every message handed out is with exactly one worker or has ended. */
  ghost predicate Accounted(s: State) {
    && s.committed <= s.next
    && (forall k: nat :: k < s.next <==> IsBusy(s, k) || k in s.ended)
    && (forall k: nat :: !(IsBusy(s, k) && k in s.ended))
    && (forall v, w | v in s.busy && w in s.busy && s.busy[v] == s.busy[w] :: v == w)
  }

  /** Whatever the committed offset covers was handled or handed on: none of it is lost by a restart. */
  predicate CoversSettledOnly(s: State) {
    forall k: nat :: k < s.committed ==> k in s.ended && Settled(s.ended[k])
  }

  lemma StepAccounts(s: State, a: Action)
    requires Accounted(s)
    ensures Accounted(Step(s, a))
  {
    var next := Step(s, a);
    match a {
      case Take(w) =>
        if w !in s.busy {
          forall k: nat ensures IsBusy(next, k) <==> IsBusy(s, k) || k == s.next {
            if IsBusy(s, k) {
              var v :| v in s.busy && s.busy[v] == k;
              assert next.busy[v] == k;
            }
            assert next.busy[w] == s.next;
          }
          forall v | v in s.busy ensures s.busy[v] != s.next {
            assert IsBusy(s, s.busy[v]);
          }
        }
      case End(w, ending, commitOk) =>
        if w in s.busy {
          assert IsBusy(s, s.busy[w]);
          forall k: nat ensures IsBusy(next, k) <==> IsBusy(s, k) && k != s.busy[w] {
            if IsBusy(s, k) && k != s.busy[w] {
              var v :| v in s.busy && s.busy[v] == k;
              assert next.busy[v] == k;
            }
          }
        }
    }
  }

  lemma {:induction false} RunsAccount(s: State, actions: seq<Action>)
    requires Accounted(s)
    ensures Accounted(Run(s, actions))
    decreases |actions|
  {
    hide Step, Accounted;
    if actions != [] {
      StepAccounts(s, actions[0]);
      RunsAccount(Step(s, actions[0]), actions[1..]);
    }
  }

  /** No other worker has an earlier message, and none was abandoned. */
  predicate NothingEarlierOpen(s: State, w: nat)
    requires w in s.busy
  {
    && (forall v | v in s.busy && v != w :: s.busy[w] < s.busy[v])
    && (forall k | k in s.ended && k < s.busy[w] :: Settled(s.ended[k]))
  }

  /**
    With any number of workers, in every run so far safe: settling and committing a message keeps
    the committed offset safe if and only if no earlier one is still being worked on or was
    abandoned.
   */
  lemma CommitSafeIff(actions: seq<Action>, w: nat, ending: Ending)
    requires CoversSettledOnly(Run(START, actions)) && w in Run(START, actions).busy && Settled(ending)
    ensures var s := Run(START, actions);
            CoversSettledOnly(Step(s, End(w, ending, true))) <==> NothingEarlierOpen(s, w)
  {
    hide Run;
    StartAccounts();
    RunsAccount(START, actions);
    var s := Run(START, actions);
    var next := Step(s, End(w, ending, true));
    assert IsBusy(s, s.busy[w]);
    assert s.committed <= s.busy[w];
    if NothingEarlierOpen(s, w) {
      assert forall k: nat | k < s.busy[w] :: !IsBusy(s, k);
    } else if CoversSettledOnly(next) {
      forall v | v in s.busy && v != w ensures s.busy[w] < s.busy[v] {
        var k := s.busy[v];
        assert IsBusy(s, k);
        assert k < s.busy[w] ==> k in next.ended;
      }
      forall k | k in s.ended && k < s.busy[w] ensures Settled(s.ended[k]) {
        assert k < next.committed && next.ended[k] == s.ended[k];
      }
    }
  }

  lemma StartAccounts()
    ensures Accounted(START)
  {
  }

  /** Steps of one worker only, which stops at the first message it does not settle. */
  predicate OneWorker(s: State, actions: seq<Action>)
    decreases |actions|
  {
    actions != [] ==>
      && actions[0].worker == 0
      && (actions[0].Take? ==> forall k | k in s.ended :: Settled(s.ended[k]))
      && OneWorker(Step(s, actions[0]), actions[1..])
  }

  /** One worker never has an earlier message open, so every commit of its runs is safe. */
  ghost predicate InTurn(s: State) {
    && Accounted(s) && CoversSettledOnly(s)
    && (forall v | v in s.busy :: v == 0 && s.busy[v] == s.next - 1)
    && (forall k | k in s.ended && k < s.next - 1 :: Settled(s.ended[k]))
  }

  lemma {:induction false} OneWorkerIsSafe(s: State, actions: seq<Action>)
    requires InTurn(s) && OneWorker(s, actions)
    ensures CoversSettledOnly(Run(s, actions))
    decreases |actions|
  {
    hide Accounted;
    if actions != [] {
      StepAccounts(s, actions[0]);
      StepInTurn(s, actions[0]);
      OneWorkerIsSafe(Step(s, actions[0]), actions[1..]);
    }
  }

  lemma StepInTurn(s: State, a: Action)
    requires InTurn(s) && Accounted(Step(s, a)) && a.worker == 0
    requires a.Take? ==> forall k | k in s.ended :: Settled(s.ended[k])
    ensures InTurn(Step(s, a))
  {
    if a.End? && 0 in s.busy {
      assert IsBusy(s, s.busy[0]);
      forall k: nat | k < s.next - 1 ensures k in s.ended {
        assert k < s.next && !IsBusy(s, k);
      }
    }
  }

  /** The committed offset never falls, and rises exactly when a settled message past it is committed. */
  lemma CommittedRisesIff(s: State, a: Action)
    ensures Step(s, a).committed >= s.committed
    ensures Step(s, a).committed > s.committed
       <==> a.End? && a.worker in s.busy && s.busy[a.worker] >= s.committed && a.commitOk
            && (a.ending == Succeeded || a.ending == DeadLettered)
    ensures a.End? && a.worker in s.busy && a.commitOk && Settled(a.ending) ==>
              Step(s, a).committed > s.busy[a.worker]
  {
  }

  /** Two workers lose a message: the later one commits, the earlier one is abandoned at shutdown. */
  lemma TwoWorkersSkip()
    ensures var s := Run(START, [Take(0), Take(1), End(1, Succeeded, true), End(0, Abandoned, true)]);
            s.committed == 2 && 0 in s.ended && s.ended[0] == Abandoned
  {
    var a := [Take(0), Take(1), End(1, Succeeded, true), End(0, Abandoned, true)];
    assert a[1..] == [Take(1), End(1, Succeeded, true), End(0, Abandoned, true)];
    assert a[1..][1..] == [End(1, Succeeded, true), End(0, Abandoned, true)];
    assert a[1..][1..][1..] == [End(0, Abandoned, true)];
    assert a[1..][1..][1..][1..] == [];
  }
}
