/** The virtual clock: an offset to real time, kept in step across instances through a store they subscribe to. */
module VirtualClock {

  /** The stored offset, and for each subscribed instance the published offsets it has still to receive. */
  class OffsetStore {
    var saved: int
    var inboxes: map<nat, seq<int>>

    constructor ()
      ensures saved == 0 && inboxes == map[]
    {
      saved, inboxes := 0, map[];
    }

    method SaveOffset(offset: int, ok: bool)
      modifies `saved
      ensures saved == if ok then offset else old(saved)
    {
      if ok {
        saved := offset;
      }
    }

    method PublishOffsetChanged(offset: int, ok: bool)
      modifies `inboxes
      ensures inboxes == if ok then Broadcast(old(inboxes), offset) else old(inboxes)
    {
      if ok {
        inboxes := map i | i in inboxes :: inboxes[i] + [offset];
      }
    }
  }

  function Broadcast(inboxes: map<nat, seq<int>>, offset: int): map<nat, seq<int>> {
    map i | i in inboxes :: inboxes[i] + [offset]
  }

  /** What a caller asks of the clock. */
  datatype Change = Advance(d: int) | SetTime(t: int) | Reset

  function NewOffset(offset: int, change: Change, realNow: int): int {
    match change
    case Advance(d) => offset + d
    case SetTime(t) => t - realNow
    case Reset => 0
  }

  /** A failed save is an error of any change but a reset; a failed publish only of setting the time. */
  predicate Fails(change: Change, saveOk: bool, publishOk: bool) {
    match change
    case Advance(_) => !saveOk
    case SetTime(_) => !saveOk || !publishOk
    case Reset => false
  }

  class Clock {
    const id: nat
    const store: OffsetStore?
    var offset: int
    /** The time jumps the listeners were told of: old and new time. */
    var jumps: seq<(int, int)>

    constructor (id: nat, store: OffsetStore?)
      ensures this.id == id && this.store == store && jumps == []
      ensures offset == if store == null then 0 else store.saved
    {
      this.id, this.store := id, store;
      jumps := [];
      offset := if store == null then 0 else store.saved;
    }

    /** A clock whose store cannot be read is not made at all. */
    static method NewVirtualClock(id: nat, store: OffsetStore?, loadOk: bool) returns (clock: Clock?)
      ensures clock == null <==> store != null && !loadOk
      ensures clock != null ==>
                && fresh(clock) && clock.id == id && clock.store == store && clock.jumps == []
                && clock.offset == if store == null then 0 else store.saved
    {
      if store != null && !loadOk {
        return null;
      }
      clock := new Clock(id, store);
    }

    function Now(realNow: int): int
      reads this
    {
      realNow + offset
    }

    /** What every change leaves: the local offset always, the store's as far as the store allowed. */
    twostate predicate Changed(change: Change, realNow: int, saveOk: bool, publishOk: bool, failed: bool)
      reads this, store
    {
      && offset == NewOffset(old(offset), change, realNow)
      && (store == null ==> !failed)
      && (store != null ==>
            && failed == Fails(change, saveOk, publishOk)
            && store.saved == (if saveOk then offset else old(store.saved))
            && store.inboxes == (if publishOk && (saveOk || change.Reset?) then Broadcast(old(store.inboxes), offset)
                                 else old(store.inboxes)))
      && jumps == old(jumps) + (if failed then [] else [(old(Now(realNow)), Now(realNow))])
    }

    method Advance(d: int, realNow: int, saveOk: bool, publishOk: bool) returns (failed: bool)
      modifies this, store
      ensures Changed(Change.Advance(d), realNow, saveOk, publishOk, failed)
      ensures Now(realNow) == old(Now(realNow)) + d
      ensures failed <==> store != null && !saveOk
    {
      var oldTime := realNow + offset;
      offset := offset + d;
      var newTime := realNow + offset;
      if store != null {
        store.SaveOffset(offset, saveOk);
        if !saveOk {
          return true;
        }
        store.PublishOffsetChanged(offset, publishOk);
      }
      jumps := jumps + [(oldTime, newTime)];
      return false;
    }

    method SetTime(t: int, realNow: int, saveOk: bool, publishOk: bool) returns (failed: bool)
      modifies this, store
      ensures Changed(Change.SetTime(t), realNow, saveOk, publishOk, failed)
      ensures Now(realNow) == t
      ensures failed <==> store != null && !(saveOk && publishOk)
    {
      var oldTime := realNow + offset;
      offset := t - realNow;
      var newTime := t;
      if store != null {
        store.SaveOffset(offset, saveOk);
        if !saveOk {
          return true;
        }
        store.PublishOffsetChanged(offset, publishOk);
        if !publishOk {
          return true;
        }
      }
      jumps := jumps + [(oldTime, newTime)];
      return false;
    }

    method Reset(realNow: int, saveOk: bool, publishOk: bool) returns (failed: bool)
      modifies this, store
      ensures Changed(Change.Reset, realNow, saveOk, publishOk, failed)
      ensures Now(realNow) == realNow && !failed
    {
      var oldTime := realNow + offset;
      offset := 0;
      var newTime := realNow;
      if store != null {
        store.SaveOffset(0, saveOk);
        store.PublishOffsetChanged(0, publishOk);
      }
      jumps := jumps + [(oldTime, newTime)];
      return false;
    }

    /** From here on the instance is sent what is published; what was published before it has missed. */
    method StartSync(subscribeOk: bool) returns (failed: bool)
      modifies store
      ensures failed == (store != null && !subscribeOk)
      ensures store != null ==> store.saved == old(store.saved)
      ensures store != null ==>
                store.inboxes == if failed || id in old(store.inboxes) then old(store.inboxes)
                                 else old(store.inboxes)[id := []]
    {
      if store == null {
        return false;
      }
      if !subscribeOk {
        return true;
      }
      if id !in store.inboxes {
        store.inboxes := store.inboxes[id := []];
      }
      return false;
    }

    /** One round of the sync loop: the next published offset overwrites the local one. */
    method SyncNext()
      requires store != null && id in store.inboxes && store.inboxes[id] != []
      modifies this, store
      ensures offset == old(store.inboxes[id][0])
      ensures store.inboxes == old(store.inboxes)[id := old(store.inboxes[id][1..])]
      ensures store.saved == old(store.saved) && jumps == old(jumps)
    {
      var newOffset := store.inboxes[id][0];
      store.inboxes := store.inboxes[id := store.inboxes[id][1..]];
      offset := newOffset;
    }
  }
}
