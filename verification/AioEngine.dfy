/** MPSCAIOEngine of pynng/_aio.py: the slot table, the wake pipe and the drain loop on top of
the native queue. */
module AioEngine {
  import opened CompletionSpec
  import opened CompletionQueue
  import Spec = CompletionSpec
  import opened SlotTable

  // An asyncio future, by identity.
  type FutureId = nat

  datatype FutureState = Pending | Resolved | Cancelled

  type Futures = map<FutureId, FutureState>

  const BATCH_SIZE: nat := 256
  const READ_SIZE: nat := 65536

  /** `fut.set_result(None)` unless the future is done. */
  function Resolve(futs: Futures, f: FutureId): Futures {
    if f in futs && futs[f].Pending? then futs[f := Resolved] else futs
  }

  datatype Table = Table(slots: map<int, FutureId>, futs: Futures)

  /** What the loop body of `_on_notify` does with one slot id. */
  function DeliverOne(t: Table, slot: int): Table {
    if slot in t.slots then Table(t.slots - {slot}, Resolve(t.futs, t.slots[slot])) else t
  }

  function Deliver(t: Table, ids: seq<nat>): Table
    decreases |ids|
  {
    if ids == [] then t else Deliver(DeliverOne(t, ids[0]), ids[1..])
  }

  lemma {:induction false} DeliverConcat(t: Table, a: seq<nat>, b: seq<nat>)
    ensures Deliver(t, a + b) == Deliver(Deliver(t, a), b)
    decreases |a|
  {
    if a == [] {
      assert a + b == b;
    } else {
      assert (a + b)[1..] == a[1..] + b;
      DeliverConcat(DeliverOne(t, a[0]), a[1..], b);
    }
  }

  /** Delivery forgets exactly the reported slots, and it resolves exactly the pending futures
  that were registered under them. */
  lemma {:induction false} DeliverResolvesItsOwn(t: Table, ids: seq<nat>)
    requires forall s, s' :: s in t.slots && s' in t.slots && s != s' ==> t.slots[s] != t.slots[s']
    ensures var t' := Deliver(t, ids);
      && (forall s :: s in t'.slots <==> s in t.slots && !(s >= 0 && s in ids))
      && (forall s :: s in t'.slots ==> t'.slots[s] == t.slots[s])
      && t'.futs.Keys == t.futs.Keys
      && (forall f :: f in t.futs ==>
            t'.futs[f] == if t.futs[f].Pending? && (exists s: nat :: s in ids && s in t.slots && t.slots[s] == f)
                          then Resolved else t.futs[f])
    decreases |ids|
  {
    if ids != [] {
      var t1 := DeliverOne(t, ids[0]);
      DeliverResolvesItsOwn(t1, ids[1..]);
      assert forall s: nat :: s in ids <==> s == ids[0] || s in ids[1..];
      forall f | f in t.futs
        ensures (exists s: nat :: s in ids && s in t.slots && t.slots[s] == f)
          <==> (ids[0] in t.slots && t.slots[ids[0]] == f)
               || (exists s: nat :: s in ids[1..] && s in t1.slots && t1.slots[s] == f)
      {
      }
    }
  }

  /** The drain loop, which reports `total` in all, has reported `ids` and finds the queue in state `now`. */
  ghost predicate StillToDrain(total: (Queue, seq<nat>), max: nat, ids: seq<nat>, now: Queue)
    requires WellLinked(now) && max > 0
  {
    var (q, rest) := DrainAll(now, max);
    total == (q, ids + rest)
  }

  lemma DrainAllTurn(q: Queue, max: nat)
    requires WellLinked(q) && max > 0
    ensures var d := Drain(q, max);
      DrainAll(q, max)
      == if d.slots == [] then (d.queue, []) else (DrainAll(d.queue, max).0, d.slots + DrainAll(d.queue, max).1)
  {
    SlotsNeedItems(q, max);
  }

  lemma DrainTurn(total: (Queue, seq<nat>), max: nat, ids: seq<nat>, now: Queue)
    requires WellLinked(now) && max > 0 && StillToDrain(total, max, ids, now)
    ensures var d := Drain(now, max);
      && (d.slots == [] ==> total == (d.queue, ids))
      && (d.slots != [] ==> StillToDrain(total, max, ids + d.slots, d.queue) && |d.queue.items| < |now.items|)
  {
    var d := Drain(now, max);
    SlotsNeedItems(now, max);
    DrainAllTurn(now, max);
    if d.slots == [] {
      assert ids + [] == ids;
    } else {
      var rest := DrainAll(d.queue, max).1;
      assert ids + (d.slots + rest) == (ids + d.slots) + rest;
    }
  }

  lemma CloseForgetsFd(q: Queue)
    requires WellLinked(q)
    ensures Spec.Close(q).0.writeFd == -1
  {
    FlushUnlinksAll(q.(closed := true, writeFd := -1));
  }

  class Engine {
    const queue: NativeQueue
    const batchBuf: array<nat>
    var slots: map<int, FutureId>
    var slotCounter: int
    var futs: Futures
    var wakeBytes: nat
    var closed: bool
    // The loop watches the read end of the wake pipe; which ends are open.
    var watched: bool
    var readFdOpen: bool
    var writeFdOpen: bool

    /** While the engine is open so are both ends, and no completion writes to a closed one. */
    ghost predicate Valid()
      reads this, queue, queue.entries, batchBuf
    {
      && (watched == readFdOpen == writeFdOpen == !closed)
      && (!writeFdOpen ==> queue.writeFd < 0)
      && queue.Valid() && queue.owner
      && batchBuf != queue.entries && batchBuf.Length == BATCH_SIZE
    }

    constructor (writeFd: int)
      requires writeFd >= 0
      ensures Valid() && fresh(queue) && fresh(queue.entries) && fresh(batchBuf)
      ensures !closed && watched && slots == map[] && futs == map[] && slotCounter == 0
      ensures queue.View() == Queue([], INITIAL_CAPACITY, false, writeFd, map[])
    {
      queue := new NativeQueue(writeFd);
      batchBuf := new nat[BATCH_SIZE];
      slots, slotCounter, futs, wakeBytes, closed := map[], 0, map[], 0, false;
      watched, readFdOpen, writeFdOpen := true, true, true;
    }

    /** Gives `fut` the next id that is not pending; every pending operation keeps its future. */
    method Register(fut: FutureId) returns (slot: nat)
      requires |slots| < MASK
      modifies this`slots, this`slotCounter
      ensures IsFirstFree(NextCounter(old(slotCounter)), old(slots).Keys, slot)
      ensures slots == old(slots)[slot := fut] && slotCounter == slot
    {
      ghost var goal := SomeIdIsFree(slots.Keys);
      ghost var from := NextCounter(slotCounter);
      while true
        invariant slots == old(slots)
        invariant CyclicDistance(from, NextCounter(slotCounter)) <= CyclicDistance(from, goal)
        invariant forall id | 1 <= id <= MASK ::
          CyclicDistance(from, id) < CyclicDistance(from, NextCounter(slotCounter)) ==> id in slots
        decreases CyclicDistance(NextCounter(slotCounter), goal)
      {
        slotCounter := NextCounter(slotCounter);
        if slotCounter !in slots {
          break;
        }
      }
      slot := slotCounter;
      slots := slots[slot := fut];
    }

    method Unregister(slot: int)
      modifies this`slots
      ensures slots == old(slots) - {slot}
    {
      slots := slots - {slot};
    }

    /** The reader callback of the wake pipe: it takes what the pipe holds and then drains the
    queue to the end, whatever its length. */
    method OnNotify()
      requires Valid()
      modifies this, queue, batchBuf
      ensures Valid() && closed == old(closed) && slotCounter == old(slotCounter)
      ensures old(closed) ==> Table(slots, futs) == old(Table(slots, futs)) && queue.View() == old(queue.View())
      ensures !old(closed) ==>
        && wakeBytes == (if old(wakeBytes) <= READ_SIZE then 0 else old(wakeBytes) - READ_SIZE)
        && queue.View().items == []
        && Unlinked(old(queue.heap), old(queue.View().items), queue.heap)
        && Table(slots, futs) == Deliver(old(Table(slots, futs)), SlotsOf(old(queue.heap), old(queue.View().items)))
    {
      if closed { return; }
      wakeBytes := if wakeBytes <= READ_SIZE then 0 else wakeBytes - READ_SIZE;
      DrainAllIsExact(queue.View(), BATCH_SIZE);
      DrainLoop();
    }

    /** One batch, delivered. */
    method DrainAndDeliver() returns (count: nat)
      requires Valid()
      modifies this`slots, this`futs, queue, batchBuf
      ensures Valid() && queue.View() == Drain(old(queue.View()), BATCH_SIZE).queue
      ensures count == |Drain(old(queue.View()), BATCH_SIZE).slots|
      ensures Table(slots, futs) == Deliver(old(Table(slots, futs)), Drain(old(queue.View()), BATCH_SIZE).slots)
    {
      ghost var _ := DrainTakesPrefix(queue.View(), BATCH_SIZE);
      count := queue.DrainBatch(batchBuf, BATCH_SIZE);
      DeliverBatch(count);
    }

    method DrainLoop()
      requires Valid()
      modifies this`slots, this`futs, queue, batchBuf
      ensures Valid() && queue.View() == DrainAll(old(queue.View()), BATCH_SIZE).0
      ensures Table(slots, futs) == Deliver(old(Table(slots, futs)), DrainAll(old(queue.View()), BATCH_SIZE).1)
    {
      ghost var now, t, ids: seq<nat> := queue.View(), Table(slots, futs), [];
      ghost var total := DrainAll(now, BATCH_SIZE);
      assert [] + total.1 == total.1;
      var count := 1;
      while count != 0
        invariant Valid() && Table(slots, futs) == Deliver(t, ids) && now == queue.View()
        invariant if count == 0 then total == (now, ids) else StillToDrain(total, BATCH_SIZE, ids, now)
        decreases count != 0, |now.items|
      {
        DrainTurn(total, BATCH_SIZE, ids, now);
        ghost var d := Drain(now, BATCH_SIZE);
        DeliverConcat(t, ids, d.slots);
        count := DrainAndDeliver();
        now, ids := d.queue, ids + d.slots;
      }
    }

    /** The inner loop of `_on_notify`. */
    method DeliverBatch(count: nat)
      requires count <= batchBuf.Length
      modifies this`slots, this`futs
      ensures Table(slots, futs) == Deliver(old(Table(slots, futs)), batchBuf[..count])
    {
      ghost var t := Table(slots, futs);
      for i := 0 to count
        invariant Table(slots, futs) == Deliver(t, batchBuf[..i])
      {
        assert batchBuf[..i+1] == batchBuf[..i] + [batchBuf[i]];
        DeliverConcat(t, batchBuf[..i], [batchBuf[i]]);
        var slotId := batchBuf[i];
        if slotId in slots {
          var fut := slots[slotId];
          slots := slots - {slotId};
          if fut in futs && futs[fut].Pending? {
            futs := futs[fut := Resolved];
          }
        }
      }
    }

    /** Closing the engine empties the queue without reporting, stops watching the pipe and closes
    both its ends, after the queue forgot the write end, and cancels what is pending. */
    method Close()
      requires Valid()
      modifies this, queue
      ensures Valid() && closed && !watched && !readFdOpen && !writeFdOpen && slotCounter == old(slotCounter)
      ensures old(closed) ==> Table(slots, futs) == old(Table(slots, futs)) && queue.View() == old(queue.View())
      ensures !old(closed) ==>
        && queue.View() == Spec.Close(old(queue.View())).0
        && slots == map[]
        && futs.Keys == old(futs).Keys
        && forall f :: f in futs ==>
             futs[f] == if old(futs)[f].Pending? && f in old(slots).Values then Cancelled else old(futs)[f]
    {
      if closed { return; }
      closed := true;
      CloseForgetsFd(queue.View());
      queue.QueueClose();
      watched := false;
      readFdOpen := false;
      writeFdOpen := false;
      CancelPending();
    }

    method CancelPending()
      modifies this`slots, this`futs
      ensures slots == map[] && futs.Keys == old(futs).Keys
      ensures forall f :: f in futs ==>
        futs[f] == if old(futs)[f].Pending? && f in old(slots).Values then Cancelled else old(futs)[f]
    {
      var pending := slots.Values;
      futs := map f | f in futs :: if futs[f].Pending? && f in pending then Cancelled else futs[f];
      slots := map[];
    }
  }
}
