/** The ring buffer of src/aio_engine.h: an array that is reused in place and doubled when it
is full, with reference counts and the memory of the entries it links. */
module CompletionQueue {
  import opened CompletionSpec
  import Spec = CompletionSpec

  // ---------- reading a ring ----------

  lemma Wraps(x: nat, capacity: nat)
    requires capacity > 0 && x < 2 * capacity
    ensures x % capacity == if x < capacity then x else x - capacity
  {
  }

  /** The cell `i` places after `tail`. */
  function Index(tail: nat, i: nat, capacity: nat): (k: nat)
    requires tail < capacity && i <= capacity
    ensures k < capacity && k == if tail + i < capacity then tail + i else tail + i - capacity
  {
    Wraps(tail + i, capacity);
    (tail + i) % capacity
  }

  /** `count` cells from `tail`, modulo the capacity. */
  function RingItems(cells: seq<EntryId>, tail: nat, count: nat): seq<EntryId>
    requires count <= |cells| && (count > 0 ==> tail < |cells|)
  {
    seq(count, i requires 0 <= i < count => cells[Index(tail, i, |cells|)])
  }

  lemma RingPush(cells: seq<EntryId>, tail: nat, count: nat, e: EntryId)
    requires count < |cells| && tail < |cells|
    ensures RingItems(cells[Index(tail, count, |cells|) := e], tail, count + 1) == RingItems(cells, tail, count) + [e]
  {
  }

  lemma RingPop(cells: seq<EntryId>, tail: nat, count: nat)
    requires 0 < count <= |cells| && tail < |cells|
    ensures RingItems(cells, tail, count)[0] == cells[tail]
    ensures RingItems(cells, Index(tail, 1, |cells|), count - 1) == RingItems(cells, tail, count)[1..]
  {
  }

  /** A ring copied to the front of larger storage reads the same. */
  lemma RingCopied(cells: seq<EntryId>, tail: nat, count: nat, cells': seq<EntryId>)
    requires count <= |cells| <= |cells'| && (count > 0 ==> tail < |cells|)
    requires forall i :: 0 <= i < count ==> cells'[i] == cells[Index(tail, i, |cells|)]
    ensures RingItems(cells', 0, count) == RingItems(cells, tail, count)
  {
  }

  method Append(out: array<nat>, n: nat, slot: nat)
    requires n < out.Length
    modifies out
    ensures out[..n+1] == old(out[..n]) + [slot]
  {
    out[n] := slot;
  }

  class NativeQueue {
    var entries: array<EntryId>
    var capacity: nat
    var head: nat
    var tail: nat
    var count: nat
    var closed: bool
    var writeFd: int
    var refcount: nat
    // The malloc'ed pynng_aio_entry_t blocks, by address.
    var heap: Heap
    // Set when the queue's own memory is released.
    var destroyed: bool
    // Whether the engine still holds its reference.
    ghost var owner: bool

    ghost function View(): Queue
      reads this, entries
      requires count <= entries.Length && (count > 0 ==> tail < entries.Length)
    {
      Queue(RingItems(entries[..], tail, count), capacity, closed, writeFd, heap)
    }

    ghost predicate Ring()
      reads this, entries
    {
      && entries.Length == capacity
      && count <= capacity
      && (if capacity == 0 then head == tail == 0
          else tail < capacity && head == Index(tail, count, capacity))
      && WellLinked(View())
    }

    ghost predicate Valid()
      reads this, entries
    {
      && Ring()
      && refcount == (if owner then 1 else 0) + |heap|
      && destroyed == (refcount == 0)
    }

    constructor (fd: int)
      ensures Valid() && fresh(entries) && owner && !destroyed
      ensures View() == Queue([], INITIAL_CAPACITY, false, fd, map[])
    {
      entries := new EntryId[INITIAL_CAPACITY];
      capacity, head, tail, count := INITIAL_CAPACITY, 0, 0, 0;
      closed, writeFd, refcount := false, fd, 1;
      heap, destroyed, owner := map[], false, true;
    }

    method Release(n: nat)
      requires n > 0 ==> !destroyed && n <= refcount
      modifies this`refcount, this`destroyed
      ensures refcount == old(refcount) - n
      ensures destroyed == (if n == 0 then old(destroyed) else refcount == 0)
    {
      if n == 0 { return; }
      refcount := refcount - n;
      if refcount == 0 {
        destroyed := true;
      }
    }

    /** Doubles the storage; the ring keeps its contents and its order. */
    method GrowStorage()
      requires Ring() && count == capacity
      modifies this`entries, this`capacity, this`head, this`tail
      ensures fresh(entries) && entries.Length == capacity == Grow(old(capacity))
      ensures old(capacity) > 0 ==> capacity == old(capacity) + old(capacity)
      ensures old(capacity) == 0 ==> capacity == INITIAL_CAPACITY
      ensures tail == 0 && head == count < capacity
      ensures RingItems(entries[..], tail, count) == old(RingItems(entries[..], tail, count))
    {
      var newCap := Grow(capacity);
      var newEntries := new EntryId[newCap];
      for i := 0 to count
        modifies newEntries
        invariant capacity > 0 || count == 0
        invariant forall j :: 0 <= j < i ==> newEntries[j] == entries[Index(tail, j, capacity)]
      {
        newEntries[i] := entries[Index(tail, i, capacity)];
      }
      RingCopied(entries[..], tail, count, newEntries[..]);
      entries := newEntries;
      tail := 0;
      head := count;
      capacity := newCap;
    }

    method Push(e: EntryId)
      requires entries.Length == capacity && count < capacity
      requires tail < capacity && head == Index(tail, count, capacity)
      modifies this`head, this`count, entries
      ensures count == old(count) + 1 && head == Index(tail, count, capacity)
      ensures RingItems(entries[..], tail, count) == old(RingItems(entries[..], tail, count)) + [e]
    {
      RingPush(entries[..], tail, count, e);
      entries[head] := e;
      head := Index(head, 1, capacity);
      count := count + 1;
    }

    /** The growth of a full ring, if malloc succeeds, and the push if there is room. */
    method Insert(e: EntryId, mallocOk: bool)
      requires Ring()
      requires e in heap && !heap[e].state.Idle? && e !in View().items
      modifies this`entries, this`capacity, this`head, this`tail, this`count, entries
      ensures Ring() && (entries == old(entries) || fresh(entries))
      ensures var q := old(View());
        var room := if |q.items| == q.capacity && mallocOk then Grow(q.capacity) else q.capacity;
        View() == q.(capacity := room, items := if |q.items| < room then q.items + [e] else q.items)
    {
      if count == capacity && mallocOk {
        GrowStorage();
      }
      if count < capacity {
        Push(e);
      }
    }

    /** pynng_native_aio_complete: an nng worker reports the completion of `e`. */
    method Complete(e: EntryId, mallocOk: bool) returns (wrote: bool)
      requires Valid() && !destroyed && e in heap
      modifies this, entries
      ensures Valid() && owner == old(owner) && refcount == old(refcount)
      ensures entries == old(entries) || fresh(entries)
      ensures View() == Spec.Complete(old(View()), e, mallocOk)
      ensures wrote == (Accepts(old(View()), e) && old(writeFd) >= 0)
    {
      if closed || !heap[e].state.Idle? {
        return false;
      }
      LinkKeepsLinked(View(), e, mallocOk);
      assert heap[e := heap[e].(state := Queued)].Keys == heap.Keys;
      heap := heap[e := heap[e].(state := Queued)];
      Insert(e, mallocOk);
      wrote := writeFd >= 0;
    }

    /** Unlinks the entry at the tail; its memory goes if the entry was FREED. */
    method Pop() returns (slot: nat, freed: bool)
      requires Ring() && count > 0
      modifies this`tail, this`count, this`heap
      ensures Ring() && View() == Unlink(old(View()))
      ensures slot == old(heap[View().items[0]].slot)
      ensures freed == old(heap[View().items[0]].state.Freed?)
    {
      RingPop(entries[..], tail, count);
      UnlinkKeepsLinked(View());
      var entry := entries[tail];
      tail := Index(tail, 1, capacity);
      count := count - 1;
      slot := heap[entry].slot;
      freed := heap[entry].state.Freed?;
      if freed {
        heap := heap - {entry};
      } else {
        heap := heap[entry := heap[entry].(state := Idle)];
      }
    }

    /** One turn of the loop that empties the ring. */
    method FlushOne(freed: nat) returns (freed': nat)
      requires Ring() && count > 0
      modifies this`tail, this`count, this`heap
      ensures Ring() && count < old(count)
      ensures old((Flush(View()).0, freed + Flush(View()).1)) == (Flush(View()).0, freed' + Flush(View()).1)
    {
      UnlinkKeepsLinked(View());
      var _, gone := Pop();
      freed' := freed + if gone then 1 else 0;
    }

    /** The locked region of pynng_mpsc_queue_close. */
    method CloseLocked() returns (freed: nat)
      requires Ring()
      modifies this`closed, this`writeFd, this`tail, this`count, this`heap
      ensures Ring() && (View(), freed) == Close(old(View()))
    {
      closed, writeFd, freed := true, -1, 0;
      ghost var q0 := View();
      while count > 0
        invariant Ring()
        invariant Flush(q0) == (Flush(View()).0, freed + Flush(View()).1)
        decreases count
      {
        freed := FlushOne(freed);
      }
    }

    method QueueClose()
      requires Valid() && !destroyed
      modifies this
      ensures Valid() && owner == old(owner) && entries == old(entries)
      ensures View() == Close(old(View())).0
      ensures destroyed <==> !owner && heap == map[]
    {
      FlushFreesMemory(View().(closed := true, writeFd := -1));
      var freed := CloseLocked();
      Release(freed);
    }

    /** pynng_mpsc_queue_free: the owner closes the queue and gives its reference back. */
    method QueueFree()
      requires Valid() && !destroyed && owner
      modifies this
      ensures Valid() && !owner && entries == old(entries)
      ensures View() == Close(old(View())).0
      ensures destroyed <==> heap == map[]
    {
      QueueClose();
      owner := false;
      Release(1);
    }

    /** One turn of the drain loop: unlinks an entry and appends the slot id that it reports, if any. */
    method DrainOne(out: array<nat>, n: nat, max: int, freed: nat) returns (n': nat, freed': nat)
      requires Ring() && count > 0 && n < max <= out.Length && out != entries
      modifies this`tail, this`count, this`heap, out
      ensures Ring() && n' <= out.Length && count < old(count)
      ensures old(After(out[..n], freed, Drain(View(), max - n))) == After(out[..n'], freed', Drain(View(), max - n'))
    {
      UnlinkKeepsLinked(View());
      DrainOneMore(View(), max - n, out[..n], freed);
      var slot, gone := Pop();
      n', freed' := n, freed;
      if gone {
        freed' := freed + 1;
      } else if slot != 0 {
        Append(out, n, slot);
        n' := n + 1;
      } else {
        assert out[..n] == out[..n] + [];
      }
    }

    /** The locked region of pynng_mpsc_drain_batch. */
    method DrainLocked(out: array<nat>, max: int) returns (n: nat, freed: nat)
      requires Ring() && max <= out.Length && out != entries
      modifies this`tail, this`count, this`heap, out
      ensures Ring() && n <= out.Length
      ensures Drained(View(), out[..n], freed) == Drain(old(View()), max)
    {
      n, freed := 0, 0;
      ghost var q := View();
      while count > 0 && n < max
        invariant Ring() && n <= out.Length
        invariant Drain(q, max) == After(out[..n], freed, Drain(View(), max - n))
        decreases count
      {
        n, freed := DrainOne(out, n, max, freed);
      }
    }

    /** pynng_mpsc_drain_batch: at most `max` slot ids go to the front of `out`. */
    method DrainBatch(out: array<nat>, max: int) returns (n: nat)
      requires Valid() && !destroyed && max <= out.Length && out != entries
      modifies this, out
      ensures Valid() && owner == old(owner) && entries == old(entries)
      ensures n <= out.Length
      ensures View() == Drain(old(View()), max).queue && out[..n] == Drain(old(View()), max).slots
      ensures destroyed <==> !owner && heap == map[]
    {
      if max <= 0 { return 0; }
      DrainFreesMemory(View(), max);
      var freed;
      n, freed := DrainLocked(out, max);
      Release(freed);
    }

    /** pynng_aio_entry_new with the memory that malloc returned. */
    method EntryNew(e: EntryId, slot: nat)
      requires Valid() && !destroyed && e !in heap
      modifies this
      ensures Valid() && owner == old(owner) && entries == old(entries)
      ensures View() == old(View()).(heap := old(heap)[e := Entry(slot, Idle)])
    {
      assert heap[e := Entry(slot, Idle)].Keys == heap.Keys + {e};
      assert e !in RingItems(entries[..], tail, count);
      refcount := refcount + 1;
      heap := heap[e := Entry(slot, Idle)];
    }

    method SetSlotId(e: EntryId, slot: nat)
      requires Valid() && e in heap
      modifies this`heap
      ensures Valid() && heap == old(heap)[e := old(heap)[e].(slot := slot)]
      ensures View() == old(View()).(heap := heap)
    {
      assert heap[e := heap[e].(slot := slot)].Keys == heap.Keys;
      heap := heap[e := heap[e].(slot := slot)];
    }

    method IsIdle(e: EntryId) returns (idle: bool)
      requires Valid() && e in heap
      ensures idle ==> e !in View().items
      ensures idle == heap[e].state.Idle?
    {
      idle := heap[e].state.Idle?;
    }

    /** pynng_aio_entry_free: an IDLE entry's memory goes now, and a QUEUED entry's when it is unlinked. */
    method EntryFree(e: EntryId)
      requires Valid() && !destroyed && e in heap && !heap[e].state.Freed?
      modifies this`heap, this`refcount, this`destroyed
      ensures Valid() && View() == FreeEntry(old(View()), e)
      ensures e in heap <==> !old(heap)[e].state.Idle?
      ensures e in heap ==> heap[e].state.Freed?
      ensures destroyed <==> !owner && heap == map[]
    {
      FreeKeepsLinked(View(), e);
      ghost var freed := FreeEntry(View(), e).heap;
      SetSlotId(e, 0);
      var prev := heap[e].state;
      heap := heap[e := heap[e].(state := Freed)];
      if prev.Idle? {
        heap := heap - {e};
      }
      assert heap == freed;
      Release(if prev.Idle? then 1 else 0);
    }
  }

  /** pynng_mpsc_queue_new: no queue if either of its allocations fails. */
  method QueueNew(fd: int, queueOk: bool, entriesOk: bool) returns (q: NativeQueue?)
    ensures q == null <==> !queueOk || !entriesOk
    ensures q != null ==>
      && fresh(q) && fresh(q.entries) && q.Valid() && q.owner && !q.destroyed
      && q.View() == Queue([], INITIAL_CAPACITY, false, fd, map[])
  {
    if !queueOk || !entriesOk { return null; }
    q := new NativeQueue(fd);
  }
}
