/** The native completion queue of src/aio_engine.h as plain values.

Every function here is the effect of one region that the C code runs with the
queue lock held.  The class in CompletionQueue.dfy is proved against these
functions, and the interleaving models take them as their atomic steps. */
module CompletionSpec {

  // A non-null `pynng_aio_entry_t *`.
  type EntryId = nat

  datatype EntryState = Idle | Queued | Freed

  datatype Entry = Entry(slot: nat, state: EntryState)

  // The entries whose memory is allocated.
  type Heap = map<EntryId, Entry>

  const INITIAL_CAPACITY: nat := 256

  // `items` is the ring read from tail to head.
  datatype Queue = Queue(items: seq<EntryId>, capacity: nat, closed: bool, writeFd: int, heap: Heap)

  /** The ring never holds an entry twice, and what it holds is allocated and not IDLE. */
  ghost predicate WellLinked(q: Queue) {
    && |q.items| <= q.capacity
    && (forall i :: 0 <= i < |q.items| ==> q.items[i] in q.heap && !q.heap[q.items[i]].state.Idle?)
    && (forall i, j :: 0 <= i < j < |q.items| ==> q.items[i] != q.items[j])
  }

  // ---------- completion ----------

  predicate Accepts(q: Queue, e: EntryId)
    requires e in q.heap
  {
    !q.closed && q.heap[e].state.Idle?
  }

  function Grow(capacity: nat): nat {
    if capacity == 0 then INITIAL_CAPACITY else 2 * capacity
  }

  /** IDLE -> QUEUED, growth of a full ring if its malloc succeeds, and the push if there is room. */
  function Link(q: Queue, e: EntryId, mallocOk: bool): Queue
    requires e in q.heap
  {
    var capacity := if |q.items| == q.capacity && mallocOk then Grow(q.capacity) else q.capacity;
    q.(heap := q.heap[e := q.heap[e].(state := Queued)],
       capacity := capacity,
       items := if |q.items| < capacity then q.items + [e] else q.items)
  }

  function Complete(q: Queue, e: EntryId, mallocOk: bool): Queue
    requires e in q.heap
  {
    if Accepts(q, e) then Link(q, e, mallocOk) else q
  }

  lemma LinkKeepsLinked(q: Queue, e: EntryId, mallocOk: bool)
    requires WellLinked(q) && e in q.heap && Accepts(q, e)
    ensures e !in q.items && WellLinked(Link(q, e, mallocOk))
  {
  }

  // ---------- drain, close, entry_free ----------

  datatype Drained = Drained(queue: Queue, slots: seq<nat>, freed: nat)

  /** The rest of a batch, after `slots` were reported and `freed` entries released. */
  function After(slots: seq<nat>, freed: nat, rest: Drained): Drained {
    Drained(rest.queue, slots + rest.slots, freed + rest.freed)
  }

  /** The queue after its first entry is unlinked. */
  function Unlink(q: Queue): Queue
    requires WellLinked(q) && q.items != []
  {
    var e := q.items[0];
    q.(items := q.items[1..],
       heap := if q.heap[e].state.Freed? then q.heap - {e} else q.heap[e := q.heap[e].(state := Idle)])
  }

  lemma UnlinkKeepsLinked(q: Queue)
    requires WellLinked(q) && q.items != []
    ensures WellLinked(Unlink(q))
    ensures q.items[0] !in Unlink(q).items
  {
  }

  predicate Reports(entry: Entry) {
    !entry.state.Freed? && entry.slot != 0
  }

  function Drain(q: Queue, max: int): (d: Drained)
    requires WellLinked(q)
    ensures WellLinked(d.queue)
    decreases |q.items|
  {
    if max <= 0 || q.items == [] then
      Drained(q, [], 0)
    else
      var e := q.items[0];
      UnlinkKeepsLinked(q);
      if q.heap[e].state.Freed? then
        After([], 1, Drain(Unlink(q), max))
      else if Reports(q.heap[e]) then
        After([q.heap[e].slot], 0, Drain(Unlink(q), max - 1))
      else
        Drain(Unlink(q), max)
  }

  /** What the first entry reports. */
  function Reported(q: Queue): seq<nat>
    requires WellLinked(q) && q.items != []
  {
    var e := q.heap[q.items[0]];
    if Reports(e) then [e.slot] else []
  }

  /** One turn of the drain loop. */
  lemma DrainOneMore(q: Queue, max: int, slots: seq<nat>, freed: nat)
    requires WellLinked(q) && q.items != [] && max > 0 && WellLinked(Unlink(q))
    ensures After(slots, freed, Drain(q, max))
      == After(slots + Reported(q), freed + (if q.heap[q.items[0]].state.Freed? then 1 else 0),
               Drain(Unlink(q), max - |Reported(q)|))
  {
    var rest := Drain(Unlink(q), max - |Reported(q)|).slots;
    assert slots + (Reported(q) + rest) == slots + Reported(q) + rest;
  }

  /** Closing unlinks everything and reports nothing. */
  function Close(q: Queue): (Queue, nat)
    requires WellLinked(q)
  {
    Flush(q.(closed := true, writeFd := -1))
  }

  function Flush(q: Queue): (r: (Queue, nat))
    requires WellLinked(q)
    ensures WellLinked(r.0) && r.0.items == []
    decreases |q.items|
  {
    if q.items == [] then
      (q, 0)
    else
      UnlinkKeepsLinked(q);
      var (q', freed) := Flush(Unlink(q));
      (q', freed + (if q.heap[q.items[0]].state.Freed? then 1 else 0))
  }

  /** The locked region of entry_free and what it frees itself: a QUEUED entry stays for its unlinker. */
  function FreeEntry(q: Queue, e: EntryId): Queue
    requires e in q.heap
  {
    q.(heap := if q.heap[e].state.Idle? then q.heap - {e} else q.heap[e := Entry(0, Freed)])
  }

  lemma FreeKeepsLinked(q: Queue, e: EntryId)
    requires WellLinked(q) && e in q.heap
    ensures WellLinked(FreeEntry(q, e))
    ensures |FreeEntry(q, e).heap| == |q.heap| - (if q.heap[e].state.Idle? then 1 else 0)
  {
    assert q.heap[e := Entry(0, Freed)].Keys == q.heap.Keys;
    assert (q.heap - {e}).Keys == q.heap.Keys - {e};
  }

  // ---------- what draining means ----------

  /** The slot ids that the entries `es` report, in order. */
  function SlotsOf(heap: Heap, es: seq<EntryId>): seq<nat>
    requires forall e :: e in es ==> e in heap
  {
    if es == [] then [] else
      (if heap[es[0]].slot != 0 && !heap[es[0]].state.Freed? then [heap[es[0]].slot] else [])
      + SlotsOf(heap, es[1..])
  }

  function NumFreed(heap: Heap, es: seq<EntryId>): nat
    requires forall e :: e in es ==> e in heap
  {
    if es == [] then 0 else (if heap[es[0]].state.Freed? then 1 else 0) + NumFreed(heap, es[1..])
  }

  /** What unlinking does to the entry `e`: freed memory goes, every other entry becomes IDLE. */
  ghost predicate UnlinkedAt(heap: Heap, unlinked: bool, heap': Heap, e: EntryId) {
    if e !in heap || (unlinked && heap[e].state.Freed?) then
      e !in heap'
    else
      e in heap' && heap'[e] == if unlinked then heap[e].(state := Idle) else heap[e]
  }

  /** `heap'` is `heap` after the entries `es` were unlinked. */
  ghost predicate Unlinked(heap: Heap, es: seq<EntryId>, heap': Heap) {
    forall e :: UnlinkedAt(heap, e in es, heap', e)
  }

  lemma SlotsOfHeadUpdate(heap: Heap, heap': Heap, es: seq<EntryId>)
    requires forall e :: e in es ==> e in heap && e in heap' && heap[e] == heap'[e]
    ensures SlotsOf(heap, es) == SlotsOf(heap', es)
    ensures NumFreed(heap, es) == NumFreed(heap', es)
  {
  }

  /** Unlinking the first entry and then the `k` after it unlinks the first `k + 1`. */
  lemma UnlinkFirst(q: Queue, k: nat)
    requires WellLinked(q) && k < |q.items|
    ensures var u := Unlink(q);
      && |u.items| == |q.items| - 1
      && q.items[..k+1] == [q.items[0]] + u.items[..k]
      && q.items[k+1..] == u.items[k..]
      && (forall x :: x in u.items[..k] ==> x in q.heap && x in u.heap && q.heap[x] == u.heap[x])
      && SlotsOf(q.heap, q.items[..k+1])
           == (if Reports(q.heap[q.items[0]]) then [q.heap[q.items[0]].slot] else []) + SlotsOf(u.heap, u.items[..k])
      && NumFreed(q.heap, q.items[..k+1])
           == (if q.heap[q.items[0]].state.Freed? then 1 else 0) + NumFreed(u.heap, u.items[..k])
  {
    var u := Unlink(q);
    UnlinkKeepsLinked(q);
    assert q.items[..k+1] == [q.items[0]] + u.items[..k];
    assert ([q.items[0]] + u.items[..k])[1..] == u.items[..k];
    forall x | x in u.items[..k] ensures x in q.heap && x in u.heap && q.heap[x] == u.heap[x] {
      assert x in u.items;
    }
    SlotsOfHeadUpdate(q.heap, u.heap, u.items[..k]);
  }

  lemma UnlinkedFirst(q: Queue, k: nat, heap': Heap)
    requires WellLinked(q) && k < |q.items|
    requires Unlinked(Unlink(q).heap, Unlink(q).items[..k], heap')
    ensures Unlinked(q.heap, q.items[..k+1], heap')
  {
    UnlinkKeepsLinked(q);
    var u := Unlink(q);
    var e := q.items[0];
    assert q.items[..k+1] == [e] + u.items[..k];
    assert e !in u.items[..k];
    var es, us := q.items[..k+1], u.items[..k];
    forall x ensures UnlinkedAt(q.heap, x in es, heap', x) {
      assert UnlinkedAt(u.heap, x in us, heap', x);
    }
  }

  ghost predicate SameShell(q: Queue, q': Queue) {
    q'.capacity == q.capacity && q'.closed == q.closed && q'.writeFd == q.writeFd
  }

  /** `d` unlinked the first `k` entries of `q`, reported what they report in order, and stopped
  early only because the batch was full. */
  ghost predicate IsBatch(q: Queue, max: nat, d: Drained, k: nat)
    requires WellLinked(q)
  {
    && k <= |q.items|
    && d.queue.items == q.items[k..]
    && d.slots == SlotsOf(q.heap, q.items[..k])
    && d.freed == NumFreed(q.heap, q.items[..k])
    && Unlinked(q.heap, q.items[..k], d.queue.heap)
    && SameShell(q, d.queue)
    && |d.slots| <= max
    && (|d.slots| < max ==> k == |q.items|)
  }

  lemma BatchOfRest(q: Queue, max: nat, k: nat)
    requires WellLinked(q) && q.items != [] && max > 0 && WellLinked(Unlink(q))
    requires var max' := if Reports(q.heap[q.items[0]]) then max - 1 else max;
      IsBatch(Unlink(q), max', Drain(Unlink(q), max'), k)
    ensures IsBatch(q, max, Drain(q, max), k + 1)
  {
    var max' := if Reports(q.heap[q.items[0]]) then max - 1 else max;
    UnlinkFirst(q, k);
    UnlinkedFirst(q, k, Drain(Unlink(q), max').queue.heap);
  }

  /** Every batch is exact. */
  lemma {:induction false} DrainTakesPrefix(q: Queue, max: nat) returns (k: nat)
    requires WellLinked(q)
    ensures IsBatch(q, max, Drain(q, max), k)
    decreases |q.items|
  {
    if max == 0 || q.items == [] {
      k := 0;
      assert q.items[..0] == [];
    } else {
      UnlinkKeepsLinked(q);
      k := DrainTakesPrefix(Unlink(q), if Reports(q.heap[q.items[0]]) then max - 1 else max);
      BatchOfRest(q, max, k);
      k := k + 1;
    }
  }

  /** Closing empties the ring, frees exactly the FREED entries it held, and makes the others IDLE. */
  lemma {:induction false} FlushUnlinksAll(q: Queue)
    requires WellLinked(q)
    ensures var (q', freed) := Flush(q);
      && freed == NumFreed(q.heap, q.items)
      && Unlinked(q.heap, q.items, q'.heap)
      && SameShell(q, q')
    decreases |q.items|
  {
    if q.items != [] {
      UnlinkKeepsLinked(q);
      var u := Unlink(q);
      FlushUnlinksAll(u);
      assert u.items[..|u.items|] == u.items && q.items[..|q.items|] == q.items;
      UnlinkFirst(q, |u.items|);
      UnlinkedFirst(q, |u.items|, Flush(u).0.heap);
    }
  }

  // ---------- how much memory goes ----------

  lemma UnlinkFreesMemory(q: Queue)
    requires WellLinked(q) && q.items != []
    ensures |Unlink(q).heap| == |q.heap| - (if q.heap[q.items[0]].state.Freed? then 1 else 0)
  {
    var e := q.items[0];
    assert (q.heap - {e}).Keys == q.heap.Keys - {e};
    assert q.heap[e := q.heap[e].(state := Idle)].Keys == q.heap.Keys;
  }

  /** A batch frees the memory of exactly `freed` entries. */
  lemma {:induction false} DrainFreesMemory(q: Queue, max: int)
    requires WellLinked(q)
    ensures |Drain(q, max).queue.heap| == |q.heap| - Drain(q, max).freed
    decreases |q.items|
  {
    if max > 0 && q.items != [] {
      UnlinkKeepsLinked(q);
      UnlinkFreesMemory(q);
      DrainFreesMemory(Unlink(q), if Reports(q.heap[q.items[0]]) then max - 1 else max);
    }
  }

  lemma {:induction false} FlushFreesMemory(q: Queue)
    requires WellLinked(q)
    ensures |Flush(q).0.heap| == |q.heap| - Flush(q).1
    decreases |q.items|
  {
    if q.items != [] {
      UnlinkKeepsLinked(q);
      UnlinkFreesMemory(q);
      FlushFreesMemory(Unlink(q));
    }
  }

  // ---------- the drain loop of MPSCAIOEngine._on_notify ----------

  /** A batch that reports something unlinks something. */
  lemma SlotsNeedItems(q: Queue, max: nat)
    requires WellLinked(q)
    ensures |Drain(q, max).queue.items| <= |q.items|
    ensures Drain(q, max).slots != [] ==> |Drain(q, max).queue.items| < |q.items|
  {
    var k := DrainTakesPrefix(q, max);
    assert q.items[..0] == [];
  }

  /** Batches of `max` until one comes back empty. */
  function DrainAll(q: Queue, max: nat): (r: (Queue, seq<nat>))
    requires WellLinked(q) && max > 0
    ensures WellLinked(r.0)
    decreases |q.items|
  {
    var d := Drain(q, max);
    SlotsNeedItems(q, max);
    if d.slots == [] then (d.queue, [])
    else
      var (q', slots) := DrainAll(d.queue, max);
      (q', d.slots + slots)
  }

  lemma {:induction false} SlotsOfConcat(heap: Heap, a: seq<EntryId>, b: seq<EntryId>)
    requires (forall e :: e in a ==> e in heap) && (forall e :: e in b ==> e in heap)
    ensures SlotsOf(heap, a + b) == SlotsOf(heap, a) + SlotsOf(heap, b)
    decreases |a|
  {
    if a == [] {
      assert a + b == b;
    } else {
      var ab := a + b;
      assert ab[0] == a[0] && ab[1..] == a[1..] + b;
      SlotsOfConcat(heap, a[1..], b);
      var head := if Reports(heap[a[0]]) then [heap[a[0]].slot] else [];
      assert head + (SlotsOf(heap, a[1..]) + SlotsOf(heap, b)) == (head + SlotsOf(heap, a[1..])) + SlotsOf(heap, b);
    }
  }

  /** Two consecutive unlinkings of `a` and then `b` unlink `a + b`. */
  lemma UnlinkedTwice(heap: Heap, a: seq<EntryId>, heap': Heap, b: seq<EntryId>, heap'': Heap)
    requires Unlinked(heap, a, heap') && Unlinked(heap', b, heap'')
    requires forall e :: e in b ==> e !in a
    ensures Unlinked(heap, a + b, heap'')
  {
    var ab := a + b;
    forall e ensures UnlinkedAt(heap, e in ab, heap'', e) {
      assert UnlinkedAt(heap, e in a, heap', e);
      assert UnlinkedAt(heap', e in b, heap'', e);
    }
  }

  /** For every batch size the loop reports the slot ids of the whole ring, in completion
  order and each once, and leaves the ring empty. */
  lemma {:induction false} DrainAllIsExact(q: Queue, max: nat)
    requires WellLinked(q) && max > 0
    ensures DrainAll(q, max).0.items == []
    ensures DrainAll(q, max).1 == SlotsOf(q.heap, q.items)
    ensures Unlinked(q.heap, q.items, DrainAll(q, max).0.heap)
    decreases |q.items|
  {
    var d := Drain(q, max);
    var k := DrainTakesPrefix(q, max);
    SlotsNeedItems(q, max);
    var a, b := q.items[..k], q.items[k..];
    assert q.items == a + b;
    if d.slots != [] {
      DrainAllIsExact(d.queue, max);
      SlotsOfConcat(q.heap, a, b);
      forall e | e in b ensures e !in a && e in d.queue.heap && d.queue.heap[e] == q.heap[e] {
        assert UnlinkedAt(q.heap, e in a, d.queue.heap, e);
      }
      SlotsOfHeadUpdate(q.heap, d.queue.heap, b);
      UnlinkedTwice(q.heap, a, d.queue.heap, b, DrainAll(q, max).0.heap);
    } else {
      assert a == q.items;
    }
  }

  // ---------- what freeing an entry comes to ----------

  function Without(es: seq<EntryId>, e: EntryId): seq<EntryId> {
    if es == [] then [] else (if es[0] == e then [] else [es[0]]) + Without(es[1..], e)
  }

  lemma {:induction false} WithoutMembers(es: seq<EntryId>, e: EntryId)
    ensures forall x :: x in Without(es, e) <==> x in es && x != e
  {
    if es != [] {
      WithoutMembers(es[1..], e);
    }
  }

  /** A linked entry that is freed reports nothing. */
  lemma {:induction false} FreedReportsNothing(heap: Heap, heap': Heap, es: seq<EntryId>, e: EntryId)
    requires forall x :: x in es ==> x in heap && x in heap' && (x != e ==> heap'[x] == heap[x])
    requires e in es ==> heap'[e].state.Freed?
    requires forall x :: x in Without(es, e) ==> x in heap
    ensures SlotsOf(heap', es) == SlotsOf(heap, Without(es, e))
  {
    if es != [] {
      WithoutMembers(es[1..], e);
      FreedReportsNothing(heap, heap', es[1..], e);
      if es[0] != e {
        assert Without(es, e) == [es[0]] + Without(es[1..], e);
        assert Without(es, e)[1..] == Without(es[1..], e);
      } else {
        assert Without(es, e) == Without(es[1..], e);
      }
    }
  }

  lemma {:induction false} OneMoreFreed(heap: Heap, heap': Heap, es: seq<EntryId>, e: EntryId)
    requires forall x :: x in es ==> x in heap && x in heap' && (x != e ==> heap'[x] == heap[x])
    requires forall i, j :: 0 <= i < j < |es| ==> es[i] != es[j]
    requires e in es ==> heap'[e].state.Freed? && !heap[e].state.Freed?
    ensures NumFreed(heap', es) == NumFreed(heap, es) + if e in es then 1 else 0
  {
    if es != [] {
      OneMoreFreed(heap, heap', es[1..], e);
      assert es[0] == e ==> e !in es[1..];
    }
  }

  predicate CanFree(q: Queue, e: EntryId) {
    e in q.heap && !q.heap[e].state.Freed? && (e in q.items <==> !q.heap[e].state.Idle?)
  }

  /** Freeing an entry changes no other; one that is not in the ring is gone at once. */
  lemma FreeingChangesOne(q: Queue, e: EntryId)
    requires WellLinked(q) && CanFree(q, e)
    ensures var f := FreeEntry(q, e);
      && WellLinked(f) && f.items == q.items && (e in f.heap <==> e in q.items)
      && (e in f.heap ==> f.heap[e].state.Freed?)
      && f.heap - {e} == q.heap - {e}
    ensures forall x :: x in Without(q.items, e) ==> x in q.heap
  {
    FreeKeepsLinked(q, e);
    WithoutMembers(q.items, e);
  }

  lemma SameButFreed(heap: Heap, freed: Heap, es: seq<EntryId>, e: EntryId, end: Heap, end': Heap)
    requires freed - {e} == heap - {e} && (e in freed ==> e in es && freed[e].state.Freed?)
    requires Unlinked(heap, es, end) && Unlinked(freed, es, end')
    ensures e !in end' && end' == end - {e}
  {
    assert UnlinkedAt(freed, e in es, end', e);
    forall x | x != e ensures x in end' <==> x in end
      ensures x in end ==> x in end' && end'[x] == end[x]
    {
      assert x in heap <==> x in heap - {e};
      assert x in freed <==> x in freed - {e};
      assert x in heap ==> (heap - {e})[x] == heap[x] == (freed - {e})[x] == freed[x];
      assert UnlinkedAt(heap, x in es, end, x) && UnlinkedAt(freed, x in es, end', x);
    }
  }

  /** Whoever empties the ring frees the memory of an entry that was freed while it was linked.  The
  drain loop reports the other entries as if that one had never been there. */
  lemma FreedEntryIsDrained(q: Queue, e: EntryId, max: nat)
    requires WellLinked(q) && CanFree(q, e) && max > 0
    ensures WellLinked(FreeEntry(q, e)) && forall x :: x in Without(q.items, e) ==> x in q.heap
    ensures var (d, slots) := DrainAll(FreeEntry(q, e), max);
      && slots == SlotsOf(q.heap, Without(q.items, e))
      && d.items == [] && e !in d.heap && d.heap == DrainAll(q, max).0.heap - {e}
  {
    FreeingChangesOne(q, e);
    var f := FreeEntry(q, e);
    FreedReportsNothing(q.heap, f.heap, q.items, e);
    DrainAllIsExact(f, max);
    DrainAllIsExact(q, max);
    SameButFreed(q.heap, f.heap, q.items, e, DrainAll(q, max).0.heap, DrainAll(f, max).0.heap);
  }

  /** A close frees it too, and counts one release more than without it. */
  lemma FreedEntryIsClosed(q: Queue, e: EntryId)
    requires WellLinked(q) && CanFree(q, e)
    ensures WellLinked(FreeEntry(q, e))
    ensures var (c, freed) := Close(FreeEntry(q, e));
      && freed == Close(q).1 + (if e in q.items then 1 else 0)
      && c.items == [] && e !in c.heap && c.heap == Close(q).0.heap - {e}
  {
    FreeingChangesOne(q, e);
    var f := FreeEntry(q, e);
    OneMoreFreed(q.heap, f.heap, q.items, e);
    FlushUnlinksAll(q.(closed := true, writeFd := -1));
    FlushUnlinksAll(f.(closed := true, writeFd := -1));
    SameButFreed(q.heap, f.heap, q.items, e, Close(q).0.heap, Close(f).0.heap);
  }
}
