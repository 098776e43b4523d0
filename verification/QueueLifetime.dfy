/** Every interleaving of the threads that share one completion queue: nng workers that complete
entries, the event loop's reader callback, helpers that free entries, and the engine that closes
and frees the queue.  A region that holds the queue lock is one step; code outside it is split
wherever another thread can run. */
module QueueLifetime {
  import opened Wrappers
  import opened CompletionSpec
  import Spec = CompletionSpec

  // The engine's reference, through pynng_mpsc_queue_free.
  datatype Owner = Holding | FreeCalled | FreeClosed(freed: nat) | LastRelease | Gone

  // The reader callback: after it emptied the pipe it drains until a batch is empty.
  datatype Handler = Waiting | Draining | Releasing(freed: nat, count: nat)

  datatype State = State(
    q: Queue,
    refs: int,
    destroying: bool,             // a release took refs to 0 and has not destroyed the queue yet
    destroyed: nat,               // how often the queue's memory was released
    owner: Owner,
    handler: Handler,
    callbacks: multiset<EntryId>, // completion callbacks that have not taken the lock yet
    writer: Option<EntryId>,      // the callback that holds the lock between its push and its write
    owned: set<EntryId>,          // entries a helper still uses
    freeing: set<EntryId>,        // entry_free called, lock not taken yet
    unlocked: set<EntryId>,       // entry_free found IDLE, left the lock and frees the memory next
    releases: seq<nat>,           // releases still to be made outside the lock; 0 once made
    stranded: set<EntryId>,       // QUEUED by a completion whose growth failed, so never linked
    wake: nat,                    // unread bytes in the wake pipe
    wakeCap: nat,
    fdOpen: bool,
    fault: bool)                  // freed memory was used, or a closed descriptor was written

  datatype Step =
    | EntryNew(e: EntryId, slot: nat)
    | SetSlot(e: EntryId, slot: nat)
    | Callback(e: EntryId)
    | CompleteLocked(e: EntryId, mallocOk: bool)
    | CompleteWrite
    | FreeCall(e: EntryId)
    | FreeLocked(e: EntryId)
    | FreeMemory(e: EntryId)
    | Release(i: nat)
    | Destroy
    | NotifyRead(n: nat)
    | DrainLocked(max: nat)
    | DrainReturn
    | EngineClose
    | CloseFd
    | QueueFree
    | QueueFreeClose
    | QueueFreeRelease
    | QueueFreeLast

  predicate Initial(s: State) {
    && s.q == Queue([], INITIAL_CAPACITY, false, s.q.writeFd, map[]) && s.q.writeFd >= 0
    && s.refs == 1 && !s.destroying && s.destroyed == 0
    && s.owner.Holding? && s.handler.Waiting?
    && s.callbacks == multiset{} && s.writer.None?
    && s.owned == {} && s.freeing == {} && s.unlocked == {} && s.releases == [] && s.stranded == {}
    && s.wake == 0 && s.wakeCap > 0 && s.fdOpen && !s.fault
  }

  /** When a thread can take a step.  The only conditions on memory are those a caller keeps:
  entries are made through a live engine, callbacks run only for an aio that is not freed, and an
  entry is freed once, after its aio's last callback returned. */
  predicate Enabled(s: State, step: Step) {
    match step
    case EntryNew(e, _) => s.owner.Holding? && e !in s.q.heap
    case SetSlot(e, _) => e in s.owned
    case Callback(e) => e in s.owned
    case CompleteLocked(e, _) => e in s.callbacks && s.writer.None?
    case CompleteWrite => s.writer.Some?
    case FreeCall(e) => e in s.owned && e !in s.callbacks && s.writer != Some(e)
    case FreeLocked(e) => e in s.freeing && s.writer.None?
    case FreeMemory(e) => e in s.unlocked
    case Release(i) => i < |s.releases| && s.releases[i] > 0
    case Destroy => s.destroying
    case NotifyRead(n) => s.owner.Holding? && s.handler.Waiting? && s.fdOpen && n > 0
    case DrainLocked(max) => s.handler.Draining? && max > 0 && s.writer.None?
    case DrainReturn => s.handler.Releasing?
    case EngineClose => s.owner.Holding? && s.writer.None?
    case CloseFd => s.owner.Holding? && s.q.closed
    case QueueFree => s.owner.Holding? && s.handler.Waiting?
    case QueueFreeClose => s.owner.FreeCalled? && s.writer.None?
    case QueueFreeRelease => s.owner.FreeClosed?
    case QueueFreeLast => s.owner.LastRelease?
  }

  // ---------- steps ----------

  /** Uses the queue's memory. */
  function Touch(s: State): State {
    s.(fault := s.fault || s.destroying || s.destroyed > 0)
  }

  /** Uses an entry's memory. */
  function Deref(s: State, e: EntryId): State {
    s.(fault := s.fault || e !in s.q.heap)
  }

  /** _pynng_mpsc_queue_release: the thread that takes the count to 0 destroys the queue. */
  function Drop(s: State, n: nat): State {
    if n == 0 then s
    else Touch(s).(refs := s.refs - n, destroying := s.destroying || s.refs == n)
  }

  function SetEntry(s: State, e: EntryId, entry: Entry): State {
    s.(q := s.q.(heap := s.q.heap[e := entry]))
  }

  function NewStep(s: State, e: EntryId, slot: nat): State {
    SetEntry(Touch(s), e, Entry(slot, Idle)).(refs := s.refs + 1, owned := s.owned + {e})
  }

  function SetSlotStep(s: State, e: EntryId, slot: nat): State {
    if e in s.q.heap then SetEntry(s, e, s.q.heap[e].(slot := slot)) else Deref(s, e)
  }

  function CallbackStep(s: State, e: EntryId): State {
    Deref(s, e).(callbacks := s.callbacks + multiset{e})
  }

  function CompleteStep(s: State, e: EntryId, mallocOk: bool): State {
    var s' := Touch(Deref(s, e)).(callbacks := s.callbacks - multiset{e});
    if e !in s.q.heap || !Accepts(s.q, e) then s'
    else s'.(q := Link(s.q, e, mallocOk), writer := Some(e),
             stranded := if FailsToGrow(s, CompleteLocked(e, mallocOk)) then s.stranded + {e} else s.stranded)
  }

  function WriteStep(s: State): State {
    var s' := Touch(s).(writer := None);
    if s.q.writeFd < 0 then s'
    else s'.(fault := s'.fault || !s.fdOpen, wake := if s.wake < s.wakeCap then s.wake + 1 else s.wake)
  }

  function FreeCallStep(s: State, e: EntryId): State {
    var s' := s.(owned := s.owned - {e}, freeing := s.freeing + {e});
    if e in s.q.heap then SetEntry(s', e, s.q.heap[e].(slot := 0)) else Deref(s', e)
  }

  function FreeLockedStep(s: State, e: EntryId): State {
    var s' := Touch(Deref(s, e)).(freeing := s.freeing - {e});
    if e !in s.q.heap then s'
    else SetEntry(s', e, s.q.heap[e].(state := Freed))
           .(unlocked := if s.q.heap[e].state.Idle? then s.unlocked + {e} else s.unlocked)
  }

  function FreeMemoryStep(s: State, e: EntryId): State {
    Deref(s, e).(q := s.q.(heap := s.q.heap - {e}), unlocked := s.unlocked - {e}, releases := s.releases + [1])
  }

  function ReleaseStep(s: State, i: nat): State {
    if i < |s.releases| then Drop(s, s.releases[i]).(releases := s.releases[i := 0]) else s
  }

  function DestroyStep(s: State): State {
    s.(destroying := false, destroyed := s.destroyed + 1, fault := s.fault || s.destroyed > 0)
  }

  function NotifyStep(s: State, n: nat): State {
    s.(handler := Draining, wake := if s.wake <= n then 0 else s.wake - n)
  }

  ghost function DrainStep(s: State, max: nat): State {
    if !WellLinked(s.q) then s.(fault := true)
    else
      var d := Drain(s.q, max);
      Touch(s).(q := d.queue, handler := Releasing(d.freed, |d.slots|))
  }

  function DrainReturnStep(s: State): State {
    if !s.handler.Releasing? then s
    else Drop(s, s.handler.freed).(handler := if s.handler.count == 0 then Waiting else Draining)
  }

  ghost function EngineCloseStep(s: State): State {
    if !WellLinked(s.q) then s.(fault := true)
    else Touch(s).(q := Spec.Close(s.q).0, releases := s.releases + [Spec.Close(s.q).1])
  }

  ghost function FreeCloseStep(s: State): State {
    if !WellLinked(s.q) then s.(fault := true)
    else Touch(s).(q := Spec.Close(s.q).0, owner := FreeClosed(Spec.Close(s.q).1))
  }

  function FreeReleaseStep(s: State): State {
    if !s.owner.FreeClosed? then s else Drop(s, s.owner.freed).(owner := LastRelease)
  }

  ghost function Apply(s: State, step: Step): State {
    match step
    case EntryNew(e, slot) => NewStep(s, e, slot)
    case SetSlot(e, slot) => SetSlotStep(s, e, slot)
    case Callback(e) => CallbackStep(s, e)
    case CompleteLocked(e, mallocOk) => CompleteStep(s, e, mallocOk)
    case CompleteWrite => WriteStep(s)
    case FreeCall(e) => FreeCallStep(s, e)
    case FreeLocked(e) => FreeLockedStep(s, e)
    case FreeMemory(e) => FreeMemoryStep(s, e)
    case Release(i) => ReleaseStep(s, i)
    case Destroy => DestroyStep(s)
    case NotifyRead(n) => NotifyStep(s, n)
    case DrainLocked(max) => DrainStep(s, max)
    case DrainReturn => DrainReturnStep(s)
    case EngineClose => EngineCloseStep(s)
    case CloseFd => s.(fdOpen := false)
    case QueueFree => s.(owner := FreeCalled)
    case QueueFreeClose => FreeCloseStep(s)
    case QueueFreeRelease => FreeReleaseStep(s)
    case QueueFreeLast => Drop(s, 1).(owner := Gone)
  }

  /** A completion that finds the ring full and cannot get memory for a larger one. */
  predicate FailsToGrow(s: State, step: Step) {
    && step.CompleteLocked?
    && step.e in s.q.heap && Accepts(s.q, step.e)
    && |s.q.items| == s.q.capacity && !step.mallocOk
  }

  // ---------- the invariant ----------

  function Sum(ns: seq<nat>): nat {
    if ns == [] then 0 else ns[0] + Sum(ns[1..])
  }

  function OwnerRefs(o: Owner): nat {
    match o
    case Holding => 1
    case FreeCalled => 1
    case FreeClosed(freed) => 1 + freed
    case LastRelease => 1
    case Gone => 0
  }

  function HandlerRefs(h: Handler): nat {
    if h.Releasing? then h.freed else 0
  }

  /** The reference count is the owner's reference, plus one per allocated entry, plus the
  releases that a thread has still to make outside the lock. */
  predicate RefsExact(s: State) {
    s.refs == OwnerRefs(s.owner) + |s.q.heap| + Sum(s.releases) + HandlerRefs(s.handler)
  }

  predicate DestroyedOnce(s: State) {
    && s.destroyed <= 1
    && (s.destroying || s.destroyed == 1 <==> s.refs == 0)
    && !(s.destroying && s.destroyed == 1)
  }

  predicate InUse(s: State, e: EntryId) {
    e in s.owned || e in s.freeing
  }

  /** Where one allocated entry stands. */
  predicate EntryOk(s: State, e: EntryId)
    requires e in s.q.heap
  {
    match s.q.heap[e].state
    case Idle => InUse(s, e) && e !in s.unlocked && e !in s.q.items && e !in s.stranded
    case Queued => InUse(s, e) && e !in s.unlocked && (e in s.q.items <==> e !in s.stranded)
    case Freed =>
      && !InUse(s, e)
      && (e in s.q.items ==> e !in s.unlocked && e !in s.stranded)
      && (e in s.unlocked ==> e !in s.stranded)
      && (e in s.q.items || e in s.unlocked || e in s.stranded)
  }

  ghost predicate Entries(s: State) {
    && WellLinked(s.q)
    && (forall e {:trigger EntryOk(s, e)} :: e in s.q.heap ==> EntryOk(s, e))
    && s.owned <= s.q.heap.Keys && s.freeing <= s.q.heap.Keys && s.unlocked <= s.q.heap.Keys
    && s.stranded <= s.q.heap.Keys
    && s.owned !! s.freeing
    && (forall e :: e in s.callbacks ==> e in s.owned)
    && (s.writer.Some? ==> s.writer.value in s.owned)
  }

  predicate Closing(s: State) {
    && (s.q.closed ==> s.q.items == [] && s.writer.None?)
    && (!s.q.closed ==> s.q.writeFd >= 0 && s.fdOpen)
    && (s.q.closed ==> s.q.writeFd < 0)
    && (s.owner.FreeClosed? || s.owner.LastRelease? || s.owner.Gone? ==> s.q.closed)
    && (!s.handler.Waiting? ==> s.owner.Holding?)
  }

  /** Somebody will look at the ring: a byte is unread, a completer is about to write one, or the
  handler has read the pipe and has not yet seen an empty batch. */
  predicate SomeoneWillDrain(s: State) {
    s.wake > 0 || s.writer.Some? || s.handler.Draining? || (s.handler.Releasing? && s.handler.count > 0)
  }

  predicate WakeKept(s: State) {
    && s.wakeCap > 0
    && (s.q.items != [] ==> SomeoneWillDrain(s))
  }

  /** Everything but the entries. */
  predicate Frame(s: State) {
    !s.fault && RefsExact(s) && DestroyedOnce(s) && Closing(s) && WakeKept(s)
  }

  ghost predicate Inv(s: State) {
    Frame(s) && Entries(s)
  }

  lemma InitialInv(s: State)
    requires Initial(s)
    ensures Inv(s)
  {
  }

  // ---------- counting ----------

  lemma {:induction false} SumAppend(ns: seq<nat>, n: nat)
    ensures Sum(ns + [n]) == Sum(ns) + n
  {
    if ns == [] {
      assert ns + [n] == [n];
    } else {
      assert (ns + [n])[1..] == ns[1..] + [n];
      SumAppend(ns[1..], n);
    }
  }

  lemma {:induction false} SumClear(ns: seq<nat>, i: nat)
    requires i < |ns|
    ensures ns[i] <= Sum(ns)
    ensures Sum(ns[i := 0]) == Sum(ns) - ns[i]
  {
    if i == 0 {
      assert ns[0 := 0][1..] == ns[1..];
    } else {
      assert ns[i := 0][1..] == ns[1..][i-1 := 0];
      SumClear(ns[1..], i - 1);
    }
  }

  lemma HeapSize(heap: Heap, e: EntryId, entry: Entry)
    ensures |heap[e := entry]| == if e in heap then |heap| else |heap| + 1
    ensures |heap - {e}| == if e in heap then |heap| - 1 else |heap|
    ensures e in heap ==> |heap| > 0
  {
    assert heap[e := entry].Keys == heap.Keys + {e};
    assert (heap - {e}).Keys == heap.Keys - {e};
  }

  // ---------- what each step keeps ----------

  /** A step that leaves the queue and its users alone leaves the entries as they are. */
  lemma SameEntries(s: State, s': State)
    requires Entries(s) && s'.q.heap == s.q.heap && s'.q.items == s.q.items && s'.q.capacity == s.q.capacity
    requires s'.owned == s.owned && s'.freeing == s.freeing && s'.unlocked == s.unlocked && s'.stranded == s.stranded
    requires forall e :: e in s'.callbacks ==> e in s.owned
    requires s'.writer.Some? ==> s'.writer.value in s.owned
    ensures Entries(s')
  {
    forall e | e in s'.q.heap ensures EntryOk(s', e) {
      assert EntryOk(s, e);
    }
  }

  lemma EntriesEntryNew(s: State, e: EntryId, slot: nat)
    requires Entries(s) && e !in s.q.heap
    ensures Entries(NewStep(s, e, slot))
  {
    var s' := NewStep(s, e, slot);
    forall x | x in s'.q.heap ensures EntryOk(s', x) {
      assert x != e ==> EntryOk(s, x);
    }
  }

  lemma KeepsEntryNew(s: State, e: EntryId, slot: nat)
    requires Inv(s) && Enabled(s, EntryNew(e, slot))
    ensures Inv(NewStep(s, e, slot))
  {
    HeapSize(s.q.heap, e, Entry(slot, Idle));
    EntriesEntryNew(s, e, slot);
  }

  lemma KeepsSetSlot(s: State, e: EntryId, slot: nat)
    requires Inv(s) && Enabled(s, SetSlot(e, slot))
    ensures Inv(SetSlotStep(s, e, slot))
  {
    HeapSize(s.q.heap, e, s.q.heap[e].(slot := slot));
    var s' := SetSlotStep(s, e, slot);
    forall x | x in s'.q.heap ensures EntryOk(s', x) {
      assert EntryOk(s, x);
    }
  }

  lemma EntriesCompleteLocked(s: State, e: EntryId, mallocOk: bool)
    requires Entries(s) && Enabled(s, CompleteLocked(e, mallocOk)) && e in s.q.heap && Accepts(s.q, e)
    ensures Entries(CompleteStep(s, e, mallocOk))
  {
    var s' := CompleteStep(s, e, mallocOk);
    LinkKeepsLinked(s.q, e, mallocOk);
    assert EntryOk(s, e);
    forall x | x in s'.q.heap ensures EntryOk(s', x) {
      assert EntryOk(s, x);
      assert x != e ==> (x in s'.q.items <==> x in s.q.items);
    }
  }

  lemma FrameCompleteLocked(s: State, e: EntryId, mallocOk: bool)
    requires Inv(s) && Enabled(s, CompleteLocked(e, mallocOk))
    ensures Frame(CompleteStep(s, e, mallocOk))
  {
    HeapSize(s.q.heap, e, s.q.heap[e].(state := Queued));
  }

  lemma KeepsCompleteLocked(s: State, e: EntryId, mallocOk: bool)
    requires Inv(s) && Enabled(s, CompleteLocked(e, mallocOk))
    ensures Inv(CompleteStep(s, e, mallocOk))
  {
    FrameCompleteLocked(s, e, mallocOk);
    if Accepts(s.q, e) {
      EntriesCompleteLocked(s, e, mallocOk);
    } else {
      SameEntries(s, CompleteStep(s, e, mallocOk));
    }
  }

  lemma KeepsCompleteWrite(s: State)
    requires Inv(s) && Enabled(s, CompleteWrite)
    ensures Inv(WriteStep(s))
  {
    HeapSize(s.q.heap, s.writer.value, s.q.heap[s.writer.value]);
    SameEntries(s, WriteStep(s));
  }

  lemma KeepsFreeCall(s: State, e: EntryId)
    requires Inv(s) && Enabled(s, FreeCall(e))
    ensures Inv(FreeCallStep(s, e))
  {
    HeapSize(s.q.heap, e, s.q.heap[e].(slot := 0));
    var s' := FreeCallStep(s, e);
    forall x | x in s'.q.heap ensures EntryOk(s', x) {
      assert EntryOk(s, x);
    }
  }

  lemma KeepsFreeLocked(s: State, e: EntryId)
    requires Inv(s) && Enabled(s, FreeLocked(e))
    ensures Inv(FreeLockedStep(s, e))
  {
    HeapSize(s.q.heap, e, s.q.heap[e].(state := Freed));
    var s' := FreeLockedStep(s, e);
    assert EntryOk(s, e);
    forall x | x in s'.q.heap ensures EntryOk(s', x) {
      assert EntryOk(s, x);
    }
  }

  lemma KeepsFreeMemory(s: State, e: EntryId)
    requires Inv(s) && Enabled(s, FreeMemory(e))
    ensures Inv(FreeMemoryStep(s, e))
  {
    HeapSize(s.q.heap, e, s.q.heap[e]);
    SumAppend(s.releases, 1);
    var s' := FreeMemoryStep(s, e);
    assert EntryOk(s, e);
    forall x | x in s'.q.heap ensures EntryOk(s', x) {
      assert EntryOk(s, x);
    }
  }

  lemma KeepsRelease(s: State, i: nat)
    requires Inv(s) && Enabled(s, Release(i))
    ensures Inv(ReleaseStep(s, i))
  {
    SumClear(s.releases, i);
    SameEntries(s, ReleaseStep(s, i));
  }

  lemma DrainKeepsEntry(s: State, q': Queue, taken: seq<EntryId>, e: EntryId)
    requires Entries(s) && s.q.items == taken + q'.items && UnlinkedAt(s.q.heap, e in taken, q'.heap, e)
    ensures e in q'.heap ==> e in s.q.heap && EntryOk(s.(q := q'), e)
    ensures InUse(s, e) || e in s.unlocked || e in s.stranded ==> e in q'.heap
  {
    assert e in s.q.items <==> e in taken || e in q'.items;
    if e in taken && e in q'.items {
      NotTwice(s.q, taken, q'.items, e);
    }
    if e in s.q.heap {
      assert EntryOk(s, e);
    }
  }

  lemma NotTwice(q: Queue, a: seq<EntryId>, b: seq<EntryId>, e: EntryId)
    requires WellLinked(q) && q.items == a + b
    ensures !(e in a && e in b)
  {
    forall i, j | 0 <= i < |a| && 0 <= j < |b| ensures a[i] != b[j] {
      assert q.items[i] == a[i] && q.items[|a| + j] == b[j];
    }
  }

  lemma DrainKeepsEntries(s: State, q': Queue, taken: seq<EntryId>)
    requires Entries(s) && WellLinked(q')
    requires s.q.items == taken + q'.items
    requires Unlinked(s.q.heap, taken, q'.heap)
    ensures Entries(s.(q := q'))
  {
    forall e
      ensures e in q'.heap ==> EntryOk(s.(q := q'), e)
      ensures InUse(s, e) || e in s.unlocked || e in s.stranded ==> e in q'.heap
    {
      DrainKeepsEntry(s, q', taken, e);
    }
  }

  lemma DrainShape(q: Queue, max: nat)
    requires WellLinked(q) && max > 0
    ensures var d := Drain(q, max);
      && SameShell(q, d.queue) && |d.queue.heap| == |q.heap| - d.freed
      && |d.queue.items| <= |q.items| && (|d.slots| == 0 ==> d.queue.items == [])
  {
    var _ := DrainTakesPrefix(q, max);
    DrainFreesMemory(q, max);
  }

  lemma EntriesDrained(s: State, max: nat)
    requires Entries(s)
    ensures Entries(s.(q := Drain(s.q, max).queue))
  {
    var k := DrainTakesPrefix(s.q, max);
    assert s.q.items == s.q.items[..k] + s.q.items[k..];
    DrainKeepsEntries(s, Drain(s.q, max).queue, s.q.items[..k]);
  }

  lemma FrameDrained(s: State, d: Drained)
    requires Frame(s) && s.handler.Draining? && s.writer.None?
    requires SameShell(s.q, d.queue) && |d.queue.heap| == |s.q.heap| - d.freed
    requires |d.queue.items| <= |s.q.items| && (|d.slots| == 0 ==> d.queue.items == [])
    ensures Touch(s) == s && Frame(s.(q := d.queue, handler := Releasing(d.freed, |d.slots|)))
  {
  }

  lemma KeepsDrainLocked(s: State, max: nat)
    requires Inv(s) && Enabled(s, DrainLocked(max))
    ensures Inv(DrainStep(s, max))
  {
    var d := Drain(s.q, max);
    DrainShape(s.q, max);
    FrameDrained(s, d);
    EntriesDrained(s, max);
    SameEntries(s.(q := d.queue), DrainStep(s, max));
  }

  lemma CloseKeepsEntries(s: State)
    requires Entries(s)
    ensures var (q', freed) := Spec.Close(s.q);
      && Entries(s.(q := q'))
      && q'.items == [] && q'.closed && q'.writeFd < 0
      && |q'.heap| == |s.q.heap| - freed
  {
    var q := s.q.(closed := true, writeFd := -1);
    FlushUnlinksAll(q);
    FlushFreesMemory(q);
    assert q.items == q.items + [];
    SameEntries(s, s.(q := q));
    DrainKeepsEntries(s.(q := q), Flush(q).0, q.items);
  }

  lemma KeepsEngineClose(s: State)
    requires Inv(s) && Enabled(s, EngineClose)
    ensures Inv(EngineCloseStep(s))
  {
    CloseKeepsEntries(s);
    SumAppend(s.releases, Spec.Close(s.q).1);
    SameEntries(s.(q := Spec.Close(s.q).0), EngineCloseStep(s));
  }

  lemma KeepsQueueFreeClose(s: State)
    requires Inv(s) && Enabled(s, QueueFreeClose)
    ensures Inv(FreeCloseStep(s))
  {
    CloseKeepsEntries(s);
    SameEntries(s.(q := Spec.Close(s.q).0), FreeCloseStep(s));
  }
}
