/** Pooled asynchronous operations on one event loop: helpers (AIOHelper) that register a future,
start an nng operation, wait for the future and go back to a pool; nng threads that finish
operations; and the reader callback that resolves futures by slot id. */
module OwnCompletion {
  import opened Wrappers
  import opened CompletionSpec
  import opened SlotTable

  // A helper and its native entry have one identity.
  type HelperId = EntryId
  // Every operation waits on a future of its own, so they share an id.
  type OpId = nat
  // The receive or send pool of one socket or context.
  type PoolId = nat

  const MAX_POOL_SIZE: nat := 32

  datatype Phase =
    | Pooled
    | Held                        // taken from the pool or new, no operation
    | Prepared(op: OpId)          // after _prepare_aio
    | Waiting(op: OpId)           // started, inside _wait_for_aio

  // nng's side of the helper's aio, until the completion callback is over.
  datatype NngOp = NoOp | InFlight(op: OpId) | Finished(op: OpId)

  datatype Helper = Helper(
    phase: Phase,
    home: Option<PoolId>,         // none for a DeviceAIO, which is used once
    slot: Option<int>,            // _current_slot
    sending: bool,
    cancelled: bool,
    nng: NngOp,
    queuedBy: Option<OpId>,       // the operation whose completion put the entry into the ring
    reported: bool)               // the current batch holds its slot id

  // One slot id that drain_batch returned, with the helper and operation that it came from.
  datatype Report = Report(slot: nat, op: OpId, helper: HelperId)

  type Slots = map<int, OpId>
  // Which operation's completion resolved the future.
  type Futures = map<OpId, Option<OpId>>

  // What the loop's thread is in the middle of: nothing, `_on_notify`, or an operation between
  // `_prepare_aio` and its start, which have no await between them.
  datatype Loop = Ready | Delivering | Starting(h: HelperId)

  datatype State = State(
    q: Queue,
    slots: Slots,
    counter: int,
    futures: Futures,
    helpers: map<HelperId, Helper>,
    loop: Loop,
    batch: seq<Report>,
    pools: map<PoolId, seq<HelperId>>,
    closed: set<PoolId>)

  datatype Step =
    | New(h: HelperId, home: Option<PoolId>)
    | Acquire(p: PoolId)
    | Prepare(h: HelperId, op: OpId, slot: int, sending: bool)
    | StartFail(h: HelperId)
    | Start(h: HelperId)
    | CancelTask(h: HelperId)
    | Finish(h: HelperId)
    | Push(h: HelperId, mallocOk: bool)
    | Notify
    | DrainOnce(max: nat)
    | DeliverNext
    | Wake(h: HelperId)
    | Release(h: HelperId)
    | CloseSocket(p: PoolId)
    | CloseFree(p: PoolId)

  function Pool(s: State, p: PoolId): seq<HelperId> {
    if p in s.pools then s.pools[p] else []
  }

  /** is_valid_for_current_loop on a live loop. */
  predicate IsValid(s: State, h: HelperId)
    requires h in s.helpers
  {
    s.helpers[h].slot.None? && !s.helpers[h].sending && h in s.q.heap && s.q.heap[h].state.Idle?
  }

  ghost predicate Enabled(s: State, step: Step) {
    match step
    case New(h, home) =>
      s.loop.Ready? && h !in s.helpers && h !in s.q.heap && (home.Some? ==> Pool(s, home.value) == [])
    case Acquire(p) => s.loop.Ready? && Pool(s, p) != []
    case Prepare(h, op, slot, _) =>
      s.loop.Ready? && h in s.helpers && s.helpers[h].phase.Held? && op !in s.futures
      && IsFirstFree(NextCounter(s.counter), s.slots.Keys, slot)
    case StartFail(h) => s.loop == Starting(h) && h in s.helpers && s.helpers[h].phase.Prepared?
    case Start(h) => s.loop == Starting(h) && h in s.helpers && s.helpers[h].phase.Prepared?
    case CancelTask(h) => s.loop.Ready? && h in s.helpers && s.helpers[h].phase.Waiting?
    case Finish(h) => h in s.helpers && s.helpers[h].nng.InFlight?
    case Push(h, _) => h in s.helpers && s.helpers[h].nng.Finished?
    case Notify => s.loop.Ready?
    case DrainOnce(max) => s.loop.Delivering? && s.batch == [] && max > 0
    case DeliverNext => s.loop.Delivering? && s.batch != []
    case Wake(h) =>
      s.loop.Ready? && h in s.helpers && s.helpers[h].phase.Waiting?
      && s.helpers[h].phase.op in s.futures && s.futures[s.helpers[h].phase.op].Some?
    case Release(h) => s.loop.Ready? && h in s.helpers && s.helpers[h].phase.Held?
    case CloseSocket(p) => true
    case CloseFree(p) => p in s.closed && Pool(s, p) != []
  }

  // ---------- steps ----------

  function FreshHelper(home: Option<PoolId>): Helper {
    Helper(Held, home, None, false, false, NoOp, None, false)
  }

  /** The helper `h` and its entry change; so may the slot table and the futures. */
  function Update(s: State, h: HelperId, helper: Helper, entry: Entry, slots: Slots, futures: Futures): State {
    s.(helpers := s.helpers[h := helper], q := s.q.(heap := s.q.heap[h := entry]), slots := slots, futures := futures)
  }

  /** AIOHelper._free: the slot, the aio and the native entry. */
  function Free(s: State, h: HelperId): State
    requires h in s.helpers
  {
    s.(helpers := s.helpers - {h},
       slots := Unregister(s.slots, s.helpers[h].slot),
       q := if h in s.q.heap then FreeEntry(s.q, h) else s.q)
  }

  function Unregister(slots: Slots, slot: Option<int>): Slots {
    if slot.Some? then slots - {slot.value} else slots
  }

  /** The end of an operation: the slot is unregistered and the entry forgets it. */
  function Unprepare(s: State, h: HelperId): State
    requires h in s.helpers
  {
    if h !in s.q.heap then s
    else Update(s, h, s.helpers[h].(phase := Held, slot := None, sending := false, cancelled := false),
                s.q.heap[h].(slot := 0), Unregister(s.slots, s.helpers[h].slot), s.futures).(loop := Ready)
  }

  /** The reports of the entries `es`, in order. */
  function ReportsOf(heap: Heap, es: seq<EntryId>, helpers: map<HelperId, Helper>): seq<Report>
    requires forall e :: e in es ==> e in heap
  {
    if es == [] then [] else
      (if Reports(heap[es[0]]) && es[0] in helpers && helpers[es[0]].queuedBy.Some? then
         [Report(heap[es[0]].slot, helpers[es[0]].queuedBy.value, es[0])]
       else [])
      + ReportsOf(heap, es[1..], helpers)
  }

  function MarkReported(helpers: map<HelperId, Helper>, rs: seq<Report>): map<HelperId, Helper> {
    map h | h in helpers ::
      if exists i :: 0 <= i < |rs| && rs[i].helper == h then Reported(helpers[h]) else helpers[h]
  }

  function Reported(helper: Helper): Helper {
    helper.(queuedBy := None, reported := true)
  }

  function PopPool(s: State, p: PoolId): State
    requires Pool(s, p) != []
  {
    s.(pools := s.pools[p := Pool(s, p)[..|Pool(s, p)| - 1]])
  }

  function LastPooled(s: State, p: PoolId): HelperId
    requires Pool(s, p) != []
  {
    Pool(s, p)[|Pool(s, p)| - 1]
  }

  /** A completion that finds no room in the ring, and no memory for a larger one, is lost. */
  function Pushed(s: State, h: HelperId, mallocOk: bool): Helper
    requires h in s.helpers && s.helpers[h].nng.Finished?
  {
    s.helpers[h].(nng := NoOp,
                  queuedBy := if |s.q.items| < s.q.capacity || mallocOk then Some(s.helpers[h].nng.op) else None)
  }

  /** `_release_recv_helper` and `_release_send_helper`; a DeviceAIO frees itself. */
  predicate IsKept(s: State, h: HelperId)
    requires h in s.helpers
  {
    var home := s.helpers[h].home;
    home.Some? && home.value !in s.closed && |Pool(s, home.value)| < MAX_POOL_SIZE && IsValid(s, h)
  }

  function AcquireStep(s: State, p: PoolId): State
    requires Pool(s, p) != []
  {
    var h := LastPooled(s, p);
    if h !in s.helpers then PopPool(s, p)
    else if IsValid(s, h) then PopPool(s, p).(helpers := s.helpers[h := s.helpers[h].(phase := Held)])
    else Free(PopPool(s, p), h)
  }

  function PrepareStep(s: State, h: HelperId, op: OpId, slot: nat, sending: bool): State
    requires h in s.helpers
  {
    if h !in s.q.heap then s
    else Update(s, h, s.helpers[h].(phase := Prepared(op), slot := Some(slot), sending := sending),
                s.q.heap[h].(slot := slot), s.slots[slot := op], s.futures[op := None])
         .(counter := slot, loop := Starting(h))
  }

  function StartStep(s: State, h: HelperId): State
    requires h in s.helpers && s.helpers[h].phase.Prepared?
  {
    var op := s.helpers[h].phase.op;
    s.(helpers := s.helpers[h := s.helpers[h].(phase := Waiting(op), nng := InFlight(op))], loop := Ready)
  }

  /** pynng_native_aio_complete. */
  function PushStep(s: State, h: HelperId, mallocOk: bool): State
    requires h in s.helpers && s.helpers[h].nng.Finished?
  {
    if h !in s.q.heap || !Accepts(s.q, h) then s.(helpers := s.helpers[h := s.helpers[h].(nng := NoOp)])
    else s.(q := Link(s.q, h, mallocOk), helpers := s.helpers[h := Pushed(s, h, mallocOk)])
  }

  ghost function DrainStep(s: State, max: nat): State {
    if !WellLinked(s.q) then s
    else
      var d := Drain(s.q, max);
      SlotsNeedItems(s.q, max);
      var rs := ReportsOf(s.q.heap, s.q.items[..|s.q.items| - |d.queue.items|], s.helpers);
      s.(q := d.queue, batch := rs, helpers := MarkReported(s.helpers, rs),
         loop := if d.slots == [] then Ready else Delivering)
  }

  function DeliverStep(s: State): State
    requires s.batch != []
  {
    var r := s.batch[0];
    s.(batch := s.batch[1..],
       helpers := if r.helper !in s.helpers then s.helpers
                  else s.helpers[r.helper := s.helpers[r.helper].(reported := false)],
       slots := s.slots - {r.slot},
       futures := if r.slot in s.slots then ResolveBy(s.futures, s.slots[r.slot], r.op) else s.futures)
  }

  function ReleaseStep(s: State, h: HelperId): State
    requires h in s.helpers
  {
    if IsKept(s, h) then
      var p := s.helpers[h].home.value;
      s.(helpers := s.helpers[h := s.helpers[h].(phase := Pooled)], pools := s.pools[p := Pool(s, p) + [h]])
    else
      Free(s, h)
  }

  function CloseFreeStep(s: State, p: PoolId): State
    requires Pool(s, p) != []
  {
    if LastPooled(s, p) in s.helpers then Free(PopPool(s, p), LastPooled(s, p)) else PopPool(s, p)
  }

  ghost function Apply(s: State, step: Step): State
    requires Enabled(s, step)
  {
    match step
    case New(h, home) => Update(s, h, FreshHelper(home), Entry(0, Idle), s.slots, s.futures)
    case Acquire(p) => AcquireStep(s, p)
    case Prepare(h, op, slot, sending) => PrepareStep(s, h, op, slot, sending)
    case StartFail(h) => Unprepare(s, h)
    case Start(h) => StartStep(s, h)
    case CancelTask(h) => s.(helpers := s.helpers[h := s.helpers[h].(cancelled := true)])
    case Finish(h) => s.(helpers := s.helpers[h := s.helpers[h].(nng := Finished(s.helpers[h].nng.op))])
    case Push(h, mallocOk) => PushStep(s, h, mallocOk)
    case Notify => s.(loop := Delivering)
    case DrainOnce(max) => DrainStep(s, max)
    case DeliverNext => DeliverStep(s)
    case Wake(h) => Unprepare(s, h)
    case Release(h) => ReleaseStep(s, h)
    case CloseSocket(p) => s.(closed := s.closed + {p})
    case CloseFree(p) => CloseFreeStep(s, p)
  }

  /** `fut.set_result(None)` unless the future is done. */
  function ResolveBy(futures: Futures, f: OpId, op: OpId): Futures {
    if f in futures && futures[f].None? then futures[f := Some(op)] else futures
  }

  predicate Initial(s: State) {
    && s.q == Queue([], INITIAL_CAPACITY, false, s.q.writeFd, map[])
    && s.slots == map[] && s.counter == 0 && s.futures == map[]
    && s.helpers == map[] && s.loop.Ready? && s.batch == [] && s.pools == map[] && s.closed == {}
  }

  // ---------- the invariant ----------

  /** The completion of the helper's operation can still be delivered: it is in nng, in the ring or
  in the batch, or the operation has not started yet. */
  predicate ToCome(helper: Helper) {
    helper.phase.Prepared? || (helper.phase.Waiting? && (!helper.nng.NoOp? || helper.queuedBy.Some? || helper.reported))
  }

  predicate HasOp(phase: Phase) {
    phase.Prepared? || phase.Waiting?
  }

  /** If the slot id is still in the table then it leads to the helper's own future. */
  predicate Mapped(helper: Helper, slots: Slots)
    requires HasOp(helper.phase)
  {
    helper.slot.Some? && helper.slot.value in slots ==> slots[helper.slot.value] == helper.phase.op
  }

  predicate Quiet(helper: Helper, entry: Entry) {
    helper.nng.NoOp? && entry.state.Idle? && helper.queuedBy.None? && !helper.reported
  }

  predicate OpOk(helper: Helper, entry: Entry, slots: Slots, futures: Futures)
    requires HasOp(helper.phase)
  {
    && helper.slot.Some? && entry.slot == helper.slot.value > 0
    && helper.phase.op in futures
    && (ToCome(helper) ==> futures[helper.phase.op].None? && Mapped(helper, slots))
  }

  /** The completion of a waiting helper's operation is in one place until it is delivered. */
  predicate WaitingOk(helper: Helper, entry: Entry, op: OpId) {
    && (!helper.nng.NoOp? ==> helper.nng.op == op && entry.state.Idle? && helper.queuedBy.None? && !helper.reported)
    && (helper.queuedBy.Some? ==> helper.queuedBy == Some(op) && entry.state.Queued? && !helper.reported)
    && (helper.reported ==> entry.state.Idle?)
  }

  predicate HelperOk(helper: Helper, entry: Entry, slots: Slots, futures: Futures) {
    && !entry.state.Freed?
    && match helper.phase
       case Pooled => helper.slot.None? && !helper.sending && Quiet(helper, entry) && entry.slot == 0
       case Held => helper.slot.None? && !helper.sending && Quiet(helper, entry) && entry.slot == 0
       case Prepared(op) => OpOk(helper, entry, slots, futures) && Quiet(helper, entry)
       case Waiting(op) =>
         && OpOk(helper, entry, slots, futures) && WaitingOk(helper, entry, op)
         && (futures[op].Some? ==> Quiet(helper, entry))
  }

  predicate Apart(a: Helper, b: Helper) {
    && (ToCome(a) && ToCome(b) ==> a.slot != b.slot)
    && (HasOp(a.phase) && HasOp(b.phase) ==> a.phase.op != b.phase.op)
  }

  predicate ReportOk(helpers: map<HelperId, Helper>, r: Report) {
    && r.helper in helpers
    && helpers[r.helper].phase == Waiting(r.op)
    && helpers[r.helper].slot == Some(r.slot)
    && helpers[r.helper].reported
  }

  predicate HelpersOk(s: State) {
    && s.helpers.Keys == s.q.heap.Keys
    && forall h {:trigger HelperOk(s.helpers[h], s.q.heap[h], s.slots, s.futures)} :: h in s.helpers ==>
         HelperOk(s.helpers[h], s.q.heap[h], s.slots, s.futures)
  }

  predicate QueuedExactly(helpers: map<HelperId, Helper>, items: seq<EntryId>) {
    forall h {:trigger QueuedAs(helpers[h], h, items)} :: h in helpers ==> QueuedAs(helpers[h], h, items)
  }

  predicate QueuedAs(helper: Helper, h: HelperId, items: seq<EntryId>) {
    helper.queuedBy.Some? <==> h in items
  }

  predicate AllApart(helpers: map<HelperId, Helper>) {
    forall h, h' {:trigger Apart(helpers[h], helpers[h'])} :: h in helpers && h' in helpers && h != h' ==>
      Apart(helpers[h], helpers[h'])
  }

  predicate BatchOk(helpers: map<HelperId, Helper>, batch: seq<Report>) {
    && (forall i {:trigger ReportOk(helpers, batch[i])} :: 0 <= i < |batch| ==> ReportOk(helpers, batch[i]))
    && (forall i, j :: 0 <= i < j < |batch| ==> batch[i].helper != batch[j].helper)
  }

  /** Every reported helper's slot id is in the batch, and a batch is delivered at once. */
  predicate BatchComplete(helpers: map<HelperId, Helper>, batch: seq<Report>, loop: Loop) {
    && (forall h :: h in helpers && helpers[h].reported ==> h in Batched(batch))
    && (!loop.Delivering? ==> batch == [])
  }

  function Batched(batch: seq<Report>): set<HelperId> {
    set i | 0 <= i < |batch| :: batch[i].helper
  }

  predicate PoolOk(helpers: map<HelperId, Helper>, p: PoolId, pool: seq<HelperId>) {
    && |pool| <= MAX_POOL_SIZE
    && (forall i :: 0 <= i < |pool| ==>
          pool[i] in helpers && helpers[pool[i]].phase.Pooled? && helpers[pool[i]].home == Some(p))
    && (forall i, j :: 0 <= i < j < |pool| ==> pool[i] != pool[j])
  }

  /** Only the operation that the loop is starting is prepared and not started. */
  predicate StartsAtOnce(helpers: map<HelperId, Helper>, loop: Loop) {
    forall h :: h in helpers && helpers[h].phase.Prepared? ==> loop == Starting(h)
  }

  predicate PoolsOk(s: State) {
    forall p {:trigger PoolOk(s.helpers, p, s.pools[p])} :: p in s.pools ==> PoolOk(s.helpers, p, s.pools[p])
  }

  /** Every resolved future was resolved by the completion of its own operation. */
  predicate OwnOnly(futures: Futures) {
    forall f :: f in futures && futures[f].Some? ==> futures[f].value == f
  }

  ghost predicate Inv(s: State) {
    && OwnOnly(s.futures)
    && WellLinked(s.q) && !s.q.closed
    && HelpersOk(s)
    && QueuedExactly(s.helpers, s.q.items)
    && AllApart(s.helpers)
    && BatchOk(s.helpers, s.batch)
    && BatchComplete(s.helpers, s.batch, s.loop)
    && StartsAtOnce(s.helpers, s.loop)
    && PoolsOk(s)
  }

  /** The new operation gets the slot id of a helper whose own completion can still be delivered. */
  predicate HijacksSlot(s: State, step: Step) {
    step.Prepare? && exists h :: h in s.helpers && s.helpers[h].slot == Some(step.slot) && ToCome(s.helpers[h])
  }

  // ---------- what a batch holds ----------

  lemma {:induction false} ReportsOfMember(heap: Heap, es: seq<EntryId>, helpers: map<HelperId, Helper>, r: Report)
    requires forall e :: e in es ==> e in heap
    ensures r in ReportsOf(heap, es, helpers)
      <==> r.helper in es && Reports(heap[r.helper]) && r.helper in helpers && helpers[r.helper].queuedBy.Some?
           && r == Report(heap[r.helper].slot, helpers[r.helper].queuedBy.value, r.helper)
  {
    if es != [] {
      ReportsOfMember(heap, es[1..], helpers, r);
    }
  }

  lemma {:induction false} ReportsOfDistinct(heap: Heap, es: seq<EntryId>, helpers: map<HelperId, Helper>)
    requires forall e :: e in es ==> e in heap
    requires forall i, j :: 0 <= i < j < |es| ==> es[i] != es[j]
    ensures var rs := ReportsOf(heap, es, helpers);
      forall i, j :: 0 <= i < j < |rs| ==> rs[i].helper != rs[j].helper
  {
    if es != [] {
      var rest := ReportsOf(heap, es[1..], helpers);
      ReportsOfDistinct(heap, es[1..], helpers);
      forall i | 0 <= i < |rest| ensures rest[i].helper != es[0] {
        ReportsOfMember(heap, es[1..], helpers, rest[i]);
      }
    }
  }

  /** The reports carry exactly the slot ids that the native drain returns. */
  lemma {:induction false} ReportsAreSlots(heap: Heap, es: seq<EntryId>, helpers: map<HelperId, Helper>)
    requires forall e :: e in es ==> e in heap && e in helpers && helpers[e].queuedBy.Some?
    ensures var rs, slots := ReportsOf(heap, es, helpers), SlotsOf(heap, es);
      |rs| == |slots| && forall i :: 0 <= i < |rs| ==> rs[i].slot == slots[i]
  {
    if es != [] {
      ReportsAreSlots(heap, es[1..], helpers);
    }
  }

  // ---------- changes that concern one helper ----------

  /** Slots and futures that other helpers do not use may change. */
  predicate OthersUnaffected(s: State, h: HelperId, slots: Slots, futures: Futures) {
    forall x {:trigger Unaffected(s, s.helpers[x], slots, futures)} :: x in s.helpers && x != h ==>
      Unaffected(s, s.helpers[x], slots, futures)
  }

  predicate Unaffected(s: State, helper: Helper, slots: Slots, futures: Futures) {
    && (helper.slot.Some? && ToCome(helper) ==> NoneNew(s.slots, slots, helper.slot.value))
    && (HasOp(helper.phase) ==> SameFuture(s.futures, futures, helper.phase.op))
  }

  predicate NoneNew(a: Slots, b: Slots, k: int) {
    k in b ==> k in a && a[k] == b[k]
  }

  predicate SameFuture(a: Futures, b: Futures, k: OpId) {
    (k in a <==> k in b) && (k in a ==> a[k] == b[k])
  }

  lemma UpdateKeepsHelpers(s: State, h: HelperId, helper: Helper, entry: Entry, slots: Slots, futures: Futures)
    requires HelpersOk(s)
    requires HelperOk(helper, entry, slots, futures)
    requires OthersUnaffected(s, h, slots, futures)
    ensures HelpersOk(Update(s, h, helper, entry, slots, futures))
  {
    var s' := Update(s, h, helper, entry, slots, futures);
    forall x | x in s'.helpers ensures HelperOk(s'.helpers[x], s'.q.heap[x], slots, futures) {
      if x != h {
        assert HelperOk(s.helpers[x], s.q.heap[x], s.slots, s.futures);
        assert Unaffected(s, s.helpers[x], slots, futures);
      }
    }
  }

  lemma UpdateKeepsApart(s: State, h: HelperId, helper: Helper)
    requires AllApart(s.helpers)
    requires forall x :: x in s.helpers && x != h ==> Apart(helper, s.helpers[x])
    ensures AllApart(s.helpers[h := helper])
  {
    var helpers := s.helpers[h := helper];
    forall x, y | x in helpers && y in helpers && x != y ensures Apart(helpers[x], helpers[y]) {
      if x != h && y != h {
        assert Apart(s.helpers[x], s.helpers[y]);
      }
    }
  }

  lemma UpdateKeepsBatch(helpers: map<HelperId, Helper>, batch: seq<Report>, h: HelperId, helper: Helper)
    requires BatchOk(helpers, batch)
    requires h in helpers && helpers[h].reported ==>
      helper.reported && helper.phase == helpers[h].phase && helper.slot == helpers[h].slot
    ensures BatchOk(helpers[h := helper], batch)
  {
    forall i | 0 <= i < |batch| ensures ReportOk(helpers[h := helper], batch[i]) {
      assert ReportOk(helpers, batch[i]);
    }
  }

  lemma UpdateKeepsQueued(helpers: map<HelperId, Helper>, items: seq<EntryId>, h: HelperId, helper: Helper)
    requires QueuedExactly(helpers, items) && QueuedAs(helper, h, items)
    ensures QueuedExactly(helpers[h := helper], items)
  {
    forall x | x in helpers && x != h ensures QueuedAs(helpers[x], x, items) {
    }
  }

  lemma UpdateKeepsPools(s: State, h: HelperId, helper: Helper)
    requires PoolsOk(s) && (h in s.helpers ==> !s.helpers[h].phase.Pooled?)
    ensures PoolsOk(s.(helpers := s.helpers[h := helper]))
  {
    var s' := s.(helpers := s.helpers[h := helper]);
    forall p | p in s'.pools ensures PoolOk(s'.helpers, p, s'.pools[p]) {
      assert PoolOk(s.helpers, p, s.pools[p]);
    }
  }

  lemma UpdateKeepsInv(s: State, h: HelperId, helper: Helper, entry: Entry, slots: Slots, futures: Futures, loop: Loop)
    requires Inv(s) && HelperOk(helper, entry, slots, futures) && OwnOnly(futures)
    requires helper.queuedBy.Some? <==> h in s.q.items
    requires OthersUnaffected(s, h, slots, futures)
    requires forall x :: x in s.helpers && x != h ==> Apart(helper, s.helpers[x])
    requires h in s.helpers ==> !s.helpers[h].phase.Pooled?
    requires helper.reported == (h in s.helpers && s.helpers[h].reported)
    requires helper.reported ==> helper.phase == s.helpers[h].phase && helper.slot == s.helpers[h].slot
    requires h in s.q.heap ==> entry.state == s.q.heap[h].state
    requires h !in s.q.heap ==> entry.state.Idle?
    requires helper.phase.Prepared? ==> loop == Starting(h)
    requires loop == s.loop || (s.loop == Ready && loop == Starting(h)) || (s.loop == Starting(h) && loop == Ready)
    ensures Inv(Update(s, h, helper, entry, slots, futures).(loop := loop))
  {
    UpdateKeepsHelpers(s, h, helper, entry, slots, futures);
    UpdateKeepsApart(s, h, helper);
    UpdateKeepsQueued(s.helpers, s.q.items, h, helper);
    UpdateKeepsBatch(s.helpers, s.batch, h, helper);
    UpdateKeepsPools(s, h, helper);
  }

  lemma HelperFacts(s: State, h: HelperId)
    requires Inv(s) && h in s.helpers
    ensures h in s.q.heap && HelperOk(s.helpers[h], s.q.heap[h], s.slots, s.futures)
    ensures s.helpers[h].queuedBy.Some? <==> h in s.q.items
    ensures h in s.q.items ==> !s.q.heap[h].state.Idle?
  {
    assert QueuedAs(s.helpers[h], h, s.q.items);
  }

  // ---------- every step keeps the invariant ----------

  lemma KeepsPrepare(s: State, h: HelperId, op: OpId, slot: int, sending: bool)
    requires Inv(s) && Enabled(s, Prepare(h, op, slot, sending))
    requires !HijacksSlot(s, Prepare(h, op, slot, sending))
    ensures Inv(PrepareStep(s, h, op, slot, sending))
  {
    HelperFacts(s, h);
    var helper := s.helpers[h].(phase := Prepared(op), slot := Some(slot), sending := sending);
    forall x | x in s.helpers && x != h
      ensures s.helpers[x].slot != Some(slot) || !ToCome(s.helpers[x])
      ensures HasOp(s.helpers[x].phase) ==> s.helpers[x].phase.op in s.futures
    {
      HelperFacts(s, x);
    }
    UpdateKeepsInv(s, h, helper, s.q.heap[h].(slot := slot), s.slots[slot := op], s.futures[op := None], Starting(h));
  }

  lemma KeepsUnprepare(s: State, h: HelperId)
    requires Inv(s) && (Enabled(s, StartFail(h)) || Enabled(s, Wake(h)))
    ensures Inv(Unprepare(s, h))
  {
    HelperFacts(s, h);
    var helper := s.helpers[h];
    UpdateKeepsInv(s, h, helper.(phase := Held, slot := None, sending := false, cancelled := false),
                   s.q.heap[h].(slot := 0), Unregister(s.slots, helper.slot), s.futures, Ready);
  }

  /** The helper changes and its entry does not. */
  lemma HelperKeepsInv(s: State, h: HelperId, helper: Helper, loop: Loop)
    requires Inv(s) && h in s.helpers && h in s.q.heap
    requires HelperOk(helper, s.q.heap[h], s.slots, s.futures)
    requires helper.slot == s.helpers[h].slot && HasOp(s.helpers[h].phase) && HasOp(helper.phase)
    requires helper.phase.op == s.helpers[h].phase.op && helper.queuedBy == s.helpers[h].queuedBy
    requires ToCome(helper) ==> ToCome(s.helpers[h])
    requires helper.reported == s.helpers[h].reported
    requires helper.reported ==> helper.phase == s.helpers[h].phase
    requires !helper.phase.Prepared?
    requires loop == s.loop || (s.loop == Starting(h) && loop == Ready)
    ensures Inv(s.(helpers := s.helpers[h := helper], loop := loop))
  {
    forall x | x in s.helpers && x != h ensures Apart(helper, s.helpers[x]) {
      assert Apart(s.helpers[h], s.helpers[x]);
    }
    MoveKeepsHelpers(s, h, helper);
    UpdateKeepsApart(s, h, helper);
    assert QueuedAs(s.helpers[h], h, s.q.items);
    UpdateKeepsQueued(s.helpers, s.q.items, h, helper);
    UpdateKeepsBatch(s.helpers, s.batch, h, helper);
    UpdateKeepsPools(s, h, helper);
  }

  lemma KeepsStart(s: State, h: HelperId)
    requires Inv(s) && Enabled(s, Start(h))
    ensures Inv(StartStep(s, h))
  {
    HelperFacts(s, h);
    HelperKeepsInv(s, h, StartStep(s, h).helpers[h], Ready);
  }

  lemma KeepsCancel(s: State, h: HelperId)
    requires Inv(s) && Enabled(s, CancelTask(h))
    ensures Inv(s.(helpers := s.helpers[h := s.helpers[h].(cancelled := true)]))
  {
    HelperFacts(s, h);
    HelperKeepsInv(s, h, s.helpers[h].(cancelled := true), s.loop);
  }

  lemma KeepsFinish(s: State, h: HelperId)
    requires Inv(s) && Enabled(s, Finish(h))
    ensures Inv(s.(helpers := s.helpers[h := s.helpers[h].(nng := Finished(s.helpers[h].nng.op))]))
  {
    HelperFacts(s, h);
    HelperKeepsInv(s, h, s.helpers[h].(nng := Finished(s.helpers[h].nng.op)), s.loop);
  }

  lemma LinkKeepsQueued(s: State, h: HelperId, mallocOk: bool, helper: Helper)
    requires QueuedExactly(s.helpers, s.q.items) && h in s.q.heap
    requires QueuedAs(helper, h, Link(s.q, h, mallocOk).items)
    ensures QueuedExactly(s.helpers[h := helper], Link(s.q, h, mallocOk).items)
  {
    forall x | x in s.helpers && x != h ensures QueuedAs(s.helpers[x], x, Link(s.q, h, mallocOk).items) {
      assert QueuedAs(s.helpers[x], x, s.q.items);
    }
  }

  lemma LinkKeepsInv(s: State, h: HelperId, mallocOk: bool, helper: Helper)
    requires Inv(s) && h in s.helpers && h in s.q.heap && Accepts(s.q, h)
    requires HelperOk(helper, s.q.heap[h].(state := Queued), s.slots, s.futures)
    requires helper.slot == s.helpers[h].slot && helper.phase == s.helpers[h].phase && HasOp(helper.phase)
    requires helper.reported == s.helpers[h].reported && ToCome(s.helpers[h])
    requires helper.queuedBy.Some? <==> h in Link(s.q, h, mallocOk).items
    ensures Inv(s.(q := Link(s.q, h, mallocOk), helpers := s.helpers[h := helper]))
  {
    LinkKeepsLinked(s.q, h, mallocOk);
    UpdateKeepsHelpers(s, h, helper, s.q.heap[h].(state := Queued), s.slots, s.futures);
    forall x | x in s.helpers && x != h ensures Apart(helper, s.helpers[x]) {
      assert Apart(s.helpers[h], s.helpers[x]);
    }
    UpdateKeepsApart(s, h, helper);
    LinkKeepsQueued(s, h, mallocOk, helper);
    UpdateKeepsBatch(s.helpers, s.batch, h, helper);
    UpdateKeepsPools(s, h, helper);
  }

  lemma KeepsPush(s: State, h: HelperId, mallocOk: bool)
    requires Inv(s) && Enabled(s, Push(h, mallocOk))
    ensures Inv(PushStep(s, h, mallocOk))
  {
    HelperFacts(s, h);
    LinkKeepsLinked(s.q, h, mallocOk);
    LinkKeepsInv(s, h, mallocOk, Pushed(s, h, mallocOk));
  }

  lemma DeliverKeepsBatch(helpers: map<HelperId, Helper>, batch: seq<Report>)
    requires BatchOk(helpers, batch) && BatchComplete(helpers, batch, Delivering) && batch != []
    ensures var h := batch[0].helper;
      && h in helpers
      && BatchOk(helpers[h := helpers[h].(reported := false)], batch[1..])
      && BatchComplete(helpers[h := helpers[h].(reported := false)], batch[1..], Delivering)
  {
    assert ReportOk(helpers, batch[0]);
    var h, rest := batch[0].helper, batch[1..];
    forall i | 0 <= i < |rest| ensures ReportOk(helpers, rest[i]) && rest[i].helper != h {
      assert ReportOk(helpers, batch[i+1]);
    }
    forall x | x in Batched(batch) && x != h ensures x in Batched(rest) {
      var i :| 0 <= i < |batch| && batch[i].helper == x;
      assert rest[i-1].helper == x;
    }
  }

  lemma DeliverKeepsHelpers(s: State)
    requires Inv(s) && Enabled(s, DeliverNext)
    ensures HelpersOk(DeliverStep(s)) && OwnOnly(DeliverStep(s).futures)
  {
    var r := s.batch[0];
    assert ReportOk(s.helpers, r);
    HelperFacts(s, r.helper);
    var helper := s.helpers[r.helper].(reported := false);
    var futures := if r.slot in s.slots then s.futures[r.op := Some(r.op)] else s.futures;
    forall x | x in s.helpers && x != r.helper ensures Apart(helper, s.helpers[x]) {
      assert Apart(s.helpers[r.helper], s.helpers[x]);
    }
    UpdateKeepsHelpers(s, r.helper, helper, s.q.heap[r.helper], s.slots - {r.slot}, futures);
    assert s.q.heap[r.helper := s.q.heap[r.helper]] == s.q.heap;
  }

  lemma KeepsDeliver(s: State)
    requires Inv(s) && Enabled(s, DeliverNext)
    ensures Inv(DeliverStep(s))
  {
    var h := s.batch[0].helper;
    DeliverKeepsBatch(s.helpers, s.batch);
    DeliverKeepsHelpers(s);
    var helper := s.helpers[h].(reported := false);
    forall x | x in s.helpers && x != h ensures Apart(helper, s.helpers[x]) {
      assert Apart(s.helpers[h], s.helpers[x]);
    }
    UpdateKeepsApart(s, h, helper);
    assert ReportOk(s.helpers, s.batch[0]);
    HelperFacts(s, h);
    UpdateKeepsQueued(s.helpers, s.q.items, h, helper);
    UpdateKeepsPools(s, h, helper);
  }

  /** A helper whose entry was taken by a drain: the entry is IDLE again and its slot id is in the batch. */
  lemma TakenHelperOk(s: State, h: HelperId)
    requires Inv(s) && h in s.q.items
    ensures h in s.helpers && h in s.q.heap
    ensures var helper, entry := s.helpers[h], s.q.heap[h];
      && Reports(entry) && helper.phase.Waiting? && helper.queuedBy == Some(helper.phase.op)
      && helper.slot == Some(entry.slot) && entry.state.Queued?
      && HelperOk(Reported(helper), entry.(state := Idle), s.slots, s.futures)
  {
    HelperFacts(s, h);
  }

  lemma DrainMarksTaken(s: State, taken: seq<EntryId>, h: HelperId)
    requires Inv(s) && h in s.helpers && forall e :: e in taken ==> e in s.q.items
    ensures var rs := ReportsOf(s.q.heap, taken, s.helpers);
      MarkReported(s.helpers, rs)[h] == if h in taken then Reported(s.helpers[h]) else s.helpers[h]
  {
    var rs := ReportsOf(s.q.heap, taken, s.helpers);
    forall r ensures r in rs ==> r.helper in taken {
      ReportsOfMember(s.q.heap, taken, s.helpers, r);
    }
    if h in taken {
      TakenHelperOk(s, h);
      var r := Report(s.q.heap[h].slot, s.helpers[h].queuedBy.value, h);
      ReportsOfMember(s.q.heap, taken, s.helpers, r);
      var i :| 0 <= i < |rs| && rs[i] == r;
    }
  }

  lemma DrainKeepsBatch(s: State, taken: seq<EntryId>)
    requires Inv(s) && (forall e :: e in taken ==> e in s.q.items)
    requires forall i, j :: 0 <= i < j < |taken| ==> taken[i] != taken[j]
    ensures var rs := ReportsOf(s.q.heap, taken, s.helpers);
      BatchOk(MarkReported(s.helpers, rs), rs)
  {
    var rs := ReportsOf(s.q.heap, taken, s.helpers);
    ReportsOfDistinct(s.q.heap, taken, s.helpers);
    forall i | 0 <= i < |rs| ensures ReportOk(MarkReported(s.helpers, rs), rs[i]) {
      ReportsOfMember(s.q.heap, taken, s.helpers, rs[i]);
      TakenHelperOk(s, rs[i].helper);
    }
  }

  /** Exactly the helpers whose entries were taken are reported. */
  predicate Marked(helpers: map<HelperId, Helper>, taken: seq<EntryId>, helpers': map<HelperId, Helper>) {
    && helpers'.Keys == helpers.Keys
    && forall h {:trigger MarkedAs(helpers[h], h, taken, helpers'[h])} :: h in helpers ==>
         MarkedAs(helpers[h], h, taken, helpers'[h])
  }

  predicate MarkedAs(helper: Helper, h: HelperId, taken: seq<EntryId>, helper': Helper) {
    helper' == if h in taken then Reported(helper) else helper
  }

  lemma DrainKeepsHelper(s: State, taken: seq<EntryId>, heap': Heap, h: HelperId)
    requires Inv(s) && (forall e :: e in taken ==> e in s.q.items) && Unlinked(s.q.heap, taken, heap')
    ensures h in s.helpers <==> h in heap'
    ensures h in s.helpers ==>
      HelperOk(if h in taken then Reported(s.helpers[h]) else s.helpers[h], heap'[h], s.slots, s.futures)
  {
    assert UnlinkedAt(s.q.heap, h in taken, heap', h);
    if h in taken { TakenHelperOk(s, h); } else if h in s.helpers { HelperFacts(s, h); }
  }

  lemma DrainKeepsHelpers(s: State, taken: seq<EntryId>, q': Queue, helpers': map<HelperId, Helper>)
    requires Inv(s) && (forall e :: e in taken ==> e in s.q.items)
    requires Unlinked(s.q.heap, taken, q'.heap)
    requires Marked(s.helpers, taken, helpers')
    ensures HelpersOk(s.(q := q', helpers := helpers'))
  {
    forall h ensures h in s.helpers <==> h in q'.heap {
      DrainKeepsHelper(s, taken, q'.heap, h);
    }
    forall h | h in helpers' ensures HelperOk(helpers'[h], q'.heap[h], s.slots, s.futures) {
      DrainKeepsHelper(s, taken, q'.heap, h);
      assert MarkedAs(s.helpers[h], h, taken, helpers'[h]);
    }
  }

  lemma DrainKeepsQueued(s: State, taken: seq<EntryId>, q': Queue, helpers': map<HelperId, Helper>)
    requires Inv(s) && s.q.items == taken + q'.items && Marked(s.helpers, taken, helpers')
    ensures QueuedExactly(helpers', q'.items)
  {
    forall i, j | 0 <= i < |taken| && 0 <= j < |q'.items| ensures taken[i] != q'.items[j] {
      assert s.q.items[i] == taken[i] && s.q.items[|taken| + j] == q'.items[j];
    }
    forall h | h in helpers' ensures QueuedAs(helpers'[h], h, q'.items) {
      HelperFacts(s, h);
      assert MarkedAs(s.helpers[h], h, taken, helpers'[h]);
      assert h in s.q.items <==> h in taken || h in q'.items;
    }
  }

  lemma DrainKeepsApart(s: State, taken: seq<EntryId>, helpers': map<HelperId, Helper>)
    requires Inv(s) && (forall e :: e in taken ==> e in s.q.items) && Marked(s.helpers, taken, helpers')
    ensures AllApart(helpers')
  {
    forall h | h in helpers'
      ensures ToCome(helpers'[h]) ==> ToCome(s.helpers[h])
      ensures helpers'[h].slot == s.helpers[h].slot && helpers'[h].phase == s.helpers[h].phase
    {
      assert MarkedAs(s.helpers[h], h, taken, helpers'[h]);
      if h in taken { TakenHelperOk(s, h); }
    }
    forall h, h' | h in helpers' && h' in helpers' && h != h' ensures Apart(helpers'[h], helpers'[h']) {
      assert Apart(s.helpers[h], s.helpers[h']);
    }
  }

  lemma DrainKeepsPools(s: State, taken: seq<EntryId>, helpers': map<HelperId, Helper>)
    requires PoolsOk(s) && Marked(s.helpers, taken, helpers')
    ensures PoolsOk(s.(helpers := helpers'))
  {
    forall p | p in s.pools ensures PoolOk(helpers', p, s.pools[p]) {
      assert PoolOk(s.helpers, p, s.pools[p]);
      forall i | 0 <= i < |s.pools[p]|
        ensures helpers'[s.pools[p][i]].phase.Pooled? && helpers'[s.pools[p][i]].home == Some(p)
      {
        assert MarkedAs(s.helpers[s.pools[p][i]], s.pools[p][i], taken, helpers'[s.pools[p][i]]);
      }
    }
  }

  /** What a drain takes from the ring is what the batch holds. */
  lemma DrainEffect(s: State, max: nat) returns (taken: seq<EntryId>)
    requires WellLinked(s.q) && Enabled(s, DrainOnce(max))
    ensures var d, s' := Drain(s.q, max), DrainStep(s, max);
      && s.q.items == taken + d.queue.items && Unlinked(s.q.heap, taken, d.queue.heap)
      && (forall e :: e in taken ==> e in s.q.heap && e in s.q.items)
      && s'.batch == ReportsOf(s.q.heap, taken, s.helpers)
      && s'.helpers == MarkReported(s.helpers, s'.batch)
      && s' == s.(q := d.queue, batch := s'.batch, helpers := s'.helpers,
                  loop := if d.slots == [] then Ready else Delivering)
      && d.slots == SlotsOf(s.q.heap, taken) && SameShell(s.q, d.queue)
      && (|d.slots| < max ==> taken == s.q.items)
  {
    var k := DrainTakesPrefix(s.q, max);
    taken := s.q.items[..k];
  }

  /** The batch carries exactly the slot ids that the native drain returns. */
  lemma BatchIsSlots(s: State, max: nat)
    requires Inv(s) && Enabled(s, DrainOnce(max))
    ensures var d, batch := Drain(s.q, max), DrainStep(s, max).batch;
      |batch| == |d.slots| && forall i :: 0 <= i < |batch| ==> batch[i].slot == d.slots[i]
  {
    var taken := DrainEffect(s, max);
    forall e | e in taken ensures e in s.q.heap && e in s.helpers && s.helpers[e].queuedBy.Some? {
      TakenHelperOk(s, e);
    }
    ReportsAreSlots(s.q.heap, taken, s.helpers);
  }

  lemma DrainMarks(s: State, taken: seq<EntryId>)
    requires Inv(s) && forall e :: e in taken ==> e in s.q.items
    ensures Marked(s.helpers, taken, MarkReported(s.helpers, ReportsOf(s.q.heap, taken, s.helpers)))
  {
    var helpers' := MarkReported(s.helpers, ReportsOf(s.q.heap, taken, s.helpers));
    forall h | h in s.helpers ensures MarkedAs(s.helpers[h], h, taken, helpers'[h]) {
      DrainMarksTaken(s, taken, h);
    }
  }

  lemma KeepsDrainHelpers(s: State, max: nat)
    requires Inv(s) && Enabled(s, DrainOnce(max))
    ensures var s' := DrainStep(s, max);
      HelpersOk(s') && AllApart(s'.helpers) && QueuedExactly(s'.helpers, s'.q.items) && PoolsOk(s')
  {
    var taken := DrainEffect(s, max);
    var s' := DrainStep(s, max);
    DrainMarks(s, taken);
    DrainKeepsHelpers(s, taken, s'.q, s'.helpers);
    DrainKeepsQueued(s, taken, s'.q, s'.helpers);
    DrainKeepsApart(s, taken, s'.helpers);
    DrainKeepsPools(s, taken, s'.helpers);
  }

  lemma KeepsDrainBatch(s: State, max: nat)
    requires Inv(s) && Enabled(s, DrainOnce(max))
    ensures BatchOk(DrainStep(s, max).helpers, DrainStep(s, max).batch)
  {
    var taken := DrainEffect(s, max);
    forall i, j | 0 <= i < j < |taken| ensures taken[i] != taken[j] {
      assert s.q.items[i] == taken[i] && s.q.items[j] == taken[j];
    }
    DrainKeepsBatch(s, taken);
  }

  lemma KeepsDrainLoop(s: State, max: nat)
    requires Inv(s) && Enabled(s, DrainOnce(max))
    ensures var s' := DrainStep(s, max);
      BatchComplete(s'.helpers, s'.batch, s'.loop) && StartsAtOnce(s'.helpers, s'.loop)
  {
    var _ := DrainEffect(s, max);
    BatchIsSlots(s, max);
  }

  lemma KeepsDrain(s: State, max: nat)
    requires Inv(s) && Enabled(s, DrainOnce(max))
    ensures Inv(DrainStep(s, max))
  {
    var _ := DrainEffect(s, max);
    KeepsDrainHelpers(s, max);
    KeepsDrainBatch(s, max);
    KeepsDrainLoop(s, max);
  }

  // ---------- pools ----------

  /** All of the invariant but the pools, and the pools when `h` has just left one. */
  lemma PopKeepsPools(s: State, p: PoolId)
    requires PoolsOk(s) && Pool(s, p) != []
    ensures var h, s' := LastPooled(s, p), PopPool(s, p);
      && h in s.helpers && s.helpers[h].phase.Pooled? && s.helpers[h].home == Some(p)
      && PoolsOk(s') && NotInPools(s', h)
  {
    var h, s' := LastPooled(s, p), PopPool(s, p);
    assert PoolOk(s.helpers, p, s.pools[p]);
    forall x | x in s'.pools ensures PoolOk(s.helpers, x, s'.pools[x]) && h !in s'.pools[x] {
      assert x != p ==> PoolOk(s.helpers, x, s.pools[x]);
    }
  }

  predicate NotInPools(s: State, h: HelperId) {
    forall p :: p in s.pools ==> h !in s.pools[p]
  }

  lemma FreeKeepsInv(s: State, h: HelperId)
    requires Inv(s) && h in s.helpers && !HasOp(s.helpers[h].phase) && NotInPools(s, h)
    ensures Inv(Free(s, h))
  {
    HelperFacts(s, h);
    var s' := Free(s, h);
    forall x | x in s'.helpers ensures HelperOk(s'.helpers[x], s'.q.heap[x], s'.slots, s'.futures) {
      HelperFacts(s, x);
    }
    forall i | 0 <= i < |s'.batch| ensures ReportOk(s'.helpers, s'.batch[i]) {
      assert ReportOk(s.helpers, s.batch[i]);
    }
    forall p | p in s'.pools ensures PoolOk(s'.helpers, p, s'.pools[p]) {
      assert PoolOk(s.helpers, p, s.pools[p]);
    }
  }

  /** A helper moves between a pool and its user. */
  lemma MoveKeepsInv(s: State, h: HelperId, phase: Phase, pools: map<PoolId, seq<HelperId>>)
    requires Inv(s) && h in s.helpers && !HasOp(s.helpers[h].phase) && !HasOp(phase)
    requires PoolsOk(s.(helpers := s.helpers[h := s.helpers[h].(phase := phase)], pools := pools))
    ensures Inv(s.(helpers := s.helpers[h := s.helpers[h].(phase := phase)], pools := pools))
  {
    HelperFacts(s, h);
    var helper := s.helpers[h].(phase := phase);
    forall x | x in s.helpers && x != h ensures Apart(helper, s.helpers[x]) {
      assert Apart(s.helpers[x], s.helpers[h]);
    }
    MoveKeepsHelpers(s, h, helper);
    UpdateKeepsApart(s, h, helper);
    UpdateKeepsQueued(s.helpers, s.q.items, h, helper);
    UpdateKeepsBatch(s.helpers, s.batch, h, helper);
  }

  lemma MoveKeepsHelpers(s: State, h: HelperId, helper: Helper)
    requires HelpersOk(s) && h in s.helpers && HelperOk(helper, s.q.heap[h], s.slots, s.futures)
    ensures HelpersOk(s.(helpers := s.helpers[h := helper]))
  {
    forall x | x in s.helpers && x != h ensures HelperOk(s.helpers[x], s.q.heap[x], s.slots, s.futures) {
    }
  }

  lemma KeepsAcquire(s: State, p: PoolId)
    requires Inv(s) && Enabled(s, Acquire(p))
    ensures Inv(AcquireStep(s, p))
  {
    PopKeepsPools(s, p);
    var h, s' := LastPooled(s, p), PopPool(s, p);
    HelperFacts(s, h);
    forall x | x in s'.pools ensures PoolOk(s.helpers[h := s.helpers[h].(phase := Held)], x, s'.pools[x]) {
      assert PoolOk(s.helpers, x, s'.pools[x]);
    }
    MoveKeepsInv(s', h, Held, s'.pools);
  }

  lemma KeepsRelease(s: State, h: HelperId)
    requires Inv(s) && Enabled(s, Release(h))
    ensures Inv(ReleaseStep(s, h))
  {
    HelperFacts(s, h);
    assert NotInPools(s, h) by {
      forall x | x in s.pools ensures h !in s.pools[x] {
        assert PoolOk(s.helpers, x, s.pools[x]);
      }
    }
    if IsKept(s, h) {
      var p := s.helpers[h].home.value;
      var pools := s.pools[p := Pool(s, p) + [h]];
      var helpers := s.helpers[h := s.helpers[h].(phase := Pooled)];
      forall x | x in pools ensures PoolOk(helpers, x, pools[x]) {
        assert x in s.pools ==> PoolOk(s.helpers, x, s.pools[x]);
      }
      MoveKeepsInv(s, h, Pooled, pools);
    } else {
      FreeKeepsInv(s, h);
    }
  }

  lemma KeepsCloseFree(s: State, p: PoolId)
    requires Inv(s) && Enabled(s, CloseFree(p))
    ensures Inv(CloseFreeStep(s, p))
  {
    PopKeepsPools(s, p);
    FreeKeepsInv(PopPool(s, p), LastPooled(s, p));
  }

  lemma KeepsInvNng(s: State, step: Step)
    requires Inv(s) && Enabled(s, step)
    requires step.Finish? || step.Push? || step.Notify? || step.DrainOnce? || step.DeliverNext?
    ensures Inv(Apply(s, step))
  {
    match step
    case Finish(h) => KeepsFinish(s, h);
    case Push(h, mallocOk) => KeepsPush(s, h, mallocOk);
    case Notify =>
    case DrainOnce(max) => KeepsDrain(s, max);
    case DeliverNext => KeepsDeliver(s);
  }

  lemma KeepsInvPool(s: State, step: Step)
    requires Inv(s) && Enabled(s, step)
    requires step.Acquire? || step.Release? || step.CloseSocket? || step.CloseFree?
    ensures Inv(Apply(s, step))
  {
    match step
    case Acquire(p) => KeepsAcquire(s, p);
    case Release(h) => KeepsRelease(s, h);
    case CloseSocket(p) =>
    case CloseFree(p) => KeepsCloseFree(s, p);
  }

  lemma KeepsInv(s: State, step: Step)
    requires Inv(s) && Enabled(s, step) && !HijacksSlot(s, step)
    ensures Inv(Apply(s, step))
  {
    match step
    case New(h, home) => UpdateKeepsInv(s, h, FreshHelper(home), Entry(0, Idle), s.slots, s.futures, s.loop);
    case Prepare(h, op, slot, sending) => KeepsPrepare(s, h, op, slot, sending);
    case StartFail(h) => KeepsUnprepare(s, h);
    case Start(h) => KeepsStart(s, h);
    case CancelTask(h) => KeepsCancel(s, h);
    case Wake(h) => KeepsUnprepare(s, h);
    case Finish(_) => KeepsInvNng(s, step);
    case Push(_, _) => KeepsInvNng(s, step);
    case Notify => KeepsInvNng(s, step);
    case DrainOnce(_) => KeepsInvNng(s, step);
    case DeliverNext => KeepsInvNng(s, step);
    case _ => KeepsInvPool(s, step);
  }

  // ---------- whole runs ----------

  ghost predicate IsRun(s: State, run: seq<Step>)
    decreases |run|
  {
    run == [] || (Enabled(s, run[0]) && IsRun(Apply(s, run[0]), run[1..]))
  }

  ghost function After(s: State, run: seq<Step>): State
    requires IsRun(s, run)
    decreases |run|
  {
    if run == [] then s else After(Apply(s, run[0]), run[1..])
  }

  ghost predicate EverHijacks(s: State, run: seq<Step>)
    requires IsRun(s, run)
    decreases |run|
  {
    run != [] && (HijacksSlot(s, run[0]) || EverHijacks(Apply(s, run[0]), run[1..]))
  }

  lemma {:induction false} RunKeepsInv(s: State, run: seq<Step>)
    requires Inv(s) && IsRun(s, run) && !EverHijacks(s, run)
    ensures Inv(After(s, run))
    decreases |run|
  {
    if run != [] {
      KeepsInv(s, run[0]);
      RunKeepsInv(Apply(s, run[0]), run[1..]);
    }
  }

  lemma InitialInv(s: State)
    requires Initial(s)
    ensures Inv(s)
  {
  }

  /** A future is resolved only by the completion of the operation that it was registered for, over
  every run in which no operation gets a slot id under which another completion is still to come.
  The module SlotReuse shows that nothing less is enough. */
  lemma OwnCompletionOnly(s: State, run: seq<Step>, op: OpId)
    requires Initial(s) && IsRun(s, run) && !EverHijacks(s, run)
    requires op in After(s, run).futures && After(s, run).futures[op].Some?
    ensures After(s, run).futures[op].value == op
  {
    InitialInv(s);
    RunKeepsInv(s, run);
  }

  /** A wait is left only when nng is done with the operation, and its completion was delivered. */
  lemma WaitEndsWithOperation(s: State, run: seq<Step>, h: HelperId)
    requires Initial(s) && IsRun(s, run) && !EverHijacks(s, run)
    requires Enabled(After(s, run), Wake(h))
    ensures var t := After(s, run);
      && t.helpers[h].nng.NoOp? && !t.helpers[h].reported
      && h in t.q.heap && t.q.heap[h].state.Idle? && h !in t.q.items
  {
    InitialInv(s);
    RunKeepsInv(s, run);
    HelperFacts(After(s, run), h);
  }

  /** Every pooled helper can be used at once: nng runs nothing on its aio, its entry is not in the
  ring, and its slot id is not about to be delivered.  No pool holds more than 32. */
  lemma PooledHelpersAreIdle(s: State, run: seq<Step>, p: PoolId, i: nat)
    requires Initial(s) && IsRun(s, run) && !EverHijacks(s, run)
    requires p in After(s, run).pools
    ensures |After(s, run).pools[p]| <= MAX_POOL_SIZE
    ensures i < |After(s, run).pools[p]| ==>
      var t := After(s, run);
      var h := t.pools[p][i];
      && h in t.helpers && t.helpers[h].nng.NoOp? && !t.helpers[h].reported
      && h !in t.q.items && h in t.q.heap && t.q.heap[h] == Entry(0, Idle) && IsValid(t, h)
  {
    InitialInv(s);
    RunKeepsInv(s, run);
    var t := After(s, run);
    assert PoolOk(t.helpers, p, t.pools[p]);
    if i < |t.pools[p]| {
      HelperFacts(t, t.pools[p][i]);
    }
  }

  /** A helper that its user gives back is always usable, so it is pooled exactly if the pool is open
  and has room, and freed otherwise.  A DeviceAIO is freed. */
  lemma ReleasedIsKeptOrFreed(s: State, run: seq<Step>, h: HelperId)
    requires Initial(s) && IsRun(s, run) && !EverHijacks(s, run)
    requires Enabled(After(s, run), Release(h))
    ensures var t := After(s, run); var t' := Apply(t, Release(h)); var home := t.helpers[h].home;
      && IsValid(t, h)
      && (if home.Some? && home.value !in t.closed && |Pool(t, home.value)| < MAX_POOL_SIZE
          then h in t'.helpers && t'.helpers[h].phase.Pooled? && Pool(t', home.value) == Pool(t, home.value) + [h]
          else h !in t'.helpers && h !in t'.q.heap && t'.pools == t.pools)
  {
    InitialInv(s);
    RunKeepsInv(s, run);
    HelperFacts(After(s, run), h);
  }

  /** An acquire always gets the helper that was pooled last, and frees none. */
  lemma AcquiredIsUsable(s: State, run: seq<Step>, p: PoolId)
    requires Initial(s) && IsRun(s, run) && !EverHijacks(s, run)
    requires Enabled(After(s, run), Acquire(p))
    ensures var t := After(s, run); var t' := Apply(t, Acquire(p)); var h := LastPooled(t, p);
      && h in t'.helpers && t'.helpers[h].phase.Held? && t'.helpers.Keys == t.helpers.Keys
      && Pool(t', p) + [h] == Pool(t, p)
  {
    InitialInv(s);
    RunKeepsInv(s, run);
    var t := After(s, run);
    PopKeepsPools(t, p);
    HelperFacts(t, LastPooled(t, p));
  }

  /** A helper of the live loop is usable exactly between operations. */
  lemma ValidIffNoOperation(s: State, run: seq<Step>, h: HelperId)
    requires Initial(s) && IsRun(s, run) && !EverHijacks(s, run)
    requires h in After(s, run).helpers
    ensures IsValid(After(s, run), h) <==> !HasOp(After(s, run).helpers[h].phase)
  {
    InitialInv(s);
    RunKeepsInv(s, run);
    HelperFacts(After(s, run), h);
  }

  predicate TouchesPools(step: Step) {
    step.Acquire? || step.Release? || step.CloseSocket? || step.CloseFree?
  }

  lemma PoolsUntouched(s: State, step: Step)
    requires Enabled(s, step) && !TouchesPools(step)
    ensures Apply(s, step).pools == s.pools && Apply(s, step).closed == s.closed
  {
  }

  lemma ClosedPoolShrinks(s: State, step: Step, p: PoolId)
    requires Enabled(s, step)
    ensures p in Apply(s, step).closed <==> p in s.closed || step == CloseSocket(p)
    ensures p in s.closed ==> Pool(Apply(s, step), p) <= Pool(s, p)
  {
    if !TouchesPools(step) { PoolsUntouched(s, step); }
  }

  /** The pool of a closed socket only shrinks, and nothing but its close closes a socket. */
  lemma {:induction false} ClosedPoolsShrink(s: State, run: seq<Step>, p: PoolId)
    requires IsRun(s, run)
    ensures p in After(s, run).closed <==> p in s.closed || CloseSocket(p) in run
    ensures p in s.closed ==> Pool(After(s, run), p) <= Pool(s, p)
    decreases |run|
  {
    if run != [] {
      ClosedPoolShrinks(s, run[0], p);
      ClosedPoolsShrink(Apply(s, run[0]), run[1..], p);
    }
  }

  /** A close frees the helper that was pooled last, and so leaves one less in the pool. */
  lemma CloseFreesLast(s: State, run: seq<Step>, p: PoolId)
    requires Initial(s) && IsRun(s, run) && !EverHijacks(s, run)
    requires Enabled(After(s, run), CloseFree(p))
    ensures var t := After(s, run); var t' := Apply(t, CloseFree(p)); var h := LastPooled(t, p);
      && t'.helpers.Keys == t.helpers.Keys - {h} && t'.q.heap.Keys == t.q.heap.Keys - {h}
      && Pool(t', p) + [h] == Pool(t, p)
  {
    InitialInv(s);
    RunKeepsInv(s, run);
    PopKeepsPools(After(s, run), p);
    HelperFacts(After(s, run), LastPooled(After(s, run), p));
  }
}
