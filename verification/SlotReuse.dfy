/** When a reused slot id lets a completion resolve another operation's future: exactly when an
operation gets the slot id of a helper whose own completion can still be delivered.  The first
2^31 - 1 operations of an engine never do; a run past the wrap-around can. */
module SlotReuse {
  import opened Wrappers
  import opened OwnCompletion
  import Spec = CompletionSpec
  import opened SlotTable

  predicate BeginsNothing(run: seq<Step>) {
    forall i :: 0 <= i < |run| ==> !run[i].Prepare?
  }

  lemma Prepend(s: State, step: Step, rest: seq<Step>)
    requires Enabled(s, step) && IsRun(Apply(s, step), rest)
    ensures IsRun(s, [step] + rest) && After(s, [step] + rest) == After(Apply(s, step), rest)
    ensures BeginsNothing(rest) && !step.Prepare? ==> BeginsNothing([step] + rest)
    ensures EverHijacks(s, [step] + rest) <==> HijacksSlot(s, step) || EverHijacks(Apply(s, step), rest)
  {
    assert ([step] + rest)[1..] == rest;
  }

  // ---------- after a slot id was handed out twice ----------

  /** The slot id leads to the operation `op`, whose future is pending, and every completion on its
  way belongs to some other operation. */
  predicate Doomed(s: State, slot: nat, op: OpId) {
    && slot in s.slots && s.slots[slot] == op
    && op in s.futures && s.futures[op].None?
    && (forall h :: h in s.helpers ==> s.helpers[h].queuedBy != Some(op))
  }

  /** The batch still holds the slot id. */
  lemma {:induction false} DeliverForeign(s: State, slot: nat, op: OpId, i: nat) returns (ext: seq<Step>)
    requires s.loop.Delivering? && Doomed(s, slot, op)
    requires forall j :: 0 <= j < |s.batch| ==> s.batch[j].op != op
    requires i < |s.batch| && s.batch[i].slot == slot
    ensures IsRun(s, ext) && BeginsNothing(ext) && !OwnOnly(After(s, ext).futures)
    decreases i
  {
    var s' := DeliverStep(s);
    var r := s.batch[0];
    if r.slot in s.slots && s.slots[r.slot] == op {
      assert s'.futures[op] == Some(r.op);
      ext := [];
    } else {
      assert s'.batch[i-1] == s.batch[i];
      ext := DeliverForeign(s', slot, op, i - 1);
    }
    Prepend(s, DeliverNext, ext);
    ext := [DeliverNext] + ext;
  }

  lemma {:induction false} SlotsOfLength(heap: Spec.Heap, es: seq<HelperId>)
    requires forall e :: e in es ==> e in heap
    ensures |Spec.SlotsOf(heap, es)| <= |es|
  {
    if es != [] {
      SlotsOfLength(heap, es[1..]);
    }
  }

  /** A drain of the whole ring puts the report of the helper `a` into the batch, and no report of `op`. */
  lemma DrainTakesAll(s: State, max: nat, a: HelperId, op: OpId) returns (i: nat)
    requires Enabled(s, DrainOnce(max)) && Spec.WellLinked(s.q) && max == |s.q.items| + 1
    requires a in s.helpers && s.helpers[a].queuedBy.Some? && a in s.q.items && Spec.Reports(s.q.heap[a])
    requires forall h :: h in s.helpers ==> s.helpers[h].queuedBy != Some(op)
    ensures var s' := DrainStep(s, max);
      && s'.loop.Delivering? && s'.slots == s.slots && s'.futures == s.futures
      && i < |s'.batch| && s'.batch[i].slot == s.q.heap[a].slot
      && (forall j :: 0 <= j < |s'.batch| ==> s'.batch[j].op != op)
      && (forall h :: h in s'.helpers ==> s'.helpers[h].queuedBy != Some(op))
  {
    var s' := DrainStep(s, max);
    var taken := DrainEffect(s, max);
    SlotsOfLength(s.q.heap, taken);
    assert taken == s.q.items;
    forall j | 0 <= j < |s'.batch| ensures s'.batch[j].op != op {
      ReportsOfMember(s.q.heap, taken, s.helpers, s'.batch[j]);
    }
    var r := Report(s.q.heap[a].slot, s.helpers[a].queuedBy.value, a);
    ReportsOfMember(s.q.heap, taken, s.helpers, r);
    i :| 0 <= i < |s'.batch| && s'.batch[i] == r;
    SlotReported(s.q.heap, taken, a);
  }

  /** The loop is idle and the queue open, and `a` has the entry `entry`. */
  ghost predicate Sound(s: State, a: HelperId, entry: Spec.Entry) {
    && s.loop.Ready? && s.batch == [] && Spec.WellLinked(s.q) && !s.q.closed
    && a in s.helpers && a in s.q.heap && s.q.heap[a] == entry && entry.slot > 0
  }

  /** The entry of the helper `a` is in the ring and reports the slot id. */
  lemma DrainForeign(s: State, a: HelperId, slot: nat, op: OpId) returns (ext: seq<Step>)
    requires Sound(s, a, Spec.Entry(slot, Spec.Queued)) && Doomed(s, slot, op)
    requires s.helpers[a].queuedBy.Some? && a in s.q.items
    ensures IsRun(s, ext) && BeginsNothing(ext) && !OwnOnly(After(s, ext).futures)
  {
    var s1 := Apply(s, Notify);
    var max := |s.q.items| + 1;
    var i := DrainTakesAll(s1, max, a, op);
    ext := DeliverForeign(DrainStep(s1, max), slot, op, i);
    Prepend(s1, DrainOnce(max), ext);
    Prepend(s, Notify, [DrainOnce(max)] + ext);
    ext := [Notify] + ([DrainOnce(max)] + ext);
  }

  lemma {:induction false} SlotReported(heap: Spec.Heap, es: seq<HelperId>, a: HelperId)
    requires (forall e :: e in es ==> e in heap) && a in es && Spec.Reports(heap[a])
    ensures Spec.SlotsOf(heap, es) != []
  {
    if es[0] != a {
      SlotReported(heap, es[1..], a);
    }
  }

  lemma PushQueues(s: State, a: HelperId, slot: nat, op: OpId)
    requires Sound(s, a, Spec.Entry(slot, Spec.Idle)) && Doomed(s, slot, op)
    requires s.helpers[a].nng.Finished? && s.helpers[a].nng.op != op
    ensures var s' := PushStep(s, a, true);
      && Sound(s', a, Spec.Entry(slot, Spec.Queued)) && Doomed(s', slot, op)
      && s'.helpers[a].queuedBy.Some? && a in s'.q.items
  {
    Spec.LinkKeepsLinked(s.q, a, true);
  }

  /** nng has finished the operation of the helper `a`. */
  lemma PushForeign(s: State, a: HelperId, slot: nat, op: OpId) returns (ext: seq<Step>)
    requires Sound(s, a, Spec.Entry(slot, Spec.Idle)) && Doomed(s, slot, op)
    requires s.helpers[a].nng.Finished? && s.helpers[a].nng.op != op
    ensures IsRun(s, ext) && BeginsNothing(ext) && !OwnOnly(After(s, ext).futures)
  {
    PushQueues(s, a, slot, op);
    ext := DrainForeign(PushStep(s, a, true), a, slot, op);
    Prepend(s, Push(a, true), ext);
    ext := [Push(a, true)] + ext;
  }

  lemma FinishForeign(s: State, a: HelperId, slot: nat, op: OpId) returns (ext: seq<Step>)
    requires Sound(s, a, Spec.Entry(slot, Spec.Idle)) && Doomed(s, slot, op)
    requires s.helpers[a].nng.InFlight? && s.helpers[a].nng.op != op
    ensures IsRun(s, ext) && BeginsNothing(ext) && !OwnOnly(After(s, ext).futures)
  {
    ext := PushForeign(Apply(s, Finish(a)), a, slot, op);
    Prepend(s, Finish(a), ext);
    ext := [Finish(a)] + ext;
  }

  /** The new operation starts, and everything else is as it was. */
  lemma HijackStarts(s: State, step: Step, a: HelperId)
    requires Inv(s) && Enabled(s, step) && step.Prepare?
    requires a in s.helpers && s.helpers[a].slot == Some(step.slot) && ToCome(s.helpers[a])
    ensures Enabled(Apply(s, step), Start(step.h))
    ensures var s' := StartStep(Apply(s, step), step.h);
      && Sound(s', a, s.q.heap[a]) && Doomed(s', step.slot, step.op)
      && s'.q.items == s.q.items && s'.helpers[a] == s.helpers[a] && s.q.heap[a].slot == step.slot
      && s.helpers[a].phase.Waiting? && s.helpers[a].phase.op != step.op && !s.helpers[a].reported
  {
    HelperFacts(s, step.h);
    HelperFacts(s, a);
    var s' := StartStep(Apply(s, step), step.h);
    forall h | h in s'.helpers ensures s'.helpers[h].queuedBy != Some(step.op) {
      HelperFacts(s, h);
    }
    assert a !in Batched([]);
  }

  /** An operation that gets the slot id of a helper whose completion can still be delivered can be
  resolved by that completion, although it starts at once and no other operation begins. */
  lemma HijackIsFatal(s: State, step: Step) returns (ext: seq<Step>)
    requires Inv(s) && Enabled(s, step) && HijacksSlot(s, step)
    ensures IsRun(Apply(s, step), ext) && BeginsNothing(ext) && !OwnOnly(After(Apply(s, step), ext).futures)
    ensures |ext| > 0 && ext[0] == Start(step.h)
  {
    var a :| a in s.helpers && s.helpers[a].slot == Some(step.slot) && ToCome(s.helpers[a]);
    HijackStarts(s, step, a);
    HelperFacts(s, a);
    var s' := StartStep(Apply(s, step), step.h);
    if s.helpers[a].nng.InFlight? {
      ext := FinishForeign(s', a, step.slot, step.op);
    } else if s.helpers[a].nng.Finished? {
      ext := PushForeign(s', a, step.slot, step.op);
    } else {
      ext := DrainForeign(s', a, step.slot, step.op);
    }
    Prepend(Apply(s, step), Start(step.h), ext);
    ext := [Start(step.h)] + ext;
  }

  /** No operation begins, so no slot id is handed out. */
  lemma {:induction false} NothingBegunIsSafe(s: State, ext: seq<Step>)
    requires Inv(s) && IsRun(s, ext) && BeginsNothing(ext)
    ensures OwnOnly(After(s, ext).futures)
    decreases |ext|
  {
    if ext != [] {
      assert !ext[0].Prepare?;
      KeepsInv(s, ext[0]);
      NothingBegunIsSafe(Apply(s, ext[0]), ext[1..]);
    }
  }

  /** At any point of a run that was safe so far, the next step makes a foreign completion possible
  if and only if it hands out the slot id of a helper whose completion can still be delivered. */
  lemma ForeignIffHijacked(s: State, run: seq<Step>, step: Step)
    requires Initial(s) && IsRun(s, run) && !EverHijacks(s, run) && Enabled(After(s, run), step)
    ensures HijacksSlot(After(s, run), step)
      <==> exists ext: seq<Step> ::
             IsRun(Apply(After(s, run), step), ext) && BeginsNothing(ext)
             && !OwnOnly(After(Apply(After(s, run), step), ext).futures)
  {
    InitialInv(s);
    RunKeepsInv(s, run);
    var t := After(s, run);
    if HijacksSlot(t, step) {
      var ext := HijackIsFatal(t, step);
    } else {
      KeepsInv(t, step);
      var t' := Apply(t, step);
      forall ext: seq<Step> | IsRun(t', ext) && BeginsNothing(ext) ensures OwnOnly(After(t', ext).futures) {
        NothingBegunIsSafe(t', ext);
      }
    }
  }

  // ---------- before the counter wraps around ----------

  function Operations(run: seq<Step>): nat {
    if run == [] then 0 else (if run[0].Prepare? then 1 else 0) + Operations(run[1..])
  }

  predicate FirstRound(s: State) {
    && 0 <= s.counter
    && (forall slot :: slot in s.slots ==> slot <= s.counter)
    && (forall h :: h in s.helpers && s.helpers[h].slot.Some? ==> s.helpers[h].slot.value <= s.counter)
  }

  /** No slot id is held by two helpers, and one whose completion is still to come is in the table. */
  predicate HeldOnce(s: State) {
    && (forall h, h' {:trigger SlotsDiffer(s.helpers[h], s.helpers[h'])} ::
          h in s.helpers && h' in s.helpers && h != h' ==> SlotsDiffer(s.helpers[h], s.helpers[h']))
    && (forall h {:trigger InTable(s.helpers[h], s.slots)} :: h in s.helpers ==> InTable(s.helpers[h], s.slots))
  }

  predicate SlotsDiffer(a: Helper, b: Helper) {
    a.slot.Some? && b.slot.Some? ==> a.slot != b.slot
  }

  predicate InTable(a: Helper, slots: Slots) {
    ToCome(a) ==> a.slot.Some? && a.slot.value in slots
  }

  /** No slot id is handed out, and one that goes was held by a helper whose completion is over. */
  predicate NoNewSlots(s: State, s': State) {
    && s'.counter == s.counter
    && s'.slots.Keys <= s.slots.Keys
    && (forall h {:trigger Keeps(s, s', h)} :: h in s'.helpers ==> Keeps(s, s', h))
  }

  predicate Keeps(s: State, s': State, h: HelperId)
    requires h in s'.helpers
  {
    && (s'.helpers[h].slot.Some? ==> h in s.helpers && s'.helpers[h].slot == s.helpers[h].slot)
    && (ToCome(s'.helpers[h]) ==>
          && h in s.helpers && ToCome(s.helpers[h]) && s'.helpers[h].slot == s.helpers[h].slot
          && (s.helpers[h].slot.Some? && s.helpers[h].slot.value in s.slots ==> s.helpers[h].slot.value in s'.slots))
  }

  lemma FreeingAddsNoSlots(s: State, step: Step)
    requires Inv(s) && Enabled(s, step) && (step.Acquire? || step.Release? || step.CloseFree?)
    ensures NoNewSlots(s, Apply(s, step))
  {
    var s' := Apply(s, step);
    if !step.Release? { PopKeepsPools(s, step.p); }
    var x := if step.Release? then step.h else LastPooled(s, step.p);
    HelperFacts(s, x);
    forall h | h in s'.helpers ensures Keeps(s, s', h) {
    }
  }

  lemma DrainAddsNoSlots(s: State, max: nat)
    requires Inv(s) && Enabled(s, DrainOnce(max))
    ensures NoNewSlots(s, DrainStep(s, max))
  {
    var taken := DrainEffect(s, max);
    var s' := DrainStep(s, max);
    DrainMarks(s, taken);
    forall h | h in s'.helpers ensures Keeps(s, s', h) {
      assert MarkedAs(s.helpers[h], h, taken, s'.helpers[h]);
      if h in taken { TakenHelperOk(s, h); }
    }
  }

  lemma NngAddsNoSlots(s: State, step: Step)
    requires Enabled(s, step) && (step.Start? || step.CancelTask? || step.Finish? || step.Push?)
    ensures NoNewSlots(s, Apply(s, step))
  {
    var s' := Apply(s, step);
    forall h | h in s'.helpers ensures Keeps(s, s', h) {
    }
  }

  lemma UnprepareAddsNoSlots(s: State, h: HelperId)
    requires Inv(s) && HeldOnce(s) && h in s.helpers
    ensures NoNewSlots(s, Unprepare(s, h))
  {
    HelperFacts(s, h);
    var s' := Unprepare(s, h);
    forall x | x in s'.helpers ensures Keeps(s, s', x) {
      assert x != h ==> SlotsDiffer(s.helpers[h], s.helpers[x]);
    }
  }

  lemma DeliverAddsNoSlots(s: State)
    requires Inv(s) && HeldOnce(s) && Enabled(s, DeliverNext)
    ensures NoNewSlots(s, DeliverStep(s))
  {
    var r := s.batch[0];
    assert ReportOk(s.helpers, r);
    HelperFacts(s, r.helper);
    var s' := DeliverStep(s);
    forall x | x in s'.helpers ensures Keeps(s, s', x) {
      assert x != r.helper ==> SlotsDiffer(s.helpers[r.helper], s.helpers[x]);
    }
  }

  lemma OthersAddNoSlots(s: State, step: Step)
    requires Enabled(s, step) && (step.New? || step.Notify? || step.CloseSocket?)
    ensures NoNewSlots(s, Apply(s, step))
  {
    var s' := Apply(s, step);
    forall h | h in s'.helpers ensures Keeps(s, s', h) {
    }
  }

  lemma OnlyPrepareAddsSlots(s: State, step: Step)
    requires Inv(s) && HeldOnce(s) && Enabled(s, step) && !step.Prepare?
    ensures NoNewSlots(s, Apply(s, step))
  {
    match step
    case DrainOnce(max) => DrainAddsNoSlots(s, max);
    case DeliverNext => DeliverAddsNoSlots(s);
    case Wake(h) => UnprepareAddsNoSlots(s, h);
    case StartFail(h) => UnprepareAddsNoSlots(s, h);
    case Acquire(_) => FreeingAddsNoSlots(s, step);
    case Release(_) => FreeingAddsNoSlots(s, step);
    case CloseFree(_) => FreeingAddsNoSlots(s, step);
    case New(_, _) => OthersAddNoSlots(s, step);
    case Notify => OthersAddNoSlots(s, step);
    case CloseSocket(_) => OthersAddNoSlots(s, step);
    case _ => NngAddsNoSlots(s, step);
  }

  lemma NoNewSlotsKeeps(s: State, s': State)
    requires NoNewSlots(s, s') && HeldOnce(s)
    ensures HeldOnce(s') && (FirstRound(s) ==> FirstRound(s'))
  {
    forall h | h in s'.helpers ensures InTable(s'.helpers[h], s'.slots) {
      assert Keeps(s, s', h);
      if h in s.helpers { assert InTable(s.helpers[h], s.slots); }
    }
    forall h, h' | h in s'.helpers && h' in s'.helpers && h != h' ensures SlotsDiffer(s'.helpers[h], s'.helpers[h']) {
      assert Keeps(s, s', h) && Keeps(s, s', h');
      if h in s.helpers && h' in s.helpers { assert SlotsDiffer(s.helpers[h], s.helpers[h']); }
    }
    if FirstRound(s) {
      forall h | h in s'.helpers && s'.helpers[h].slot.Some? ensures s'.helpers[h].slot.value <= s'.counter {
        assert Keeps(s, s', h);
      }
    }
  }

  /** While every id is held once, a free id is not one under which a completion is still to come. */
  lemma HeldOnceNeverHijacks(s: State, step: Step)
    requires HeldOnce(s) && Enabled(s, step)
    ensures !HijacksSlot(s, step)
  {
    if step.Prepare? {
      forall h | h in s.helpers && s.helpers[h].slot == Some(step.slot) ensures !ToCome(s.helpers[h]) {
        assert InTable(s.helpers[h], s.slots);
      }
    }
  }

  lemma FirstRoundPrepare(s: State, step: Step)
    requires Inv(s) && FirstRound(s) && HeldOnce(s) && Enabled(s, step) && step.Prepare? && s.counter < MASK
    ensures var s' := Apply(s, step); FirstRound(s') && HeldOnce(s') && s'.counter == s.counter + 1
  {
    HelperFacts(s, step.h);
    assert IsFirstFree(s.counter + 1, s.slots.Keys, s.counter + 1);
    FirstFreeIsUnique(s.counter + 1, s.slots.Keys, s.counter + 1, step.slot);
    var s' := Apply(s, step);
    forall h | h in s'.helpers ensures InTable(s'.helpers[h], s'.slots) {
      assert InTable(s.helpers[h], s.slots);
    }
    forall h, h' | h in s'.helpers && h' in s'.helpers && h != h' ensures SlotsDiffer(s'.helpers[h], s'.helpers[h']) {
      assert SlotsDiffer(s.helpers[h], s.helpers[h']);
    }
  }

  lemma {:induction false} NothingBegunNeverHijacks(s: State, run: seq<Step>)
    requires IsRun(s, run) && Operations(run) == 0
    ensures !EverHijacks(s, run)
    decreases |run|
  {
    if run != [] {
      NothingBegunNeverHijacks(Apply(s, run[0]), run[1..]);
    }
  }

  /** The operation that meets the wrap-around can get an id that a resolved helper still remembers,
  but no id under which a completion is still to come. */
  lemma {:induction false} FirstRoundNeverHijacks(s: State, run: seq<Step>)
    requires Inv(s) && FirstRound(s) && HeldOnce(s) && IsRun(s, run) && s.counter + Operations(run) <= MASK + 1
    requires s.counter <= MASK
    ensures !EverHijacks(s, run)
    decreases |run|
  {
    if run != [] {
      HeldOnceNeverHijacks(s, run[0]);
      KeepsInv(s, run[0]);
      var s' := Apply(s, run[0]);
      if !run[0].Prepare? {
        OnlyPrepareAddsSlots(s, run[0]);
        NoNewSlotsKeeps(s, s');
        FirstRoundNeverHijacks(s', run[1..]);
      } else if s.counter < MASK {
        FirstRoundPrepare(s, run[0]);
        FirstRoundNeverHijacks(s', run[1..]);
      } else {
        NothingBegunNeverHijacks(s', run[1..]);
      }
    }
  }

  /** Whatever is cancelled, times out or is closed, the first 2^31 operations of an engine are
  resolved only by their own completions. */
  lemma OwnCompletionBeforeWrapAround(s: State, run: seq<Step>, op: OpId)
    requires Initial(s) && IsRun(s, run) && Operations(run) <= MASK + 1
    requires op in After(s, run).futures && After(s, run).futures[op].Some?
    ensures After(s, run).futures[op].value == op
  {
    InitialInv(s);
    FirstRoundNeverHijacks(s, run);
    OwnCompletionOnly(s, run, op);
  }

  /** In the first round no helper loses its place in the table. */
  lemma {:induction false} FirstRoundIsHeldOnce(s: State, run: seq<Step>)
    requires Inv(s) && FirstRound(s) && HeldOnce(s) && IsRun(s, run) && s.counter + Operations(run) <= MASK
    ensures Inv(After(s, run)) && HeldOnce(After(s, run))
    decreases |run|
  {
    if run != [] {
      HeldOnceNeverHijacks(s, run[0]);
      KeepsInv(s, run[0]);
      if run[0].Prepare? {
        FirstRoundPrepare(s, run[0]);
      } else {
        OnlyPrepareAddsSlots(s, run[0]);
        NoNewSlotsKeeps(s, Apply(s, run[0]));
      }
      FirstRoundIsHeldOnce(Apply(s, run[0]), run[1..]);
    }
  }

  /** Every completion that the loop delivers before the counter wraps around resolves the future of
  its operation, and no other, and that operation's task can be resumed. */
  lemma DeliveredIsResolved(s: State, run: seq<Step>)
    requires Initial(s) && IsRun(s, run) && Operations(run) <= MASK
    requires Enabled(After(s, run), DeliverNext)
    ensures var t := After(s, run); var t' := Apply(t, DeliverNext); var r := t.batch[0];
      && r.op in t.futures && t.futures[r.op].None?
      && t'.futures == t.futures[r.op := Some(r.op)]
      && r.helper in t'.helpers && t'.helpers[r.helper].phase == Waiting(r.op)
      && Enabled(t'.(loop := Ready), Wake(r.helper))
  {
    InitialInv(s);
    FirstRoundIsHeldOnce(s, run);
    var t := After(s, run);
    var r := t.batch[0];
    assert ReportOk(t.helpers, r);
    HelperFacts(t, r.helper);
    assert InTable(t.helpers[r.helper], t.slots);
  }

  // ---------- a run in which a future is resolved by a foreign completion ----------

  predicate NoStartFails(run: seq<Step>) {
    forall i :: 0 <= i < |run| ==> !run[i].StartFail?
  }

  /** No step hands out an id twice; `n` operations begin and every one starts. */
  ghost predicate Clean(s: State, run: seq<Step>, n: nat) {
    Initial(s) && IsRun(s, run) && !EverHijacks(s, run) && Operations(run) == n && NoStartFails(run)
  }

  lemma {:induction false} ExtendRun(s: State, run: seq<Step>, step: Step)
    requires IsRun(s, run) && Enabled(After(s, run), step)
    ensures IsRun(s, run + [step]) && After(s, run + [step]) == Apply(After(s, run), step)
    ensures EverHijacks(s, run + [step]) <==> EverHijacks(s, run) || HijacksSlot(After(s, run), step)
    ensures Operations(run + [step]) == Operations(run) + if step.Prepare? then 1 else 0
    decreases |run|
  {
    if run == [] {
      assert run + [step] == [step];
      assert [step][1..] == [];
    } else {
      assert (run + [step])[1..] == run[1..] + [step];
      ExtendRun(Apply(s, run[0]), run[1..], step);
    }
  }

  lemma Extend(s: State, run: seq<Step>, n: nat, step: Step) returns (run': seq<Step>)
    requires Clean(s, run, n) && !step.StartFail?
    requires Enabled(After(s, run), step) && !HijacksSlot(After(s, run), step)
    ensures Clean(s, run', n + if step.Prepare? then 1 else 0) && After(s, run') == Apply(After(s, run), step)
  {
    ExtendRun(s, run, step);
    run' := run + [step];
  }

  // The first helper and its operation 0, which has the slot id 1 and is over.
  const FIRST: Helper := FreshHelper(Some(0)).(phase := Waiting(0), slot := Some(1))

  /** The first helper and its entry are all there is. */
  predicate Only(s: State, helper: Helper, entry: Spec.Entry) {
    && s.helpers == map[0 := helper] && s.q.heap == map[0 := entry]
    && s.batch == [] && !s.q.closed && s.q.capacity > 0 && s.pools == map[]
  }

  predicate Started(s: State, helper: Helper, entry: Spec.Entry) {
    && Only(s, helper, entry) && s.counter == 1 && s.slots == map[1 := 0] && s.futures == map[0 := None]
  }

  lemma BeginFirst(s: State) returns (run: seq<Step>)
    requires Initial(s)
    ensures Clean(s, run, 1) && After(s, run).loop.Ready? && After(s, run).q.items == []
    ensures Started(After(s, run), FIRST.(nng := InFlight(0)), Spec.Entry(1, Spec.Idle))
  {
    run := Extend(s, [], 0, New(0, Some(0)));
    assert Only(After(s, run), FreshHelper(Some(0)), Spec.Entry(0, Spec.Idle));
    assert IsFirstFree(NextCounter(0), {}, 1);
    run := Extend(s, run, 0, Prepare(0, 0, 1, false));
    run := Extend(s, run, 1, Start(0));
  }

  lemma PushFirst(t: State)
    requires t.loop.Ready? && t.q.items == [] && Started(t, FIRST.(nng := Finished(0)), Spec.Entry(1, Spec.Idle))
    ensures var t' := PushStep(t, 0, true);
      && t'.loop.Ready? && t'.q.items == [0]
      && Started(t', FIRST.(queuedBy := Some(0)), Spec.Entry(1, Spec.Queued))
  {
  }

  lemma QueueFirst(s: State, run: seq<Step>) returns (run': seq<Step>)
    requires Clean(s, run, 1) && After(s, run).loop.Ready? && After(s, run).q.items == []
    requires Started(After(s, run), FIRST.(nng := InFlight(0)), Spec.Entry(1, Spec.Idle))
    ensures Clean(s, run', 1) && After(s, run').loop.Delivering? && After(s, run').q.items == [0]
    ensures Started(After(s, run'), FIRST.(queuedBy := Some(0)), Spec.Entry(1, Spec.Queued))
  {
    run' := Extend(s, run, 1, Finish(0));
    PushFirst(After(s, run'));
    run' := Extend(s, run', 1, Push(0, true));
    run' := Extend(s, run', 1, Notify);
  }

  lemma UnlinksFirst(heap: Spec.Heap, heap': Spec.Heap)
    requires heap == map[0 := Spec.Entry(1, Spec.Queued)] && Spec.Unlinked(heap, [0], heap')
    ensures heap' == map[0 := Spec.Entry(1, Spec.Idle)]
  {
    forall e ensures e in heap' <==> e == 0 {
      assert Spec.UnlinkedAt(heap, e in [0], heap', e);
    }
    assert Spec.UnlinkedAt(heap, 0 in [0], heap', 0);
  }

  lemma FirstReport(heap: Spec.Heap, helpers: map<HelperId, Helper>)
    requires heap == map[0 := Spec.Entry(1, Spec.Queued)] && helpers == map[0 := FIRST.(queuedBy := Some(0))]
    ensures ReportsOf(heap, [0], helpers) == [Report(1, 0, 0)]
    ensures MarkReported(helpers, [Report(1, 0, 0)]) == map[0 := FIRST.(reported := true)]
  {
    var rs := [Report(1, 0, 0)];
    assert rs[0].helper == 0;
  }

  /** The first operation's slot id is in the batch. */
  predicate Batched1(s: State) {
    && s.loop.Delivering? && s.q.items == [] && s.batch == [Report(1, 0, 0)]
    && Started(s.(batch := []), FIRST.(reported := true), Spec.Entry(1, Spec.Idle))
  }

  lemma DrainFirst(t: State)
    requires t.loop.Delivering? && t.q.items == [0]
    requires Started(t, FIRST.(queuedBy := Some(0)), Spec.Entry(1, Spec.Queued))
    ensures Batched1(DrainStep(t, 1))
  {
    var taken := DrainEffect(t, 1);
    assert taken == [0];
    UnlinksFirst(t.q.heap, Spec.Drain(t.q, 1).queue.heap);
    FirstReport(t.q.heap, t.helpers);
  }

  lemma DrainNothing(t: State)
    requires t.loop.Delivering? && t.q.items == [] && t.batch == []
    ensures DrainStep(t, 1) == t.(loop := Ready)
  {
    var taken := DrainEffect(t, 1);
    assert MarkReported(t.helpers, []) == t.helpers;
  }

  lemma DeliversFirst(t: State)
    requires Batched1(t)
    ensures InFlightUpTo(DeliverStep(t).(loop := Ready), 0)
    ensures DeliverStep(t).q.items == [] && DeliverStep(t).batch == []
  {
    var t' := DeliverStep(t);
    assert t'.helpers == map[0 := FIRST] && t'.futures == map[0 := Some(0)] && t'.slots == map[];
    assert t'.q.heap == map[0 := Spec.Entry(1, Spec.Idle)];
    assert forall h: HelperId :: h in t'.helpers <==> h == 0;
    assert forall h: HelperId :: h in t'.q.heap <==> h == 0;
    assert forall f: OpId :: f in t'.futures <==> f == 0;
  }

  lemma DeliverFirst(s: State, run: seq<Step>) returns (run': seq<Step>)
    requires Clean(s, run, 1) && Batched1(After(s, run))
    ensures Clean(s, run', 1) && InFlightUpTo(After(s, run'), 0)
  {
    DeliversFirst(After(s, run));
    run' := Extend(s, run, 1, DeliverNext);
    DrainNothing(After(s, run'));
    run' := Extend(s, run', 1, DrainOnce(1));
  }

  /** The first operation is delivered and its task is not resumed yet; the operations 1 to `n` of
  as many other helpers are in flight. */
  ghost predicate InFlightUpTo(s: State, n: nat) {
    && s.loop.Ready? && s.pools == map[] && s.counter == n + 1
    && (forall h: HelperId :: h in s.helpers <==> h <= n)
    && (forall h: HelperId :: h in s.q.heap <==> h <= n)
    && (forall f: OpId :: f in s.futures <==> f <= n)
    && (forall slot :: slot in s.slots <==> 2 <= slot <= n + 1)
    && s.helpers[0] == FIRST && s.futures[0] == Some(0)
    && (forall h: HelperId :: 1 <= h <= n ==> s.helpers[h].slot == Some(h + 1))
  }

  function Created(s: State, h: HelperId): State {
    Update(s, h, FreshHelper(Some(0)), Spec.Entry(0, Spec.Idle), s.slots, s.futures)
  }

  lemma NextCanBegin(t: State, n: nat)
    requires InFlightUpTo(t, n) && n + 2 <= MASK
    ensures var h := n + 1; var step := Prepare(h, h, h + 1, false);
      Enabled(t, New(h, Some(0))) && Enabled(Created(t, h), step) && !HijacksSlot(Created(t, h), step)
  {
    assert IsFirstFree(NextCounter(t.counter), t.slots.Keys, n + 2);
  }

  /** What creating, preparing and starting a helper amounts to. */
  function Begun(s: State, h: HelperId, slot: nat): State {
    s.(counter := slot, slots := s.slots[slot := h], futures := s.futures[h := None], loop := Ready,
       helpers := s.helpers[h := FreshHelper(Some(0)).(phase := Waiting(h), slot := Some(slot), nng := InFlight(h))],
       q := s.q.(heap := s.q.heap[h := Spec.Entry(slot, Spec.Idle)]))
  }

  lemma BeginsAs(t: State, h: HelperId, slot: nat)
    requires h !in t.helpers && h !in t.q.heap
    ensures StartStep(PrepareStep(Created(t, h), h, h, slot, false), h) == Begun(t, h, slot)
  {
  }

  lemma NextHasBegun(t: State, n: nat)
    requires InFlightUpTo(t, n) && n + 2 <= MASK
    ensures InFlightUpTo(Begun(t, n + 1, n + 2), n + 1)
  {
  }

  lemma BeginNext(s: State, run: seq<Step>, n: nat) returns (run': seq<Step>)
    requires Clean(s, run, n + 1) && InFlightUpTo(After(s, run), n) && n + 2 <= MASK
    ensures Clean(s, run', n + 2) && InFlightUpTo(After(s, run'), n + 1)
  {
    NextCanBegin(After(s, run), n);
    NextHasBegun(After(s, run), n);
    BeginsAs(After(s, run), n + 1, n + 2);
    run' := Extend(s, run, n + 1, New(n + 1, Some(0)));
    run' := Extend(s, run', n + 1, Prepare(n + 1, n + 1, n + 2, false));
    run' := Extend(s, run', n + 2, Start(n + 1));
  }

  lemma {:induction false} BeginMany(s: State, run: seq<Step>, n: nat) returns (run': seq<Step>)
    requires Clean(s, run, 1) && InFlightUpTo(After(s, run), 0) && n + 1 <= MASK
    ensures Clean(s, run', n + 1) && InFlightUpTo(After(s, run'), n)
    decreases n
  {
    run' := run;
    if n > 0 {
      run' := BeginMany(s, run, n - 1);
      run' := BeginNext(s, run', n - 1);
    }
  }

  /** The helper MASK has the slot id 1 too, in flight, and the first one dropped it from the table. */
  ghost predicate Dropped(s: State) {
    && s.loop.Ready? && s.counter == 1
    && 0 in s.helpers && s.helpers[0].phase.Held?
    && MASK in s.helpers && s.helpers[MASK].phase.Waiting? && s.helpers[MASK].nng.InFlight?
    && s.helpers[MASK].slot == Some(1)
    && (forall slot :: slot in s.slots <==> 2 <= slot <= MASK)
    && MASK + 1 !in s.futures
  }

  lemma FirstResumes(t: State)
    requires InFlightUpTo(t, MASK - 1)
    ensures var step := Prepare(MASK, MASK, 1, false);
      Enabled(t, New(MASK, Some(0))) && Enabled(Created(t, MASK), step) && !HijacksSlot(Created(t, MASK), step)
    ensures Enabled(Begun(t, MASK, 1), Wake(0)) && Dropped(Unprepare(Begun(t, MASK, 1), 0))
  {
    assert IsFirstFree(NextCounter(MASK), t.slots.Keys, 1);
    assert Begun(t, MASK, 1).helpers[0] == FIRST;
  }

  /** The counter wraps around: the next operation gets the slot id 1, and then the first task is resumed. */
  lemma WrapAround(s: State, run: seq<Step>) returns (run': seq<Step>)
    requires Clean(s, run, MASK) && InFlightUpTo(After(s, run), MASK - 1)
    ensures Clean(s, run', MASK + 1) && Dropped(After(s, run'))
  {
    FirstResumes(After(s, run));
    BeginsAs(After(s, run), MASK, 1);
    run' := Extend(s, run, MASK, New(MASK, Some(0)));
    run' := Extend(s, run', MASK, Prepare(MASK, MASK, 1, false));
    run' := Extend(s, run', MASK + 1, Start(MASK));
    run' := Extend(s, run', MASK + 1, Wake(0));
  }

  /** A run of 2^31 + 1 operations, one more than are safe.  All 2^31 - 1 slot ids were handed out,
  with the first operation resolved and not resumed, when the counter comes back to 1.  The next
  operation gets that id; resuming the first one then frees it, the one after gets it too, and the
  completion of the one resolves the other. */
  lemma WrapAroundMisdelivers(s: State) returns (run: seq<Step>, ext: seq<Step>)
    requires Initial(s)
    ensures IsRun(s, run) && EverHijacks(s, run) && Operations(run) == MASK + 2 && NoStartFails(run)
    ensures IsRun(After(s, run), ext) && BeginsNothing(ext) && !OwnOnly(After(After(s, run), ext).futures)
  {
    run := BeginFirst(s);
    run := QueueFirst(s, run);
    DrainFirst(After(s, run));
    run := Extend(s, run, 1, DrainOnce(1));
    run := DeliverFirst(s, run);
    run := BeginMany(s, run, MASK - 1);
    run := WrapAround(s, run);
    run, ext := HijackDropped(s, run);
  }

  lemma HijackDropped(s: State, run: seq<Step>) returns (run': seq<Step>, ext: seq<Step>)
    requires Clean(s, run, MASK + 1) && Dropped(After(s, run))
    ensures IsRun(s, run') && EverHijacks(s, run') && Operations(run') == MASK + 2 && NoStartFails(run')
    ensures IsRun(After(s, run'), ext) && BeginsNothing(ext) && !OwnOnly(After(After(s, run'), ext).futures)
  {
    var t := After(s, run);
    var step := Prepare(0, MASK + 1, 1, false);
    assert IsFirstFree(NextCounter(1), t.slots.Keys, 1);
    assert ToCome(t.helpers[MASK]);
    InitialInv(s);
    RunKeepsInv(s, run);
    ext := HijackIsFatal(t, step);
    ExtendRun(s, run, step);
    run' := run + [step];
  }
}
