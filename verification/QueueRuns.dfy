/** What holds in every run of the threads that share one completion queue. */
module QueueRuns {
  import opened Wrappers
  import opened CompletionSpec
  import opened QueueLifetime

  // ---------- every step keeps the invariant ----------

  lemma KeepsInvEntry(s: State, step: Step)
    requires Inv(s) && Enabled(s, step)
    requires step.EntryNew? || step.SetSlot? || step.Callback? || step.CompleteLocked?
      || step.FreeCall? || step.FreeLocked? || step.FreeMemory?
    ensures Inv(Apply(s, step))
  {
    match step
    case EntryNew(e, slot) => KeepsEntryNew(s, e, slot);
    case SetSlot(e, slot) => KeepsSetSlot(s, e, slot);
    case Callback(e) => SameEntries(s, CallbackStep(s, e));
    case CompleteLocked(e, mallocOk) => KeepsCompleteLocked(s, e, mallocOk);
    case FreeCall(e) => KeepsFreeCall(s, e);
    case FreeLocked(e) => KeepsFreeLocked(s, e);
    case FreeMemory(e) => KeepsFreeMemory(s, e);
  }

  lemma KeepsInvQueue(s: State, step: Step)
    requires Inv(s) && Enabled(s, step)
    requires step.CloseFd? || step.QueueFree? || step.QueueFreeRelease? || step.QueueFreeLast?
    ensures Inv(Apply(s, step))
  {
    SameEntries(s, Apply(s, step));
  }

  lemma KeepsInvHandler(s: State, step: Step)
    requires Inv(s) && Enabled(s, step) && (step.Destroy? || step.NotifyRead? || step.DrainReturn?)
    ensures Inv(Apply(s, step))
  {
    SameEntries(s, Apply(s, step));
  }

  lemma KeepsInv(s: State, step: Step)
    requires Inv(s) && Enabled(s, step)
    ensures Inv(Apply(s, step))
  {
    match step
    case CompleteWrite => KeepsCompleteWrite(s);
    case Release(i) => KeepsRelease(s, i);
    case Destroy => KeepsInvHandler(s, step);
    case NotifyRead(n) => KeepsInvHandler(s, step);
    case DrainLocked(max) => KeepsDrainLocked(s, max);
    case DrainReturn => KeepsInvHandler(s, step);
    case EngineClose => KeepsEngineClose(s);
    case CloseFd => KeepsInvQueue(s, step);
    case QueueFree => KeepsInvQueue(s, step);
    case QueueFreeClose => KeepsQueueFreeClose(s);
    case QueueFreeRelease => KeepsInvQueue(s, step);
    case QueueFreeLast => KeepsInvQueue(s, step);
    case _ => KeepsInvEntry(s, step);
  }

  // ---------- single operations ----------

  /** The steps of entry_free, with no other thread between them, free the entry as the queue does. */
  lemma FreeStepsAreFreeEntry(s: State, e: EntryId)
    requires Inv(s) && Enabled(s, FreeCall(e)) && s.writer.None?
    ensures var s1 := FreeCallStep(s, e); var s2 := FreeLockedStep(s1, e);
      && Enabled(s1, FreeLocked(e)) && (e in s2.unlocked ==> Enabled(s2, FreeMemory(e)))
      && (if e in s2.unlocked then FreeMemoryStep(s2, e) else s2).q == FreeEntry(s.q, e)
  {
    assert EntryOk(s, e);
    var heap := s.q.heap;
    assert heap[e := heap[e].(slot := 0)][e := Entry(0, Freed)] == heap[e := Entry(0, Freed)];
    assert heap[e := Entry(0, Freed)] - {e} == heap - {e};
  }

  /** A new entry is IDLE with its slot id, and set_slot_id changes the slot id of one entry only. */
  lemma SlotSteps(s: State, e: EntryId, slot: nat)
    requires Inv(s)
    ensures Enabled(s, EntryNew(e, slot)) ==>
      e !in s.q.heap && Apply(s, EntryNew(e, slot)).q.heap == s.q.heap[e := Entry(slot, Idle)]
    ensures Enabled(s, SetSlot(e, slot)) ==>
      e in s.q.heap && Apply(s, SetSlot(e, slot)).q.heap == s.q.heap[e := Entry(slot, s.q.heap[e].state)]
  {
  }

  /** The handler's read takes what the pipe holds, up to its size, so with nothing completed since
  the pipe is empty and the loop does not call the handler again. */
  lemma ReadTakesBytes(s: State, n: nat)
    requires Enabled(s, NotifyRead(n))
    ensures var t := Apply(s, NotifyRead(n));
      && (s.wake <= n ==> t.wake == 0) && (s.wake > n ==> t.wake + n == s.wake)
      && t.handler.Draining? && t.q == s.q
  {
  }

  /** A batch takes something from the ring, or the ring was already empty of what it reports and is
  empty now; so the handler comes to an end. */
  lemma DrainMakesProgress(s: State, max: nat)
    requires Inv(s) && Enabled(s, DrainLocked(max))
    ensures var t := Apply(s, DrainLocked(max));
      && t.handler.Releasing? && t.handler.count == |Drain(s.q, max).slots|
      && (t.handler.count > 0 ==> |t.q.items| < |s.q.items|)
      && (t.handler.count == 0 ==> t.q.items == [] && Apply(t, DrainReturn).handler.Waiting?)
  {
    SlotsNeedItems(s.q, max);
    DrainShape(s.q, max);
  }

  // ---------- whole runs ----------

  ghost predicate IsRun(s: State, run: seq<Step>)
    decreases |run|
  {
    run == [] || (Enabled(s, run[0]) && IsRun(Apply(s, run[0]), run[1..]))
  }

  ghost function After(s: State, run: seq<Step>): State
    decreases |run|
  {
    if run == [] then s else After(Apply(s, run[0]), run[1..])
  }

  /** Some completion in the run met a full ring and a failed allocation. */
  ghost predicate GrowthFailed(s: State, run: seq<Step>)
    decreases |run|
  {
    run != [] && (FailsToGrow(s, run[0]) || GrowthFailed(Apply(s, run[0]), run[1..]))
  }

  lemma {:induction false} RunKeepsInv(s: State, run: seq<Step>)
    requires Inv(s) && IsRun(s, run)
    ensures Inv(After(s, run))
    decreases |run|
  {
    if run != [] {
      KeepsInv(s, run[0]);
      RunKeepsInv(Apply(s, run[0]), run[1..]);
    }
  }

  /** No thread uses the queue after its destruction or an entry after its release, no memory is
  released twice, and no byte goes to a closed descriptor. */
  lemma NoUseAfterFree(s: State, run: seq<Step>)
    requires Initial(s) && IsRun(s, run)
    ensures !After(s, run).fault
    ensures After(s, run).destroyed <= 1
  {
    RunKeepsInv(s, run);
  }

  /** Does the step use the queue's memory, and which entry's? */
  predicate UsesQueue(s: State, step: Step) {
    match step
    case EntryNew(_, _) => true
    case CompleteLocked(_, _) => true
    case CompleteWrite => true
    case FreeLocked(_) => true
    case Release(i) => i < |s.releases| && s.releases[i] > 0
    case DrainLocked(_) => true
    case DrainReturn => s.handler.Releasing? && s.handler.freed > 0
    case EngineClose => true
    case QueueFreeClose => true
    case QueueFreeRelease => s.owner.FreeClosed? && s.owner.freed > 0
    case QueueFreeLast => true
    case _ => false
  }

  predicate UsesEntry(step: Step) {
    step.SetSlot? || step.Callback? || step.CompleteLocked? || step.FreeCall? || step.FreeLocked? || step.FreeMemory?
  }

  /** Whatever a thread does next, the memory that it uses is there: the queue is not destroyed nor
  about to be, the entry is allocated, the descriptor is open, and no destruction is the second. */
  lemma NextStepUsesLiveMemory(s: State, run: seq<Step>, step: Step)
    requires Initial(s) && IsRun(s, run) && Enabled(After(s, run), step)
    ensures var t := After(s, run);
      && (UsesQueue(t, step) ==> !t.destroying && t.destroyed == 0 && t.refs > 0)
      && (UsesEntry(step) ==> step.e in t.q.heap)
      && (step.CompleteWrite? ==> t.q.writeFd >= 0 && t.fdOpen)
      && (step.Destroy? ==> t.destroyed == 0 && t.refs == 0)
  {
    RunKeepsInv(s, run);
    var t := After(s, run);
    HeapEmptyOrNot(t);
    if step.Release? {
      SumClear(t.releases, step.i);
    }
  }

  lemma HeapEmptyOrNot(t: State)
    ensures forall e :: e in t.q.heap ==> |t.q.heap| > 0
  {
    forall e | e in t.q.heap ensures |t.q.heap| > 0 {
      HeapSize(t.q.heap, e, t.q.heap[e]);
    }
  }

  /** No wake-up is lost: an entry in the ring is drained later, because a byte is unread, or a
  completer is about to write one, or the reader callback drains again before it returns. */
  lemma NoLostWakeUp(s: State, run: seq<Step>)
    requires Initial(s) && IsRun(s, run)
    ensures After(s, run).q.items != [] ==> !After(s, run).q.closed && SomeoneWillDrain(After(s, run))
  {
    RunKeepsInv(s, run);
  }

  lemma CountExact(s: State, run: seq<Step>)
    requires Initial(s) && IsRun(s, run)
    ensures RefsExact(After(s, run)) && DestroyedOnce(After(s, run))
  {
    RunKeepsInv(s, run);
  }

  /** An entry is in the ring exactly while it is QUEUED, or FREED and not yet unlinked, unless the
  ring could not grow for it; what the ring holds is allocated and held once. */
  lemma LinkedExactly(s: State, run: seq<Step>, e: EntryId)
    requires Initial(s) && IsRun(s, run)
    ensures var t := After(s, run);
      && (e in t.q.items ==> e in t.q.heap)
      && (e in t.q.heap ==>
            (e in t.q.items <==> !t.q.heap[e].state.Idle? && e !in t.unlocked && e !in t.stranded))
    ensures forall i, j :: 0 <= i < j < |After(s, run).q.items| ==> After(s, run).q.items[i] != After(s, run).q.items[j]
  {
    RunKeepsInv(s, run);
    var t := After(s, run);
    if e in t.q.heap {
      assert EntryOk(t, e);
    }
  }

  lemma StrandedBy(s: State, step: Step)
    requires Inv(s) && Enabled(s, step)
    ensures Apply(s, step).stranded == if FailsToGrow(s, step) then s.stranded + {step.e} else s.stranded
  {
  }

  lemma {:induction false} StrandedIffGrowthFailed(s: State, run: seq<Step>)
    requires Inv(s) && IsRun(s, run)
    ensures After(s, run).stranded != {} <==> s.stranded != {} || GrowthFailed(s, run)
    decreases |run|
  {
    if run != [] {
      KeepsInv(s, run[0]);
      StrandedBy(s, run[0]);
      StrandedIffGrowthFailed(Apply(s, run[0]), run[1..]);
    }
  }

  /** The engine and every helper are gone, and no thread has anything left to do. */
  predicate AllLetGo(s: State) {
    && s.owner.Gone? && s.handler.Waiting? && s.writer.None? && !s.destroying
    && s.owned == {} && s.freeing == {} && s.unlocked == {} && Sum(s.releases) == 0
  }

  /** Whichever of the engine and the entries goes first, in the end the queue and every entry are
  released, if and only if no completion met a failed growth of a full ring. */
  lemma AllMemoryReleased(s: State, run: seq<Step>)
    requires Initial(s) && IsRun(s, run)
    requires AllLetGo(After(s, run))
    ensures var t := After(s, run);
      && (t.destroyed == 1 <==> !GrowthFailed(s, run))
      && (t.q.heap == map[] <==> !GrowthFailed(s, run))
  {
    RunKeepsInv(s, run);
    InitialInv(s);
    StrandedIffGrowthFailed(s, run);
    var t := After(s, run);
    forall e | e in t.q.heap ensures e in t.stranded {
      assert EntryOk(t, e);
    }
    if t.stranded != {} {
      var e :| e in t.stranded;
      assert e in t.q.heap;
    } else {
      assert t.q.heap == map[];
    }
  }

  // ---------- a run in which growth fails ----------

  lemma {:induction false} ExtendRun(s: State, run: seq<Step>, step: Step)
    requires IsRun(s, run) && Enabled(After(s, run), step)
    ensures IsRun(s, run + [step]) && After(s, run + [step]) == Apply(After(s, run), step)
    decreases |run|
  {
    if run == [] {
      assert run + [step] == [step];
      assert [step][1..] == [];
    } else {
      assert (run + [step])[1..] == run[1..] + [step];
      ExtendRun(Apply(s, run[0]), run[1..], step);
    }
  }

  /** `n` entries are linked and nobody has drained. */
  ghost predicate Filled(s: State, n: nat) {
    && WellLinked(s.q) && s.owner.Holding? && s.writer.None? && !s.q.closed
    && |s.q.items| == n && s.q.capacity == INITIAL_CAPACITY
    && (forall e :: e in s.q.heap ==> e < n)
  }

  /** The state after a new entry completes, up to the push. */
  function Completed(s: State, e: EntryId, mallocOk: bool): State {
    CompleteStep(CallbackStep(NewStep(s, e, 1), e), e, mallocOk)
  }

  lemma CompletesNew(s: State, e: EntryId, mallocOk: bool)
    requires Filled(s, e)
    ensures Enabled(s, EntryNew(e, 1)) && Enabled(NewStep(s, e, 1), Callback(e))
    ensures Enabled(CallbackStep(NewStep(s, e, 1), e), CompleteLocked(e, mallocOk))
    ensures var t := Completed(s, e, mallocOk);
      && t.writer == Some(e) && e in t.q.heap
      && (e < INITIAL_CAPACITY ==> Filled(WriteStep(t), e + 1))
      && (e == INITIAL_CAPACITY && !mallocOk ==> e in t.stranded && e !in t.q.items)
  {
    LinkKeepsLinked(NewStep(s, e, 1).q, e, mallocOk);
  }

  lemma CompleteNew(s: State, run: seq<Step>, e: EntryId, mallocOk: bool) returns (run': seq<Step>)
    requires IsRun(s, run) && Filled(After(s, run), e)
    ensures IsRun(s, run') && After(s, run') == Completed(After(s, run), e, mallocOk)
  {
    CompletesNew(After(s, run), e, mallocOk);
    ExtendRun(s, run, EntryNew(e, 1));
    run' := run + [EntryNew(e, 1)];
    ExtendRun(s, run', Callback(e));
    run' := run' + [Callback(e)];
    ExtendRun(s, run', CompleteLocked(e, mallocOk));
    run' := run' + [CompleteLocked(e, mallocOk)];
  }

  lemma {:induction false} FillRing(s: State, n: nat) returns (run: seq<Step>)
    requires Initial(s) && n <= INITIAL_CAPACITY
    ensures IsRun(s, run) && Filled(After(s, run), n)
  {
    if n == 0 {
      run := [];
    } else {
      run := FillRing(s, n - 1);
      CompletesNew(After(s, run), n - 1, true);
      run := CompleteNew(s, run, n - 1, true);
      ExtendRun(s, run, CompleteWrite);
      run := run + [CompleteWrite];
    }
  }

  /** The 257th completion that nobody drains can be stranded: its entry is QUEUED, is not in the
  ring, and is never drained. */
  lemma GrowthCanFail(s: State) returns (run: seq<Step>, e: EntryId)
    requires Initial(s)
    ensures IsRun(s, run)
    ensures e in After(s, run).stranded && e in After(s, run).q.heap && e !in After(s, run).q.items
  {
    run := FillRing(s, INITIAL_CAPACITY);
    e := INITIAL_CAPACITY;
    CompletesNew(After(s, run), e, false);
    run := CompleteNew(s, run, e, false);
  }
}
