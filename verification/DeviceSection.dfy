/** `_device_section` of pynng/_base.py and the finalizers that can run at any point of any thread:
the lock is not reentrant, so a finalizer on a thread that may hold it hands its work to a new
thread. */
module DeviceSection {
  import opened Wrappers

  type ThreadId = nat

  // Where a thread is inside `with _device_section():`.
  datatype Place =
    | Entered        // the depth was read, the mark is not set yet
    | Marked         // the mark is set, the lock is not taken yet
    | Locked         // the body
    | Unlocked       // the lock is released, the mark is still set

  // A section, or a Socket or DeviceAIO finalizer that interrupted the code below it; a finalizer
  // first asks _in_device_section() and then works or hands off.
  datatype Frame = Section(saved: nat, place: Place) | Asking(f: FinalizerId) | Working(f: FinalizerId)

  // One run of a finalizer.
  type FinalizerId = nat

  datatype Stack = Empty | On(top: Frame, below: Stack)

  datatype Thread = Thread(depth: nat, stack: Stack)

  datatype State = State(
    threads: map<ThreadId, Thread>,
    lock: Option<ThreadId>,
    handsOff: bool,            // do finalizers ask _in_device_section()?
    deadlocked: bool,          // a thread waits for the lock that it holds
    begun: set<FinalizerId>,   // the finalizers that were ever called
    done: set<FinalizerId>)    // those whose work was done

  datatype Step =
    | Enter(t: ThreadId)
    | SetMark(t: ThreadId)
    | TakeLock(t: ThreadId)
    | ReleaseLock(t: ThreadId)
    | ClearMark(t: ThreadId)
    | Finalize(t: ThreadId, f: FinalizerId)
    | Ask(t: ThreadId, helper: ThreadId)
    | FinalizerReturns(t: ThreadId)

  predicate AtPlace(s: State, t: ThreadId, place: Place) {
    t in s.threads && s.threads[t].stack.On? && s.threads[t].stack.top.Section? && s.threads[t].stack.top.place == place
  }

  predicate Asks(s: State, t: ThreadId) {
    t in s.threads && s.threads[t].stack.On? && s.threads[t].stack.top.Asking?
  }

  predicate Works(s: State, t: ThreadId) {
    t in s.threads && s.threads[t].stack.On? && s.threads[t].stack.top.Working?
  }

  /** Ordinary code and working finalizers enter sections; a finalizer can start anywhere. */
  predicate Enabled(s: State, step: Step) {
    match step
    case Enter(t) => t in s.threads && (s.threads[t].stack.Empty? || Works(s, t))
    case SetMark(t) => AtPlace(s, t, Entered)
    case TakeLock(t) => AtPlace(s, t, Marked) && (s.lock.None? || s.lock == Some(t))
    case ReleaseLock(t) => AtPlace(s, t, Locked)
    case ClearMark(t) => AtPlace(s, t, Unlocked)
    case Finalize(t, f) => t in s.threads && f !in s.begun
    case Ask(t, helper) => Asks(s, t) && helper !in s.threads
    case FinalizerReturns(t) => Works(s, t)
  }

  function SetThread(s: State, t: ThreadId, depth: nat, stack: Stack): State {
    s.(threads := s.threads[t := Thread(depth, stack)])
  }

  function Apply(s: State, step: Step): State
    requires Enabled(s, step)
  {
    var depth, stack := s.threads[step.t].depth, s.threads[step.t].stack;
    match step
    case Enter(t) => SetThread(s, t, depth, On(Section(depth, Entered), stack))
    case SetMark(t) => SetThread(s, t, stack.top.saved + 1, stack.(top := stack.top.(place := Marked)))
    case TakeLock(t) =>
      if s.lock == Some(t) then s.(deadlocked := true)
      else SetThread(s, t, depth, stack.(top := stack.top.(place := Locked))).(lock := Some(t))
    case ReleaseLock(t) => SetThread(s, t, depth, stack.(top := stack.top.(place := Unlocked))).(lock := None)
    case ClearMark(t) => SetThread(s, t, stack.top.saved, stack.below)
    case Finalize(t, f) => SetThread(s, t, depth, On(Asking(f), stack)).(begun := s.begun + {f})
    case Ask(t, helper) =>
      var work := Working(stack.top.f);
      if s.handsOff && depth > 0 then SetThread(SetThread(s, t, depth, stack.below), helper, 0, On(work, Empty))
      else SetThread(s, t, depth, stack.(top := work))
    case FinalizerReturns(t) => SetThread(s, t, depth, stack.below).(done := s.done + {stack.top.f})
  }

  /** Threads outside any section; the lock is free. */
  predicate Initial(s: State) {
    && (forall t :: t in s.threads ==> s.threads[t] == Thread(0, Empty))
    && s.lock.None? && !s.deadlocked && s.begun == {} && s.done == {}
  }

  // ---------- the invariant ----------

  predicate IsMarked(f: Frame) {
    f.Section? && !f.place.Entered?
  }

  /** The depth that the stack accounts for. */
  function Marks(stack: Stack): nat {
    match stack
    case Empty => 0
    case On(top, below) => Marks(below) + if IsMarked(top) then 1 else 0
  }

  /** Sections restore the depth below them, and above a marked section there are only finalizers
  that have not decided yet. */
  predicate StackOk(stack: Stack) {
    match stack
    case Empty => true
    case On(top, below) =>
      && StackOk(below)
      && (top.Section? ==> top.saved == Marks(below))
      && (!top.Asking? ==> Marks(below) == 0)
  }

  predicate HoldsLock(stack: Stack) {
    match stack
    case Empty => false
    case On(top, below) => (top.Section? && top.place.Locked?) || HoldsLock(below)
  }

  predicate ThreadOk(s: State, t: ThreadId)
    requires t in s.threads
  {
    && s.threads[t].depth == Marks(s.threads[t].stack)
    && StackOk(s.threads[t].stack)
    && (HoldsLock(s.threads[t].stack) <==> s.lock == Some(t))
  }

  predicate Inv(s: State) {
    && s.handsOff && !s.deadlocked
    && (forall t :: t in s.threads ==> ThreadOk(s, t))
    && (s.lock.Some? ==> s.lock.value in s.threads)
  }

  /** A thread that holds the lock is marked. */
  lemma {:induction false} HolderIsMarked(stack: Stack)
    ensures HoldsLock(stack) ==> Marks(stack) > 0
  {
    if stack.On? {
      HolderIsMarked(stack.below);
    }
  }

  lemma KeepsInv(s: State, step: Step)
    requires Inv(s) && Enabled(s, step)
    ensures Inv(Apply(s, step))
  {
    var t, s' := step.t, Apply(s, step);
    var stack := s.threads[t].stack;
    assert ThreadOk(s, t);
    if stack.On? {
      HolderIsMarked(stack.below);
    }
    assert ThreadOk(s', t);
    forall x | x in s'.threads && x != t ensures ThreadOk(s', x) {
      assert x in s.threads ==> ThreadOk(s, x);
    }
  }

  // ---------- whole runs ----------

  predicate IsRun(s: State, run: seq<Step>)
    decreases |run|
  {
    run == [] || (Enabled(s, run[0]) && IsRun(Apply(s, run[0]), run[1..]))
  }

  function After(s: State, run: seq<Step>): State
    requires IsRun(s, run)
    decreases |run|
  {
    if run == [] then s else After(Apply(s, run[0]), run[1..])
  }

  lemma {:induction false} RunKeepsInv(s: State, run: seq<Step>)
    requires Inv(s) && IsRun(s, run)
    ensures Inv(After(s, run))
    decreases |run|
  {
    if run != [] {
      KeepsInv(s, run[0]);
      RunKeepsInv(Apply(s, run[0]), run[1..]);
    }
  }

  /** No thread waits for a lock that it holds itself, wherever finalizers run. */
  lemma NoSelfDeadlock(s: State, run: seq<Step>)
    requires Initial(s) && s.handsOff && IsRun(s, run)
    ensures !After(s, run).deadlocked
  {
    RunKeepsInv(s, run);
  }

  lemma {:induction false} BoundedSet(ts: set<ThreadId>) returns (n: nat)
    ensures forall t :: t in ts ==> t < n
  {
    if ts == {} {
      n := 0;
    } else {
      var t :| t in ts;
      var m := BoundedSet(ts - {t});
      n := if t < m then m else t + 1;
      forall x | x in ts ensures x < n {
        assert x == t || x in ts - {t};
      }
    }
  }

  /** The mark covers all the time that a thread holds the lock, and on the holder's stack nothing
  but undecided finalizers lies above the section, so the holder always has a step to take. */
  lemma HolderCanStep(s: State, run: seq<Step>, t: ThreadId) returns (step: Step)
    requires Initial(s) && s.handsOff && IsRun(s, run) && After(s, run).lock == Some(t)
    ensures t in After(s, run).threads && After(s, run).threads[t].depth > 0
    ensures Enabled(After(s, run), step) && (step == ReleaseLock(t) || (step.Ask? && step.t == t))
  {
    RunKeepsInv(s, run);
    var u := After(s, run);
    assert ThreadOk(u, t);
    var stack := u.threads[t].stack;
    HolderIsMarked(stack);
    HolderIsMarked(stack.below);
    if stack.top.Asking? {
      var helper := BoundedSet(u.threads.Keys);
      step := Ask(t, helper);
    } else {
      step := ReleaseLock(t);
    }
  }

  lemma Cons(s: State, step: Step, rest: seq<Step>)
    requires Enabled(s, step) && IsRun(Apply(s, step), rest)
    ensures IsRun(s, [step] + rest) && After(s, [step] + rest) == After(Apply(s, step), rest)
  {
    assert ([step] + rest)[1..] == rest;
  }

  /** Without the question a single thread can deadlock: a finalizer enters the section that its
  own thread is in. */
  lemma WithoutHandOff(s: State, t: ThreadId) returns (run: seq<Step>)
    requires Initial(s) && !s.handsOff && t in s.threads
    ensures IsRun(s, run) && After(s, run).deadlocked
  {
    var helper := BoundedSet(s.threads.Keys);
    var s3 := Apply(Apply(Apply(s, Enter(t)), SetMark(t)), TakeLock(t));
    var s5 := Apply(Apply(s3, Finalize(t, 0)), Ask(t, helper));
    var s7 := Apply(Apply(s5, Enter(t)), SetMark(t));
    Cons(s7, TakeLock(t), []);
    Cons(Apply(s5, Enter(t)), SetMark(t), [TakeLock(t)] + []);
    Cons(s5, Enter(t), [SetMark(t)] + ([TakeLock(t)] + []));
    run := [Enter(t)] + ([SetMark(t)] + ([TakeLock(t)] + []));
    Cons(Apply(s3, Finalize(t, 0)), Ask(t, helper), run);
    run := [Ask(t, helper)] + run;
    Cons(s3, Finalize(t, 0), run);
    run := [Finalize(t, 0)] + run;
    Cons(Apply(Apply(s, Enter(t)), SetMark(t)), TakeLock(t), run);
    run := [TakeLock(t)] + run;
    Cons(Apply(s, Enter(t)), SetMark(t), run);
    run := [SetMark(t)] + run;
    Cons(s, Enter(t), run);
    run := [Enter(t)] + run;
  }

  /** Asking the question is what keeps threads from deadlocking on themselves. */
  lemma NoSelfDeadlockIffHandsOff(s: State)
    requires Initial(s) && s.threads != map[]
    ensures s.handsOff <==> forall run: seq<Step> :: IsRun(s, run) ==> !After(s, run).deadlocked
  {
    if s.handsOff {
      forall run | IsRun(s, run) ensures !After(s, run).deadlocked { NoSelfDeadlock(s, run); }
    } else {
      var t :| t in s.threads;
      var run := WithoutHandOff(s, t);
    }
  }

  // ---------- no finalizer's work is lost ----------

  /** How often the finalizer `f` is on the stack, undecided or at work. */
  function Pending(stack: Stack, f: FinalizerId): nat {
    match stack
    case Empty => 0
    case On(top, below) => Pending(below, f) + if top == Asking(f) || top == Working(f) then 1 else 0
  }

  function PendingOn(s: State, t: ThreadId, f: FinalizerId): nat {
    if t in s.threads then Pending(s.threads[t].stack, f) else 0
  }

  ghost predicate OnlyOn(s: State, t: ThreadId, f: FinalizerId) {
    PendingOn(s, t, f) == 1 && forall u :: u != t ==> PendingOn(s, u, f) == 0
  }

  /** A finalizer that was called and has not done its work is on one stack, once, and no other is on any. */
  ghost predicate Kept(s: State, f: FinalizerId) {
    if f in s.begun && f !in s.done then
      exists t :: OnlyOn(s, t, f)
    else
      forall t :: PendingOn(s, t, f) == 0
  }

  ghost predicate NoneLost(s: State) {
    s.done <= s.begun && forall f :: Kept(s, f)
  }

  /** A step of `t` leaves other finalizers where they are. */
  lemma OthersStayPending(s: State, step: Step, f: FinalizerId)
    requires Enabled(s, step)
    requires step.Finalize? ==> f != step.f
    requires step.Ask? || step.FinalizerReturns? ==> f != s.threads[step.t].stack.top.f
    ensures forall u :: PendingOn(Apply(s, step), u, f) == PendingOn(s, u, f)
  {
    var s' := Apply(s, step);
    var stack := s.threads[step.t].stack;
    assert Pending(Empty, f) == 0;
    if stack.On? {
      var here := if stack.top == Asking(f) || stack.top == Working(f) then 1 else 0;
      assert Pending(stack, f) == Pending(stack.below, f) + here;
    }
    assert PendingOn(s', step.t, f) == PendingOn(s, step.t, f);
    if step.Ask? {
      assert Pending(On(Working(stack.top.f), Empty), f) == 0;
      assert PendingOn(s', step.helper, f) == 0;
    }
    forall u ensures PendingOn(s', u, f) == PendingOn(s, u, f) {
    }
  }

  lemma SameCountsKept(s: State, s': State, f: FinalizerId)
    requires Kept(s, f) && forall u :: PendingOn(s', u, f) == PendingOn(s, u, f)
    requires (f in s'.begun <==> f in s.begun) && (f in s'.done <==> f in s.done)
    ensures Kept(s', f)
  {
    if f in s.begun && f !in s.done {
      var t :| OnlyOn(s, t, f);
      assert OnlyOn(s', t, f);
    }
  }

  lemma KeepsFinalizer(s: State, step: Step)
    requires NoneLost(s) && Enabled(s, step) && (step.Finalize? || step.Ask? || step.FinalizerReturns?)
    ensures var f := if step.Finalize? then step.f else s.threads[step.t].stack.top.f;
      f in Apply(s, step).begun && Kept(Apply(s, step), f)
  {
    var s' := Apply(s, step);
    var t := step.t;
    var f := if step.Finalize? then step.f else s.threads[t].stack.top.f;
    assert Kept(s, f);
    if step.Finalize? {
      assert forall u :: u != t ==> PendingOn(s', u, f) == PendingOn(s, u, f);
      assert PendingOn(s, t, f) == 0 && PendingOn(s', t, f) == 1;
      assert OnlyOn(s', t, f);
    } else {
      var stack := s.threads[t].stack;
      assert Pending(stack, f) == Pending(stack.below, f) + 1 && Pending(Empty, f) == 0;
      assert PendingOn(s, t, f) > 0;
      var t1 :| OnlyOn(s, t1, f);
      assert t1 == t;
      var holder := if step.Ask? && s.handsOff && s.threads[t].depth > 0 then step.helper else t;
      forall u | u != holder ensures PendingOn(s', u, f) == 0 {
        assert u != t ==> PendingOn(s, u, f) == 0;
      }
      assert Pending(On(Working(f), Empty), f) == 1;
      if step.Ask? {
        assert OnlyOn(s', holder, f);
      } else {
        assert PendingOn(s', t, f) == 0;
      }
    }
  }

  lemma KeepsNoneLost(s: State, step: Step)
    requires NoneLost(s) && Enabled(s, step)
    ensures NoneLost(Apply(s, step))
  {
    var s' := Apply(s, step);
    forall f ensures Kept(s', f) {
      assert Kept(s, f);
      if (step.Finalize? && f == step.f)
        || ((step.Ask? || step.FinalizerReturns?) && f == s.threads[step.t].stack.top.f) {
        KeepsFinalizer(s, step);
      } else {
        OthersStayPending(s, step, f);
        SameCountsKept(s, s', f);
      }
    }
    if step.FinalizerReturns? {
      KeepsFinalizer(s, step);
    }
  }

  lemma {:induction false} RunKeepsNoneLost(s: State, run: seq<Step>)
    requires NoneLost(s) && IsRun(s, run)
    ensures NoneLost(After(s, run))
    decreases |run|
  {
    if run != [] {
      KeepsNoneLost(s, run[0]);
      RunKeepsNoneLost(Apply(s, run[0]), run[1..]);
    }
  }

  /** In every run, whether finalizers hand off or not, each one that was ever called has done its
  work, or is on exactly one thread's stack, once. */
  lemma NoFinalizerIsLost(s: State, run: seq<Step>, f: FinalizerId)
    requires Initial(s) && IsRun(s, run)
    requires f in After(s, run).begun && f !in After(s, run).done
    ensures exists t :: OnlyOn(After(s, run), t, f)
  {
    forall g ensures Kept(s, g) {
    }
    RunKeepsNoneLost(s, run);
    assert Kept(After(s, run), f);
  }

  predicate EverFinalizes(run: seq<Step>, f: FinalizerId) {
    exists i :: 0 <= i < |run| && run[i].Finalize? && run[i].f == f
  }

  /** The finalizers begun are those that the run calls. */
  lemma {:induction false} BegunAreCalled(s: State, run: seq<Step>, f: FinalizerId)
    requires IsRun(s, run)
    ensures f in After(s, run).begun <==> f in s.begun || EverFinalizes(run, f)
    decreases |run|
  {
    if run != [] {
      BegunAreCalled(Apply(s, run[0]), run[1..], f);
      assert forall i :: 0 <= i < |run[1..]| ==> run[1..][i] == run[i+1];
      if EverFinalizes(run, f) && !(run[0].Finalize? && run[0].f == f) {
        var i :| 0 <= i < |run| && run[i].Finalize? && run[i].f == f;
        assert run[1..][i-1] == run[i];
      }
    }
  }

  function Returns(run: seq<Step>): nat {
    if run == [] then 0 else (if run[0].FinalizerReturns? then 1 else 0) + Returns(run[1..])
  }

  /** As many finalizers are done as have returned from their work. */
  lemma {:induction false} DoneHaveReturned(s: State, run: seq<Step>)
    requires NoneLost(s) && IsRun(s, run)
    ensures |After(s, run).done| == |s.done| + Returns(run)
    decreases |run|
  {
    if run != [] {
      KeepsNoneLost(s, run[0]);
      if run[0].FinalizerReturns? {
        var f := s.threads[run[0].t].stack.top.f;
        assert Kept(s, f) && PendingOn(s, run[0].t, f) > 0;
        assert f !in s.done;
      }
      DoneHaveReturned(Apply(s, run[0]), run[1..]);
    }
  }
}
