/** Devices against close: `_start_device`, `_stop_device` and `Socket._end_devices` of
pynng/_base.py, and the users that start, await, stop and free a device aio.  The device lock is
modelled step by step, because `_socket_closed` is set outside it. */
module DeviceClose {
  import opened Wrappers

  type SocketId = nat
  // A device and its nng_aio.
  type DeviceId = nat

  datatype Phase =
    | Ready                    // the aio is allocated
    | Checking(checked: nat)   // holds the lock; so many owners were open
    | Raised                   // Closed was raised; never started
    | Adding(added: nat)       // holds the lock; nng runs the device; so many owners know the aio
    | Active                   // the lock is released, the user waits for the aio
    | Waited                   // nng_aio_wait returned; also for an aio that was never started
    | Discarding(gone: nat)    // holds the lock in _stop_device
    | Stopped
    | AioFreed

  datatype Device = Device(owners: seq<SocketId>, phase: Phase)

  // The one thread that closes a socket, after it set `_socket_closed`.
  datatype Closer =
    | Flagged
    | Ending(toAbort: set<DeviceId>, toWait: set<DeviceId>)   // holds the lock
    | Ended
    | CloseFnRan

  datatype Holder = ByDevice(d: DeviceId) | ByCloser(s: SocketId)

  datatype State = State(
    devices: map<DeviceId, Device>,
    aios: map<SocketId, set<DeviceId>>,   // _device_aios
    closers: map<SocketId, Closer>,       // exactly the sockets with _socket_closed set
    lock: Option<Holder>,
    started: set<DeviceId>,
    done: set<DeviceId>,
    aborted: set<DeviceId>,
    fault: bool)                          // a freed aio was used

  datatype Step =
    | NewDevice(d: DeviceId, owners: seq<SocketId>)
    | StartAcquire(d: DeviceId)
    | CheckOwner(d: DeviceId)
    | Launch(d: DeviceId)
    | AddOwner(d: DeviceId)
    | StartRelease(d: DeviceId)
    | NngDone(d: DeviceId)
    | WaitReturns(d: DeviceId)
    | WaitUnstarted(d: DeviceId)
    | StopAcquire(d: DeviceId)
    | DiscardOwner(d: DeviceId)
    | StopRelease(d: DeviceId)
    | FreeAio(d: DeviceId)
    | SetClosed(s: SocketId)
    | EndAcquire(s: SocketId)
    | Abort(s: SocketId, d: DeviceId)
    | WaitFor(s: SocketId, d: DeviceId)
    | EndRelease(s: SocketId)
    | RunCloseFn(s: SocketId)

  function Owners(s: State, d: DeviceId): seq<SocketId>
    requires d in s.devices
  {
    s.devices[d].owners
  }

  function AiosOf(s: State, k: SocketId): set<DeviceId> {
    if k in s.aios then s.aios[k] else {}
  }

  predicate IsEnding(s: State, k: SocketId) {
    k in s.closers && s.closers[k].Ending?
  }

  predicate Enabled(s: State, step: Step) {
    match step
    case NewDevice(d, _) => d !in s.devices
    case StartAcquire(d) => d in s.devices && s.devices[d].phase.Ready? && s.lock.None?
    case CheckOwner(d) => d in s.devices && s.devices[d].phase.Checking? && s.devices[d].phase.checked < |Owners(s, d)|
    case Launch(d) => d in s.devices && s.devices[d].phase.Checking? && s.devices[d].phase.checked == |Owners(s, d)|
    case AddOwner(d) => d in s.devices && s.devices[d].phase.Adding? && s.devices[d].phase.added < |Owners(s, d)|
    case StartRelease(d) => d in s.devices && s.devices[d].phase.Adding? && s.devices[d].phase.added == |Owners(s, d)|
    case NngDone(d) => d in s.started && d !in s.done
    case WaitReturns(d) => d in s.devices && s.devices[d].phase.Active? && d in s.done
    case WaitUnstarted(d) => d in s.devices && (s.devices[d].phase.Ready? || s.devices[d].phase.Raised?)
    case StopAcquire(d) => d in s.devices && s.devices[d].phase.Waited? && s.lock.None?
    case DiscardOwner(d) => d in s.devices && s.devices[d].phase.Discarding? && s.devices[d].phase.gone < |Owners(s, d)|
    case StopRelease(d) => d in s.devices && s.devices[d].phase.Discarding? && s.devices[d].phase.gone == |Owners(s, d)|
    case FreeAio(d) => d in s.devices && (s.devices[d].phase.Stopped? || s.devices[d].phase.Raised?)
    case SetClosed(k) => k !in s.closers
    case EndAcquire(k) => k in s.closers && s.closers[k].Flagged? && s.lock.None?
    case Abort(k, d) => IsEnding(s, k) && d in s.closers[k].toAbort
    case WaitFor(k, d) => IsEnding(s, k) && s.closers[k].toAbort == {} && d in s.closers[k].toWait && d in s.done
    case EndRelease(k) => IsEnding(s, k) && s.closers[k].toAbort == {} && s.closers[k].toWait == {}
    case RunCloseFn(k) => k in s.closers && s.closers[k].Ended?
  }

  function SetPhase(s: State, d: DeviceId, phase: Phase): State
    requires d in s.devices
  {
    s.(devices := s.devices[d := s.devices[d].(phase := phase)])
  }

  /** Uses the aio of `d`. */
  function UseAio(s: State, d: DeviceId): State {
    s.(fault := s.fault || d !in s.devices || s.devices[d].phase.AioFreed?)
  }

  function Apply(s: State, step: Step): State
    requires Enabled(s, step)
  {
    match step
    case NewDevice(d, owners) => s.(devices := s.devices[d := Device(owners, Ready)])
    case StartAcquire(d) => SetPhase(s, d, Checking(0)).(lock := Some(ByDevice(d)))
    case CheckOwner(d) =>
      var i := s.devices[d].phase.checked;
      if Owners(s, d)[i] in s.closers then SetPhase(s, d, Raised).(lock := None)
      else SetPhase(s, d, Checking(i + 1))
    case Launch(d) => SetPhase(UseAio(s, d), d, Adding(0)).(started := s.started + {d})
    case AddOwner(d) =>
      var i := s.devices[d].phase.added;
      var k := Owners(s, d)[i];
      SetPhase(s, d, Adding(i + 1)).(aios := s.aios[k := AiosOf(s, k) + {d}])
    case StartRelease(d) => SetPhase(s, d, Active).(lock := None)
    case NngDone(d) => s.(done := s.done + {d})
    case WaitReturns(d) => SetPhase(UseAio(s, d), d, Waited)
    case WaitUnstarted(d) => SetPhase(UseAio(s, d), d, Waited)
    case StopAcquire(d) => SetPhase(s, d, Discarding(0)).(lock := Some(ByDevice(d)))
    case DiscardOwner(d) =>
      var i := s.devices[d].phase.gone;
      var k := Owners(s, d)[i];
      SetPhase(s, d, Discarding(i + 1)).(aios := s.aios[k := AiosOf(s, k) - {d}])
    case StopRelease(d) => SetPhase(s, d, Stopped).(lock := None)
    case FreeAio(d) => SetPhase(s, d, AioFreed)
    case SetClosed(k) => s.(closers := s.closers[k := Flagged])
    case EndAcquire(k) => s.(closers := s.closers[k := Ending(AiosOf(s, k), AiosOf(s, k))], lock := Some(ByCloser(k)))
    case Abort(k, d) =>
      UseAio(s, d).(closers := s.closers[k := s.closers[k].(toAbort := s.closers[k].toAbort - {d})],
                    aborted := s.aborted + {d})
    case WaitFor(k, d) =>
      UseAio(s, d).(closers := s.closers[k := s.closers[k].(toWait := s.closers[k].toWait - {d})])
    case EndRelease(k) => s.(closers := s.closers[k := Ended], lock := None)
    case RunCloseFn(k) => s.(closers := s.closers[k := CloseFnRan])
  }

  predicate Initial(s: State) {
    s == State(map[], map[], map[], None, {}, {}, {}, false)
  }

  // ---------- the invariant ----------

  predicate Holds(phase: Phase) {
    phase.Checking? || phase.Adding? || phase.Discarding?
  }

  /** A list can hold the device, so its aio still exists. */
  predicate Live(phase: Phase) {
    phase.Adding? || phase.Active? || phase.Waited? || phase.Discarding?
  }

  /** Has the closer of `k` gone past the point where it took the lock? */
  predicate PastLock(s: State, k: SocketId) {
    k in s.closers && !s.closers[k].Flagged?
  }

  predicate IsOver(s: State, k: SocketId) {
    k in s.closers && (s.closers[k].Ended? || s.closers[k].CloseFnRan?)
  }

  predicate Knows(s: State, d: DeviceId, dev: Device, i: nat)
    requires i < |dev.owners|
  {
    d in AiosOf(s, dev.owners[i])
  }

  predicate DeviceOk(s: State, d: DeviceId, dev: Device) {
    && (Holds(dev.phase) <==> s.lock == Some(ByDevice(d)))
    && (dev.phase.Adding? || dev.phase.Active? ==> d in s.started)
    && (dev.phase.Ready? || dev.phase.Checking? || dev.phase.Raised? ==> d !in s.started)
    && (d in s.done ==> d in s.started)
    && (d in s.started ==> d in s.done || dev.phase.Adding? || dev.phase.Active?)
    && match dev.phase
       case Checking(n) =>
         n <= |dev.owners| && forall i :: 0 <= i < n ==> !PastLock(s, dev.owners[i])
       case Adding(n) =>
         && n <= |dev.owners|
         && (forall i :: 0 <= i < |dev.owners| ==> !PastLock(s, dev.owners[i]))
         && (forall i :: 0 <= i < n ==> Knows(s, d, dev, i))
       case Active => forall i :: 0 <= i < |dev.owners| ==> Knows(s, d, dev, i) && OwnerOk(s, d, dev.owners[i])
       case Discarding(n) => n <= |dev.owners|
       case Raised => HasClosedOwner(s, dev)
       case _ => true
  }

  predicate HasClosedOwner(s: State, dev: Device) {
    exists i | 0 <= i < |dev.owners| :: dev.owners[i] in s.closers
  }

  /** A running device is waited for by a close that holds the lock, and by none that is past it. */
  predicate OwnerOk(s: State, d: DeviceId, k: SocketId) {
    && (IsEnding(s, k) ==> d in s.closers[k].toWait || (d in s.done && d in s.aborted))
    && (IsOver(s, k) ==> d in s.done && d in s.aborted)
  }

  predicate SocketOk(s: State, k: SocketId) {
    && (forall d {:trigger MayBeListed(s, d, k)} :: d in AiosOf(s, k) ==> MayBeListed(s, d, k))
    && (IsEnding(s, k) <==> s.lock == Some(ByCloser(k)))
    && (IsEnding(s, k) ==> s.closers[k].toAbort <= s.closers[k].toWait <= AiosOf(s, k))
    && (IsEnding(s, k) ==> forall d :: d in s.closers[k].toWait && d !in s.closers[k].toAbort ==> d in s.aborted)
  }

  /** An aio in a socket's set was started and is not freed: it is being added, runs, or is being discarded. */
  predicate MayBeListed(s: State, d: DeviceId, k: SocketId) {
    && d in s.devices && d in s.started
    && var dev := s.devices[d];
    match dev.phase
    case Adding(_) => k in dev.owners
    case Active => k in dev.owners
    case Waited => k in dev.owners
    case Discarding(gone) => gone <= |dev.owners| && k in dev.owners[gone..]
    case _ => false
  }

  ghost predicate Inv(s: State) {
    && !s.fault
    && (forall d {:trigger DeviceOk(s, d, s.devices[d])} :: d in s.devices ==> DeviceOk(s, d, s.devices[d]))
    && (forall d :: d in s.started || d in s.done ==> d in s.devices)
    && (forall k {:trigger SocketOk(s, k)} :: SocketOk(s, k))
    && (s.lock.Some? && s.lock.value.ByDevice? ==> s.lock.value.d in s.devices)
  }

  // ---------- every step keeps the invariant ----------

  /** The lists of `s'` hold no more than those of `s`, and what they hold may still be listed. */
  lemma KeepsSocket(s: State, s': State, k: SocketId)
    requires SocketOk(s, k)
    requires AiosOf(s', k) == AiosOf(s, k)
    requires forall d :: d in AiosOf(s, k) && MayBeListed(s, d, k) ==> MayBeListed(s', d, k)
    requires s'.closers == s.closers && s'.aborted == s.aborted
    requires s'.lock == Some(ByCloser(k)) <==> s.lock == Some(ByCloser(k))
    ensures SocketOk(s', k)
  {
    forall d | d in AiosOf(s', k) ensures MayBeListed(s', d, k) {
      assert d in AiosOf(s, k);
      assert MayBeListed(s, d, k);
    }
  }

  /** What the invariant says of a device depends on its lists, its owners' closers and the lock. */
  lemma KeepsDevice(s: State, s': State, d: DeviceId, dev: Device)
    requires DeviceOk(s, d, dev)
    requires forall k :: k in dev.owners ==> (d in AiosOf(s, k) ==> d in AiosOf(s', k))
    requires forall k :: k in dev.owners ==>
      (PastLock(s', k) ==> PastLock(s, k)) && (OwnerOk(s, d, k) ==> OwnerOk(s', d, k))
    requires HasClosedOwner(s, dev) ==> HasClosedOwner(s', dev)
    requires s'.lock == Some(ByDevice(d)) <==> s.lock == Some(ByDevice(d))
    requires d in s'.started <==> d in s.started
    requires d in s'.done <==> d in s.done
    ensures DeviceOk(s', d, dev)
  {
    match dev.phase
    case Checking(n) =>
      forall i | 0 <= i < n ensures !PastLock(s', dev.owners[i]) { assert !PastLock(s, dev.owners[i]); }
    case Adding(n) =>
      forall i | 0 <= i < |dev.owners| ensures !PastLock(s', dev.owners[i]) { assert !PastLock(s, dev.owners[i]); }
      forall i | 0 <= i < n ensures Knows(s', d, dev, i) { assert Knows(s, d, dev, i); }
    case Active =>
      forall i | 0 <= i < |dev.owners| ensures Knows(s', d, dev, i) && OwnerOk(s', d, dev.owners[i]) {
        assert Knows(s, d, dev, i) && OwnerOk(s, d, dev.owners[i]);
      }
    case _ =>
  }

  lemma KeepsNewDevice(s: State, d: DeviceId, owners: seq<SocketId>)
    requires Inv(s) && Enabled(s, NewDevice(d, owners))
    ensures Inv(Apply(s, NewDevice(d, owners)))
  {
    var s' := Apply(s, NewDevice(d, owners));
    forall x | x in s'.devices ensures DeviceOk(s', x, s'.devices[x]) {
      if x != d { KeepsDevice(s, s', x, s.devices[x]); }
    }
    forall k ensures SocketOk(s', k) { KeepsSocket(s, s', k); }
  }

  /** A device's steps that leave every list alone. */
  predicate ChangesPhaseOnly(step: Step, d: DeviceId) {
    && (step.StartAcquire? || step.CheckOwner? || step.Launch? || step.StartRelease? || step.WaitReturns?
        || step.WaitUnstarted? || step.StopAcquire? || step.StopRelease? || step.FreeAio?)
    && step.d == d
  }

  lemma KeepsDeviceStep(s: State, d: DeviceId, step: Step)
    requires Inv(s) && Enabled(s, step) && d in s.devices
    requires ChangesPhaseOnly(step, d)
    ensures Inv(Apply(s, step))
  {
    var s' := Apply(s, step);
    OwnStep(s, d, step);
    OthersStep(s, d, step);
    forall k ensures SocketOk(s', k) { SocketsStep(s, d, step, k); }
  }

  lemma OthersStep(s: State, d: DeviceId, step: Step)
    requires Inv(s) && Enabled(s, step) && d in s.devices
    requires ChangesPhaseOnly(step, d)
    ensures var s' := Apply(s, step);
      && !s'.fault && s'.devices.Keys == s.devices.Keys
      && (forall x :: x in s'.devices && x != d ==> DeviceOk(s', x, s'.devices[x]))
  {
    var s' := Apply(s, step);
    assert DeviceOk(s, d, s.devices[d]);
    forall x | x in s'.devices && x != d ensures DeviceOk(s', x, s'.devices[x]) {
      assert DeviceOk(s, x, s.devices[x]);
      KeepsDevice(s, s', x, s.devices[x]);
    }
  }

  lemma SocketsStep(s: State, d: DeviceId, step: Step, k: SocketId)
    requires Inv(s) && Enabled(s, step) && d in s.devices
    requires ChangesPhaseOnly(step, d)
    ensures SocketOk(Apply(s, step), k)
  {
    assert DeviceOk(s, d, s.devices[d]);
    assert SocketOk(s, k);
    KeepsSocket(s, Apply(s, step), k);
  }

  /** Until it runs, a device is what its owners' closers let it be. */
  lemma OwnStartStep(s: State, d: DeviceId, step: Step)
    requires Inv(s) && Enabled(s, step) && d in s.devices
    requires (step.StartAcquire? || step.CheckOwner? || step.Launch? || step.StartRelease?) && step.d == d
    ensures d in Apply(s, step).devices && DeviceOk(Apply(s, step), d, Apply(s, step).devices[d])
  {
    var s' := Apply(s, step);
    var dev := s.devices[d];
    assert DeviceOk(s, d, dev);
    forall i | 0 <= i < |dev.owners|
      ensures Knows(s', d, s'.devices[d], i) == Knows(s, d, dev, i)
      ensures PastLock(s', dev.owners[i]) == PastLock(s, dev.owners[i])
      ensures dev.phase.Adding? ==> OwnerOk(s', d, dev.owners[i])
    {
      assert dev.phase.Adding? ==> !PastLock(s, dev.owners[i]);
    }
  }

  lemma OwnStep(s: State, d: DeviceId, step: Step)
    requires Inv(s) && Enabled(s, step) && d in s.devices
    requires ChangesPhaseOnly(step, d)
    ensures d in Apply(s, step).devices && DeviceOk(Apply(s, step), d, Apply(s, step).devices[d])
  {
    if step.StartAcquire? || step.CheckOwner? || step.Launch? || step.StartRelease? {
      OwnStartStep(s, d, step);
    } else {
      assert DeviceOk(s, d, s.devices[d]);
    }
  }

  lemma KeepsAddOwner(s: State, d: DeviceId)
    requires Inv(s) && Enabled(s, AddOwner(d))
    ensures Inv(Apply(s, AddOwner(d)))
  {
    var s' := Apply(s, AddOwner(d));
    var dev := s.devices[d];
    assert DeviceOk(s, d, dev);
    var k0 := dev.owners[dev.phase.added];
    forall x | x in s'.devices && x != d ensures DeviceOk(s', x, s'.devices[x]) {
      KeepsDevice(s, s', x, s.devices[x]);
    }
    forall i | 0 <= i < dev.phase.added + 1 ensures Knows(s', d, s'.devices[d], i) {
      assert i < dev.phase.added ==> Knows(s, d, dev, i);
    }
    forall i | 0 <= i < |dev.owners| ensures !PastLock(s', dev.owners[i]) { assert !PastLock(s, dev.owners[i]); }
    forall k ensures SocketOk(s', k) {
      assert SocketOk(s, k);
      forall x | x in AiosOf(s', k) ensures MayBeListed(s', x, k) {
        assert x in AiosOf(s, k) || (x == d && k == k0);
        assert x in AiosOf(s, k) ==> MayBeListed(s, x, k);
      }
    }
  }

  lemma KeepsDiscardOwner(s: State, d: DeviceId)
    requires Inv(s) && Enabled(s, DiscardOwner(d))
    ensures Inv(Apply(s, DiscardOwner(d)))
  {
    var s' := Apply(s, DiscardOwner(d));
    var dev := s.devices[d];
    assert DeviceOk(s, d, dev);
    var n := dev.phase.gone;
    forall x | x in s'.devices && x != d ensures DeviceOk(s', x, s'.devices[x]) {
      KeepsDevice(s, s', x, s.devices[x]);
    }
    forall k ensures SocketOk(s', k) {
      assert SocketOk(s, k);
      forall x | x in AiosOf(s', k) ensures MayBeListed(s', x, k) {
        assert MayBeListed(s, x, k);
        assert dev.owners[n..] == [dev.owners[n]] + dev.owners[n+1..];
      }
    }
  }

  lemma KeepsNngDone(s: State, d: DeviceId)
    requires Inv(s) && Enabled(s, NngDone(d))
    ensures Inv(Apply(s, NngDone(d)))
  {
    var s' := Apply(s, NngDone(d));
    forall x | x in s'.devices ensures DeviceOk(s', x, s'.devices[x]) {
      if x != d {
        KeepsDevice(s, s', x, s.devices[x]);
      } else {
        var dev := s.devices[d];
        assert DeviceOk(s, d, dev);
        forall i | 0 <= i < |dev.owners|
          ensures Knows(s', d, dev, i) == Knows(s, d, dev, i) && OwnerOk(s', d, dev.owners[i])
          ensures PastLock(s', dev.owners[i]) == PastLock(s, dev.owners[i])
        {
        }
      }
    }
    forall k ensures SocketOk(s', k) { KeepsSocket(s, s', k); }
  }

  lemma KeepsEndAcquire(s: State, k: SocketId)
    requires Inv(s) && Enabled(s, EndAcquire(k))
    ensures Inv(Apply(s, EndAcquire(k)))
  {
    var s' := Apply(s, EndAcquire(k));
    forall x | x in s'.devices ensures DeviceOk(s', x, s'.devices[x]) {
      var dev := s.devices[x];
      assert DeviceOk(s, x, dev) && !Holds(dev.phase);
      forall i | 0 <= i < |dev.owners| && dev.phase.Active?
        ensures Knows(s', x, dev, i) && OwnerOk(s', x, dev.owners[i])
      {
        assert Knows(s, x, dev, i) && OwnerOk(s, x, dev.owners[i]);
      }
    }
    forall j ensures SocketOk(s', j) {
      assert SocketOk(s, j);
      forall x | x in AiosOf(s', j) ensures MayBeListed(s', x, j) { assert MayBeListed(s, x, j); }
    }
  }

  predicate IsCloserStep(step: Step, k: SocketId) {
    (step.SetClosed? || step.Abort? || step.WaitFor? || step.EndRelease? || step.RunCloseFn?) && step.s == k
  }

  lemma CloserKeepsDevices(s: State, k: SocketId, step: Step)
    requires Inv(s) && Enabled(s, step) && IsCloserStep(step, k)
    ensures var s' := Apply(s, step);
      s'.devices == s.devices && forall d :: d in s.devices ==> DeviceOk(s', d, s.devices[d])
  {
    var s' := Apply(s, step);
    assert SocketOk(s, k);
    forall d | d in s.devices ensures DeviceOk(s', d, s.devices[d]) {
      assert DeviceOk(s, d, s.devices[d]);
      KeepsDevice(s, s', d, s.devices[d]);
    }
  }

  lemma CloserKeepsSockets(s: State, k: SocketId, step: Step, j: SocketId)
    requires Inv(s) && Enabled(s, step) && IsCloserStep(step, k)
    ensures SocketOk(Apply(s, step), j)
  {
    var s' := Apply(s, step);
    assert SocketOk(s, k) && SocketOk(s, j);
    forall x | x in AiosOf(s', j) ensures MayBeListed(s', x, j) { assert MayBeListed(s, x, j); }
  }

  lemma KeepsCloserStep(s: State, k: SocketId, step: Step)
    requires Inv(s) && Enabled(s, step) && IsCloserStep(step, k)
    ensures Inv(Apply(s, step))
  {
    assert SocketOk(s, k);
    if step.Abort? || step.WaitFor? {
      assert MayBeListed(s, step.d, k);
    }
    CloserKeepsDevices(s, k, step);
    forall j ensures SocketOk(Apply(s, step), j) { CloserKeepsSockets(s, k, step, j); }
  }

  lemma KeepsInv(s: State, step: Step)
    requires Inv(s) && Enabled(s, step)
    ensures Inv(Apply(s, step))
  {
    match step
    case NewDevice(d, owners) => KeepsNewDevice(s, d, owners);
    case AddOwner(d) => KeepsAddOwner(s, d);
    case DiscardOwner(d) => KeepsDiscardOwner(s, d);
    case NngDone(d) => KeepsNngDone(s, d);
    case EndAcquire(k) => KeepsEndAcquire(s, k);
    case SetClosed(k) => KeepsCloserStep(s, k, step);
    case Abort(k, _) => KeepsCloserStep(s, k, step);
    case WaitFor(k, _) => KeepsCloserStep(s, k, step);
    case EndRelease(k) => KeepsCloserStep(s, k, step);
    case RunCloseFn(k) => KeepsCloserStep(s, k, step);
    case _ => KeepsDeviceStep(s, step.d, step);
  }

  // ---------- whole runs ----------

  predicate IsRun(s: State, run: seq<Step>)
    decreases |run|
  {
    run == [] || (Enabled(s, run[0]) && IsRun(Apply(s, run[0]), run[1..]))
  }

  function After(s: State, run: seq<Step>): State
    requires IsRun(s, run)
    decreases |run|
  {
    if run == [] then s else After(Apply(s, run[0]), run[1..])
  }

  lemma {:induction false} RunKeepsInv(s: State, run: seq<Step>)
    requires Inv(s) && IsRun(s, run)
    ensures Inv(After(s, run))
    decreases |run|
  {
    if run != [] {
      KeepsInv(s, run[0]);
      RunKeepsInv(Apply(s, run[0]), run[1..]);
    }
  }

  lemma Reached(s: State, run: seq<Step>)
    requires Initial(s) && IsRun(s, run)
    ensures Inv(After(s, run))
  {
    forall k ensures SocketOk(s, k) {
    }
    RunKeepsInv(s, run);
  }

  /** From the moment close_fn can run on a socket, every device that was ever started on it is done,
  and it was aborted unless its user has already seen it end.  Because this holds in all later
  states too, none is started later. */
  lemma DevicesEndBeforeClose(s: State, run: seq<Step>, k: SocketId, d: DeviceId)
    requires Initial(s) && IsRun(s, run)
    requires IsOver(After(s, run), k)
    requires d in After(s, run).devices && k in Owners(After(s, run), d) && d in After(s, run).started
    ensures d in After(s, run).done
    ensures After(s, run).devices[d].phase.Active? ==> d in After(s, run).aborted
  {
    Reached(s, run);
    var t := After(s, run);
    var dev := t.devices[d];
    assert DeviceOk(t, d, dev);
    var i :| 0 <= i < |dev.owners| && dev.owners[i] == k;
    if dev.phase.Active? {
      assert OwnerOk(t, d, dev.owners[i]);
    }
  }

  /** A start that comes after the close took the lock does not launch the device. */
  lemma NoStartAfterClose(s: State, run: seq<Step>, k: SocketId, d: DeviceId)
    requires Initial(s) && IsRun(s, run)
    requires PastLock(After(s, run), k) && d in After(s, run).devices && k in Owners(After(s, run), d)
    ensures !Enabled(After(s, run), Launch(d))
  {
    Reached(s, run);
    var t := After(s, run);
    var dev := t.devices[d];
    assert DeviceOk(t, d, dev);
    var i :| 0 <= i < |dev.owners| && dev.owners[i] == k;
  }

  /** A start raises Closed only if one of the device's own sockets was closed. */
  lemma RaisesOnlyForClosed(s: State, run: seq<Step>, d: DeviceId)
    requires Initial(s) && IsRun(s, run)
    requires d in After(s, run).devices && After(s, run).devices[d].phase.Raised?
    ensures exists k :: k in Owners(After(s, run), d) && k in After(s, run).closers
  {
    Reached(s, run);
    var t := After(s, run);
    assert DeviceOk(t, d, t.devices[d]);
    var i :| 0 <= i < |t.devices[d].owners| && t.devices[d].owners[i] in t.closers;
  }

  /** No aio in any socket's set is freed, and no step uses a freed aio. */
  lemma ListedAiosLive(s: State, run: seq<Step>, k: SocketId, d: DeviceId)
    requires Initial(s) && IsRun(s, run)
    ensures !After(s, run).fault
    ensures d in AiosOf(After(s, run), k) ==>
      d in After(s, run).devices && Live(After(s, run).devices[d].phase) && d in After(s, run).started
  {
    Reached(s, run);
    var t := After(s, run);
    assert SocketOk(t, k);
    if d in AiosOf(t, k) {
      assert MayBeListed(t, d, k);
      assert DeviceOk(t, d, t.devices[d]);
    }
  }

  /** The closing thread never waits for an aio that it did not abort, and while it holds the lock
  it can always go on, or nng has an aborted aio to complete. */
  lemma CloseIsNotStuck(s: State, run: seq<Step>, k: SocketId) returns (step: Step)
    requires Initial(s) && IsRun(s, run) && IsEnding(After(s, run), k)
    ensures Enabled(After(s, run), step)
    ensures || (step.Abort? && step.s == k) || (step.WaitFor? && step.s == k) || step == EndRelease(k)
            || (step.NngDone? && step.d in After(s, run).aborted)
  {
    Reached(s, run);
    var t := After(s, run);
    var c := t.closers[k];
    assert SocketOk(t, k);
    if c.toAbort != {} {
      var d :| d in c.toAbort;
      step := Abort(k, d);
    } else if c.toWait != {} {
      var d :| d in c.toWait;
      assert d in AiosOf(t, k);
      assert MayBeListed(t, d, k);
      assert DeviceOk(t, d, t.devices[d]);
      step := if d in t.done then WaitFor(k, d) else NngDone(d);
    } else {
      step := EndRelease(k);
    }
  }

  /** The device whose aio the step uses, if any. */
  function UsedAio(step: Step): Option<DeviceId> {
    match step
    case Launch(d) => Some(d)
    case WaitReturns(d) => Some(d)
    case WaitUnstarted(d) => Some(d)
    case Abort(_, d) => Some(d)
    case WaitFor(_, d) => Some(d)
    case _ => None
  }

  /** Whatever a thread does next, the aio that it uses was allocated and is not freed. */
  lemma NextStepUsesLiveAio(s: State, run: seq<Step>, step: Step)
    requires Initial(s) && IsRun(s, run) && Enabled(After(s, run), step) && UsedAio(step).Some?
    ensures var t, d := After(s, run), UsedAio(step).value;
      d in t.devices && !t.devices[d].phase.AioFreed?
  {
    Reached(s, run);
    var t := After(s, run);
    if step.Abort? || step.WaitFor? {
      assert SocketOk(t, step.s) && MayBeListed(t, step.d, step.s);
    }
  }

  // ---------- a device that is closed while it runs ----------

  lemma {:induction false} Extend(s: State, run: seq<Step>, step: Step) returns (run': seq<Step>)
    requires IsRun(s, run) && Enabled(After(s, run), step)
    ensures IsRun(s, run') && After(s, run') == Apply(After(s, run), step)
    decreases |run|
  {
    if run == [] {
      run' := [step];
      assert [step][1..] == [];
    } else {
      var rest := Extend(Apply(s, run[0]), run[1..], step);
      run' := [run[0]] + rest;
      assert run'[1..] == rest;
    }
  }

  /** The one device of the socket 0. */
  function One(phase: Phase): map<DeviceId, Device> {
    map[0 := Device([0], phase)]
  }

  predicate Runs(s: State) {
    s == State(One(Active), map[0 := {0}], map[], None, {0}, {}, {}, false)
  }

  predicate Checked(s: State) {
    s == State(One(Checking(1)), map[], map[], Some(ByDevice(0)), {}, {}, {}, false)
  }

  lemma PassesCheck(s: State) returns (run: seq<Step>)
    requires Initial(s)
    ensures IsRun(s, run) && Checked(After(s, run))
  {
    run := Extend(s, [], NewDevice(0, [0]));
    assert After(s, run).devices == One(Ready);
    run := Extend(s, run, StartAcquire(0));
    run := Extend(s, run, CheckOwner(0));
    assert After(s, run).devices == One(Checking(1));
  }

  lemma Starts(s: State, run: seq<Step>) returns (run': seq<Step>)
    requires IsRun(s, run) && Checked(After(s, run))
    ensures IsRun(s, run') && Runs(After(s, run'))
  {
    run' := Extend(s, run, Launch(0));
    assert After(s, run').devices == One(Adding(0)) && After(s, run').started == {0};
    run' := Extend(s, run', AddOwner(0));
    assert After(s, run').devices == One(Adding(1)) && After(s, run').aios == map[0 := {0}];
    run' := Extend(s, run', StartRelease(0));
    assert After(s, run').devices == One(Active);
  }

  predicate AbortedAndDone(s: State) {
    s == State(One(Active), map[0 := {0}], map[0 := Ending({}, {0})], Some(ByCloser(0)), {0}, {0}, {0}, false)
  }

  lemma AbortsValue(s: State)
    requires Runs(s)
    ensures var s1 := s.(closers := map[0 := Flagged]);
      Enabled(s, SetClosed(0)) && Apply(s, SetClosed(0)) == s1 && Enabled(s1, EndAcquire(0))
    ensures var s2 := s.(closers := map[0 := Ending({0}, {0})], lock := Some(ByCloser(0)));
      && Apply(s.(closers := map[0 := Flagged]), EndAcquire(0)) == s2
      && Enabled(s2, Abort(0, 0)) && Enabled(Apply(s2, Abort(0, 0)), NngDone(0))
      && AbortedAndDone(Apply(Apply(s2, Abort(0, 0)), NngDone(0)))
  {
    var none: set<DeviceId> := {};
    assert {0} - {0} == none && none + {0} == {0};
  }

  lemma Aborts(s: State, run: seq<Step>) returns (run': seq<Step>)
    requires IsRun(s, run) && Runs(After(s, run))
    ensures IsRun(s, run') && AbortedAndDone(After(s, run'))
  {
    AbortsValue(After(s, run));
    run' := Extend(s, run, SetClosed(0));
    run' := Extend(s, run', EndAcquire(0));
    run' := Extend(s, run', Abort(0, 0));
    run' := Extend(s, run', NngDone(0));
  }

  predicate Closed0(s: State) {
    s == State(One(Active), map[0 := {0}], map[0 := CloseFnRan], None, {0}, {0}, {0}, false)
  }

  lemma ClosesValue(s: State)
    requires AbortedAndDone(s)
    ensures var s1 := s.(closers := map[0 := Ending({}, {})]);
      && Enabled(s, WaitFor(0, 0)) && Apply(s, WaitFor(0, 0)) == s1
      && Enabled(s1, EndRelease(0)) && Enabled(Apply(s1, EndRelease(0)), RunCloseFn(0))
      && Closed0(Apply(Apply(s1, EndRelease(0)), RunCloseFn(0)))
  {
    var none: set<DeviceId> := {};
    assert {0} - {0} == none;
  }

  lemma Closes(s: State, run: seq<Step>) returns (run': seq<Step>)
    requires IsRun(s, run) && AbortedAndDone(After(s, run))
    ensures IsRun(s, run') && Closed0(After(s, run'))
  {
    ClosesValue(After(s, run));
    run' := Extend(s, run, WaitFor(0, 0));
    run' := Extend(s, run', EndRelease(0));
    run' := Extend(s, run', RunCloseFn(0));
  }

  predicate Forgotten(s: State, phase: Phase) {
    s == State(One(phase), map[0 := {}], map[0 := CloseFnRan], None, {0}, {0}, {0}, false)
  }

  lemma StopsValue(s: State)
    requires Closed0(s)
    ensures Enabled(s, WaitReturns(0)) && Enabled(Apply(s, WaitReturns(0)), StopAcquire(0))
    ensures Apply(Apply(s, WaitReturns(0)), StopAcquire(0))
      == s.(devices := One(Discarding(0)), lock := Some(ByDevice(0)))
  {
  }

  lemma DiscardsValue(s: State)
    requires Closed0(s)
    ensures var s2 := s.(devices := One(Discarding(0)), lock := Some(ByDevice(0)));
      && Enabled(s2, DiscardOwner(0)) && Enabled(Apply(s2, DiscardOwner(0)), StopRelease(0))
      && Forgotten(Apply(Apply(s2, DiscardOwner(0)), StopRelease(0)), Stopped)
  {
    var none: set<DeviceId> := {};
    assert {0} - {0} == none;
  }

  lemma Stops(s: State, run: seq<Step>) returns (run': seq<Step>)
    requires IsRun(s, run) && Closed0(After(s, run))
    ensures IsRun(s, run') && Forgotten(After(s, run'), Stopped)
  {
    StopsValue(After(s, run));
    DiscardsValue(After(s, run));
    run' := Extend(s, run, WaitReturns(0));
    run' := Extend(s, run', StopAcquire(0));
    run' := Extend(s, run', DiscardOwner(0));
    run' := Extend(s, run', StopRelease(0));
  }

  /** A close during a device runs to its end, and then the device's user frees everything. */
  lemma ClosedWhileRunning(s: State) returns (run: seq<Step>)
    requires Initial(s)
    ensures IsRun(s, run) && Forgotten(After(s, run), AioFreed)
  {
    run := PassesCheck(s);
    run := Starts(s, run);
    run := Aborts(s, run);
    run := Closes(s, run);
    run := Stops(s, run);
    run := Extend(s, run, FreeAio(0));
    assert After(s, run).devices == One(AioFreed);
  }

  /** A start that finds its socket closed raises, and its user frees the aio. */
  lemma ClosedBeforeStart(s: State) returns (run: seq<Step>)
    requires Initial(s)
    ensures IsRun(s, run) && 0 in After(s, run).devices && After(s, run).devices[0].phase.Raised?
    ensures Enabled(After(s, run), FreeAio(0)) && Enabled(After(s, run), WaitUnstarted(0))
  {
    run := Extend(s, [], NewDevice(0, [0]));
    run := Extend(s, run, SetClosed(0));
    run := Extend(s, run, StartAcquire(0));
    run := Extend(s, run, CheckOwner(0));
  }
}
