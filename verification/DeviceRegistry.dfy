/** The device bookkeeping of pynng/_base.py as its functions update it: each runs in one device
section, so here each is one uninterrupted method. */
module DeviceRegistry {

  type Aio = nat

  class Socket {
    var socketClosed: bool
    var deviceAios: set<Aio>

    constructor ()
      ensures !socketClosed && deviceAios == {}
    {
      socketClosed, deviceAios := false, {};
    }
  }

  // What nng does with device aios.
  class Nng {
    var started: set<Aio>
    var aborted: set<Aio>
    var done: set<Aio>
    var freed: set<Aio>
    // Waits that began for an aio that nobody had aborted.
    var waits: set<Aio>

    method Start(aio: Aio)
      requires aio !in freed
      modifies this`started
      ensures started == old(started) + {aio}
    {
      started := started + {aio};
    }

    method Abort(aio: Aio)
      requires aio !in freed
      modifies this`aborted
      ensures aborted == old(aborted) + {aio}
    {
      aborted := aborted + {aio};
    }

    /** nng_aio_wait returns when the operation is over. */
    method Wait(aio: Aio)
      requires aio !in freed
      modifies this`done, this`waits
      ensures done == old(done) + {aio}
      ensures waits == if aio in aborted then old(waits) else old(waits) + {aio}
    {
      if aio !in aborted {
        waits := waits + {aio};
      }
      done := done + {aio};
    }

    /** nng_aio_free stops the operation and waits for it, if nng still runs one. */
    method Free(aio: Aio)
      requires aio !in freed
      modifies this`freed, this`done
      ensures freed == old(freed) + {aio}
      ensures done == if aio in started then old(done) + {aio} else old(done)
    {
      if aio in started {
        done := done + {aio};
      }
      freed := freed + {aio};
    }
  }

  /** `_start_device`: raises Closed if an owner is closed; otherwise nng runs the device and every
  owner knows its aio. */
  method StartDevice(owners: seq<Socket>, nng: Nng, aio: Aio) returns (raised: bool)
    requires aio !in nng.freed
    modifies owners, nng`started
    ensures raised <==> exists o :: o in owners && o.socketClosed
    ensures nng.started == if raised then old(nng.started) else old(nng.started) + {aio}
    ensures forall o :: o in owners ==>
      o.socketClosed == old(o.socketClosed)
      && o.deviceAios == if raised then old(o.deviceAios) else old(o.deviceAios) + {aio}
  {
    for i := 0 to |owners|
      invariant forall j :: 0 <= j < i ==> !owners[j].socketClosed
      invariant nng.started == old(nng.started)
      invariant forall o :: o in owners ==> o.socketClosed == old(o.socketClosed) && o.deviceAios == old(o.deviceAios)
    {
      if owners[i].socketClosed { return true; }
    }
    nng.Start(aio);
    for i := 0 to |owners|
      invariant nng.started == old(nng.started) + {aio}
      invariant forall o :: o in owners ==> o.socketClosed == old(o.socketClosed)
      invariant forall o :: o in owners[..i] ==> o.deviceAios == old(o.deviceAios) + {aio}
      invariant forall o :: o in owners && o !in owners[..i] ==> o.deviceAios == old(o.deviceAios)
    {
      var owner := owners[i];
      assert owners[..i+1] == owners[..i] + [owner];
      owner.deviceAios := owner.deviceAios + {aio};
    }
    assert owners[..|owners|] == owners;
    raised := false;
  }

  /** `_stop_device`: no owner knows the aio any more. */
  method StopDevice(owners: seq<Socket>, aio: Aio)
    modifies owners
    ensures forall o :: o in owners ==>
      o.socketClosed == old(o.socketClosed) && o.deviceAios == old(o.deviceAios) - {aio}
  {
    for i := 0 to |owners|
      invariant forall o :: o in owners ==> o.socketClosed == old(o.socketClosed)
      invariant forall o :: o in owners[..i] ==> o.deviceAios == old(o.deviceAios) - {aio}
      invariant forall o :: o in owners && o !in owners[..i] ==> o.deviceAios == old(o.deviceAios)
    {
      var owner := owners[i];
      assert owners[..i+1] == owners[..i] + [owner];
      owner.deviceAios := owner.deviceAios - {aio};
    }
    assert owners[..|owners|] == owners;
  }

  /** `_end_devices`: aborts every device of the socket first, and then waits for each. */
  method EndDevices(s: Socket, nng: Nng)
    requires s.deviceAios !! nng.freed
    modifies nng`aborted, nng`done, nng`waits
    ensures nng.waits == old(nng.waits)
    ensures nng.aborted == old(nng.aborted) + s.deviceAios
    ensures nng.done == old(nng.done) + s.deviceAios
  {
    var aios := s.deviceAios;
    while aios != {}
      invariant aios <= s.deviceAios && nng.done == old(nng.done) && nng.waits == old(nng.waits)
      invariant nng.aborted == old(nng.aborted) + (s.deviceAios - aios)
      decreases aios
    {
      var aio :| aio in aios;
      nng.Abort(aio);
      aios := aios - {aio};
    }
    aios := s.deviceAios;
    while aios != {}
      invariant aios <= s.deviceAios && nng.aborted == old(nng.aborted) + s.deviceAios
      invariant nng.waits == old(nng.waits)
      invariant nng.done == old(nng.done) + (s.deviceAios - aios)
      decreases aios
    {
      var aio :| aio in aios;
      nng.Wait(aio);
      aios := aios - {aio};
    }
  }

  // How the wait of `_device` goes: it returns, an exception arrives as it returns, or one arrives
  // before nng_aio_wait is called.
  datatype WaitFate = Returns | InterruptedAfter | InterruptedBefore

  datatype DeviceOutcome = NoAio | IsClosed | Interrupted | Failed | Ended

  /** `_device` of pynng/nng.py.  Whatever happens after the aio was allocated, it is freed once, no
  owner's set holds it then, and if the device was started then it is over. */
  method RunDevice(owners: seq<Socket>, nng: Nng, aio: Aio, allocFails: bool, wait: WaitFate, deviceFails: bool)
    returns (r: DeviceOutcome)
    requires aio !in nng.freed && aio !in nng.started
    requires forall o :: o in owners ==> aio !in o.deviceAios
    modifies owners, nng
    ensures r.NoAio? <==> allocFails
    ensures r.IsClosed? <==> !allocFails && old(exists o :: o in owners && o.socketClosed)
    ensures r.Interrupted? <==> !r.NoAio? && !r.IsClosed? && !wait.Returns?
    ensures r.Failed? <==> !r.NoAio? && !r.IsClosed? && wait.Returns? && deviceFails
    ensures nng.freed == if allocFails then old(nng.freed) else old(nng.freed) + {aio}
    ensures aio in nng.started <==> !r.NoAio? && !r.IsClosed?
    ensures aio in nng.started ==> aio in nng.done
    ensures forall o :: o in owners ==> o.deviceAios == old(o.deviceAios) && o.socketClosed == old(o.socketClosed)
  {
    if allocFails { return NoAio; }
    var raised := StartDevice(owners, nng, aio);
    if raised {
      r := IsClosed;
    } else {
      if !wait.InterruptedBefore? {
        nng.Wait(aio);
      }
      StopDevice(owners, aio);
      r := if !wait.Returns? then Interrupted else if deviceFails then Failed else Ended;
    }
    nng.Free(aio);
  }
}
