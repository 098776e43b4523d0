/** Synchronous sends of one Message, with a KeyboardInterrupt possible as any library call returns:
`Socket.send_msg`, `Context.send_msg` and `Message.__del__` of pynng/_base.py. */
module SyncSend {

  // Who owns the nng_msg: Python, an operation that nng still runs, nng itself, or nobody.
  datatype Fate = Ours | InFlight | Consumed | Freed

  datatype Outcome = Sent | Refused | Failed | Interrupted

  /** The environment.  The constants say, for every library call by number, whether a signal
  arrives as it returns, whether nng finishes a running send by then, and whether a send that
  finishes then takes the message; quantifying over them quantifies over all behaviours. */
  class Nng {
    const signalAfter: nat -> bool
    const finishesBy: nat -> bool
    const takes: nat -> bool
    var calls: nat
    var fate: Fate
    var aioHasMsg: bool

    constructor (signalAfter: nat -> bool, finishesBy: nat -> bool, takes: nat -> bool)
      ensures fate.Ours? && !aioHasMsg && calls == 0
      ensures this.signalAfter == signalAfter && this.finishesBy == finishesBy && this.takes == takes
    {
      this.signalAfter, this.finishesBy, this.takes := signalAfter, finishesBy, takes;
      calls, fate, aioHasMsg := 0, Ours, false;
    }

    ghost predicate Uninterrupted()
      reads this
    {
      forall n: nat :: !signalAfter(n)
    }

    /** A signal arrived as one of the calls from the `n`-th on returned. */
    ghost predicate SignalledSince(n: nat)
      reads this
    {
      exists m | n <= m < calls :: signalAfter(m)
    }

    /** The call `m` was the only one of them. */
    ghost predicate OnlySignal(m: nat, n: nat)
      reads this
    {
      forall k | n <= k < calls :: signalAfter(k) <==> k == m
    }

    /** A running send finishes, if nng has got that far: it takes the message and clears the aio's,
    or it leaves both. */
    method Progress(mustFinish: bool)
      modifies this`fate, this`aioHasMsg, this`calls
      ensures calls == old(calls) + 1
      ensures !old(fate).InFlight? ==> fate == old(fate) && aioHasMsg == old(aioHasMsg)
      ensures old(fate).InFlight? && (mustFinish || finishesBy(old(calls))) ==>
        fate == (if takes(old(calls)) then Consumed else Ours)
        && aioHasMsg == (old(aioHasMsg) && !takes(old(calls)))
      ensures old(fate).InFlight? && !mustFinish && !finishesBy(old(calls)) ==>
        fate.InFlight? && aioHasMsg == old(aioHasMsg)
    {
      if fate.InFlight? && (mustFinish || finishesBy(calls)) {
        fate := if takes(calls) then Consumed else Ours;
        aioHasMsg := aioHasMsg && !takes(calls);
      }
      calls := calls + 1;
    }

    /** Any library call: time passes, and a signal may arrive as it returns. */
    method Call() returns (signalled: bool)
      modifies this`fate, this`aioHasMsg, this`calls
      ensures calls == old(calls) + 1 && signalled == signalAfter(old(calls))
      ensures !old(fate).InFlight? ==> fate == old(fate) && aioHasMsg == old(aioHasMsg)
      ensures old(fate).InFlight? && finishesBy(old(calls)) ==> Finished(old(calls), old(aioHasMsg))
      ensures old(fate).InFlight? && !finishesBy(old(calls)) ==> fate.InFlight? && aioHasMsg == old(aioHasMsg)
    {
      signalled := signalAfter(calls);
      Progress(false);
    }

    /** A send that finished at the call `n`: nng took the message and cleared the aio's, or left both. */
    ghost predicate Finished(n: nat, hadMsg: bool)
      reads this
    {
      fate == (if takes(n) then Consumed else Ours) && aioHasMsg == (hadMsg && !takes(n))
    }

    /** nng_aio_wait: the operation is over when it returns. */
    method Wait() returns (signalled: bool)
      modifies this`fate, this`aioHasMsg, this`calls
      ensures calls == old(calls) + 1 && signalled == signalAfter(old(calls))
      ensures !old(fate).InFlight? ==> fate == old(fate) && aioHasMsg == old(aioHasMsg)
      ensures old(fate).InFlight? ==> Finished(old(calls), old(aioHasMsg))
    {
      signalled := signalAfter(calls);
      Progress(true);
    }

    /** nng_sendmsg: takes the message, or fails and leaves it. */
    method SendMsg() returns (err: bool, signalled: bool)
      requires fate.Ours?
      modifies this`fate, this`calls
      ensures calls == old(calls) + 1 && signalled == signalAfter(old(calls))
      ensures err == !takes(old(calls)) && fate == if err then Ours else Consumed
    {
      err := !takes(calls);
      fate := if err then Ours else Consumed;
      signalled := signalAfter(calls);
      calls := calls + 1;
    }

    /** nng_msg_free: only for a message that Python owns and that was not freed before. */
    method MsgFree()
      requires fate.Ours?
      modifies this`fate
      ensures fate.Freed?
    {
      fate := Freed;
    }
  }

  class Message {
    var memFreed: bool

    constructor ()
      ensures !memFreed
    {
      memFreed := false;
    }

    /** What makes a later `__del__` or send safe. */
    ghost predicate Safe(nng: Nng)
      reads this, nng
    {
      && (!memFreed ==> nng.fate.Ours? && !nng.aioHasMsg)
      && (nng.fate.Freed? ==> memFreed)
    }

    /** `Message.__del__`. */
    method Del(nng: Nng)
      requires Safe(nng)
      modifies this`memFreed, nng`fate
      ensures Safe(nng) && memFreed
      ensures nng.fate == if old(memFreed) then old(nng.fate) else Freed
    {
      if memFreed { return; }
      nng.MsgFree();
      memFreed := true;
    }
  }

  /** `Socket.send_msg`: nng_sendmsg is called once, and the outcome is nng's answer. */
  method SocketSend(msg: Message, nng: Nng) returns (r: Outcome)
    requires msg.Safe(nng)
    modifies msg, nng
    ensures msg.Safe(nng)
    ensures r.Refused? <==> old(msg.memFreed)
    ensures r.Refused? ==> msg.memFreed && nng.fate == old(nng.fate)
    ensures r.Sent? ==> msg.memFreed && nng.fate.Consumed?
    ensures r.Failed? ==> !msg.memFreed && nng.fate.Ours?
    ensures r.Interrupted? ==> msg.memFreed
    ensures nng.calls == old(nng.calls) + if r.Refused? then 0 else 1
    ensures !r.Refused? ==> (nng.fate.Consumed? <==> nng.takes(old(nng.calls)))
    ensures !r.Refused? ==> (r.Interrupted? <==> nng.signalAfter(old(nng.calls)))
    ensures !r.Refused? && !r.Interrupted? ==> (r.Sent? <==> nng.takes(old(nng.calls)))
  {
    if msg.memFreed { return Refused; }
    msg.memFreed := true;
    var err, signalled := nng.SendMsg();
    if signalled { return Interrupted; }
    if err {
      msg.memFreed := false;
      return Failed;
    }
    r := Sent;
  }

  /** The call at which a send that nng_ctx_send starts at the call `n` is over: nng is done by then, or
  the wait that follows makes sure of it. */
  function EndOf(n: nat, finishesBy: nat -> bool): nat {
    if finishesBy(n) then n else n + 1
  }

  // How many library calls the `try` block makes if none is interrupted.
  function TryCalls(block: bool): nat {
    if block then 4 else 5
  }

  /** The calls of the `try` block before nng_ctx_send. */
  method ContextSetUp(nng: Nng, block: bool) returns (signalled: bool)
    requires nng.fate.Ours?
    modifies nng`fate, nng`aioHasMsg, nng`calls
    ensures nng.fate.Ours? && nng.aioHasMsg
    ensures old(nng.calls) < nng.calls <= old(nng.calls) + TryCalls(block) - 3
    ensures signalled ==> nng.signalAfter(nng.calls - 1)
    ensures !signalled ==> nng.calls == old(nng.calls) + TryCalls(block) - 3 && !nng.SignalledSince(old(nng.calls))
  {
    nng.aioHasMsg := true;
    signalled := nng.Call();             // nng_aio_set_msg
    if signalled { return; }
    if !block {
      signalled := nng.Call();           // nng_aio_set_timeout
    }
  }

  /** The `try` block of `Context.send_msg`. */
  method ContextTry(msg: Message, nng: Nng, block: bool) returns (r: Outcome, sendStarted: bool)
    requires msg.memFreed && nng.fate.Ours? && !nng.aioHasMsg
    modifies nng
    ensures !r.Refused?
    ensures !sendStarted ==> nng.fate.Ours? && r.Interrupted?
    ensures nng.fate in {Ours, InFlight, Consumed}
    ensures nng.fate.Consumed? <==> !nng.aioHasMsg
    ensures r.Sent? ==> nng.fate.Consumed?
    ensures r.Failed? ==> nng.fate.Ours? && nng.aioHasMsg
    ensures r.Interrupted? <==> nng.SignalledSince(old(nng.calls))
    ensures old(nng.calls) < nng.calls <= old(nng.calls) + TryCalls(block)
    ensures r.Interrupted? ==> nng.signalAfter(nng.calls - 1)
    ensures !r.Interrupted? ==>
      && sendStarted && nng.calls == old(nng.calls) + TryCalls(block)
      && (r.Sent? <==> nng.takes(EndOf(nng.calls - 3, nng.finishesBy)))
  {
    sendStarted := false;
    var signalled := ContextSetUp(nng, block);
    if signalled { return Interrupted, sendStarted; }
    sendStarted := true;
    nng.fate := InFlight;
    signalled := nng.Call();             // nng_ctx_send
    if signalled { return Interrupted, sendStarted; }
    signalled := nng.Wait();             // nng_aio_wait
    if signalled { return Interrupted, sendStarted; }
    var ok := nng.fate.Consumed?;
    signalled := nng.Call();             // nng_aio_result
    if signalled { return Interrupted, sendStarted; }
    r := if ok then Sent else Failed;
  }

  /** The `finally` block of `Context.send_msg`, which a signal can cut short. */
  method ContextFinally(msg: Message, nng: Nng, sendStarted: bool) returns (signalled: bool)
    requires msg.memFreed && nng.fate in {Ours, InFlight, Consumed}
    requires nng.fate.Consumed? ==> !nng.aioHasMsg
    requires !sendStarted ==> nng.fate.Ours?
    modifies msg, nng
    ensures msg.Safe(nng)
    ensures signalled <==> nng.SignalledSince(old(nng.calls))
    ensures nng.calls >= old(nng.calls)
    ensures !signalled ==> !nng.fate.InFlight? && (old(nng.aioHasMsg) ==> (msg.memFreed <==> nng.fate.Consumed?))
    ensures var closing := if old(nng.aioHasMsg) && nng.fate.Ours? then 3 else 2;
      !signalled ==> nng.calls == old(nng.calls) + (if sendStarted then 2 else 0) + closing
    ensures !old(nng.fate).InFlight? ==> nng.fate == old(nng.fate)
    ensures !signalled && old(nng.aioHasMsg) && nng.fate.Ours? ==> !msg.memFreed
    ensures nng.fate.Consumed? || nng.fate.InFlight? ==> msg.memFreed
  {
    if sendStarted {
      signalled := nng.Call();           // nng_aio_cancel
      if signalled { return; }
      signalled := nng.Wait();           // nng_aio_wait
      if signalled { return; }
    }
    var hasMsg := nng.aioHasMsg;
    signalled := nng.Call();             // nng_aio_get_msg
    if signalled { return; }
    if hasMsg {
      nng.aioHasMsg := false;
      signalled := nng.Call();           // nng_aio_set_msg(NULL)
      if signalled { return; }
      msg.memFreed := false;
    }
    signalled := nng.Call();             // nng_aio_free
  }

  /** The call at which a `Context.send_msg` that begins at the call `n` is over for nng. */
  function ContextEnd(n: nat, block: bool, finishesBy: nat -> bool): nat {
    EndOf(n + if block then 2 else 3, finishesBy)
  }

  function CallsOf(block: bool, allocFails: bool, sent: bool): nat {
    if allocFails then 1 else (if block then 9 else 10) + if sent then 0 else 1
  }

  /** `Context.send_msg`: however it is interrupted, the Message never owns a message that nng
  took or may still take; without a signal, a failed send leaves it owned and sendable.  A single
signal up to the end of the `try` block costs nothing: the Message gives up exactly what nng took. */
  method ContextSend(msg: Message, nng: Nng, block: bool, allocFails: bool) returns (r: Outcome)
    requires msg.Safe(nng)
    modifies msg, nng
    ensures msg.Safe(nng)
    ensures old(msg.memFreed) ==> r.Refused? && nng.fate == old(nng.fate) && msg.memFreed
    ensures r.Sent? ==> msg.memFreed && nng.fate.Consumed?
    ensures r.Failed? ==> !msg.memFreed && nng.fate.Ours?
    ensures r.Refused? <==> old(msg.memFreed)
    ensures r.Interrupted? <==> nng.SignalledSince(old(nng.calls))
    ensures forall m | old(nng.calls) <= m <= old(nng.calls) + TryCalls(block) && nng.OnlySignal(m, old(nng.calls)) ::
      r.Interrupted? ==> nng.fate != InFlight && (msg.memFreed <==> nng.fate.Consumed?)
    ensures !r.Interrupted? && !r.Refused? ==>
      && nng.calls == old(nng.calls) + CallsOf(block, allocFails, r.Sent?)
      && (r.Sent? <==> !allocFails && nng.takes(ContextEnd(old(nng.calls), block, nng.finishesBy)))
  {
    if msg.memFreed { return Refused; }
    var signalled := nng.Call();         // nng_aio_alloc
    if signalled { return Interrupted; }
    if allocFails { return Failed; }
    msg.memFreed := true;
    var sendStarted;
    r, sendStarted := ContextTry(msg, nng, block);
    signalled := ContextFinally(msg, nng, sendStarted);
    if signalled { return Interrupted; }
  }

  datatype Attempt = OnSocket | OnContext(block: bool, allocFails: bool)

  /** Would nng take the message at this attempt, if it is made at the call `n`? */
  predicate TakesAt(attempt: Attempt, n: nat, finishesBy: nat -> bool, takes: nat -> bool) {
    match attempt
    case OnSocket => takes(n)
    case OnContext(block, allocFails) => !allocFails && takes(ContextEnd(n, block, finishesBy))
  }

  function CallsAt(attempt: Attempt, sent: bool): nat {
    match attempt
    case OnSocket => 1
    case OnContext(block, allocFails) => CallsOf(block, allocFails, sent)
  }

  /** Would nng take the message at one of the attempts, the first of them at the call `n`? */
  predicate WouldTake(attempts: seq<Attempt>, n: nat, finishesBy: nat -> bool, takes: nat -> bool)
    decreases |attempts|
  {
    attempts != []
    && (TakesAt(attempts[0], n, finishesBy, takes)
        || WouldTake(attempts[1..], n + CallsAt(attempts[0], false), finishesBy, takes))
  }

  method Send(msg: Message, nng: Nng, attempt: Attempt) returns (r: Outcome)
    requires msg.Safe(nng)
    modifies msg, nng
    ensures msg.Safe(nng)
    ensures r.Refused? <==> old(msg.memFreed)
    ensures r.Refused? ==> nng.fate == old(nng.fate) && msg.memFreed
    ensures r.Sent? ==> msg.memFreed && nng.fate.Consumed?
    ensures r.Failed? ==> !msg.memFreed && nng.fate.Ours?
    ensures r.Interrupted? ==> !nng.Uninterrupted()
    ensures r.Sent? || r.Failed? ==>
      && nng.calls == old(nng.calls) + CallsAt(attempt, r.Sent?)
      && (r.Sent? <==> TakesAt(attempt, old(nng.calls), nng.finishesBy, nng.takes))
  {
    match attempt {
      case OnSocket => r := SocketSend(msg, nng);
      case OnContext(block, allocFails) => r := ContextSend(msg, nng, block, allocFails);
    }
  }

  /** A Message's whole life: any sends, each interrupted anywhere or not at all, and at last the
  finalizer.  The message is never freed when nng has it, it is freed at most once, and if no signal
  ever came then it is either consumed or freed. */
  method Life(attempts: seq<Attempt>, signalAfter: nat -> bool, finishesBy: nat -> bool, takes: nat -> bool)
    returns (outcomes: seq<Outcome>, nng: Nng)
    ensures |outcomes| == |attempts|
    ensures forall i, j :: 0 <= i < j < |outcomes| && outcomes[i].Sent? ==> outcomes[j].Refused?
    ensures (exists i :: 0 <= i < |outcomes| && outcomes[i].Sent?) ==> nng.fate.Consumed?
    ensures (forall n: nat :: !signalAfter(n)) ==> nng.fate.Consumed? || nng.fate.Freed?
    ensures (forall n: nat :: !signalAfter(n)) ==>
      (nng.fate.Consumed? <==> WouldTake(attempts, 0, finishesBy, takes))
    ensures (forall n: nat :: !signalAfter(n)) ==>
      (nng.fate.Freed? <==> forall i :: 0 <= i < |outcomes| ==> outcomes[i].Failed?)
  {
    nng := new Nng(signalAfter, finishesBy, takes);
    var msg := new Message();
    outcomes := [];
    ghost var allFailed := true;
    for k := 0 to |attempts|
      invariant |outcomes| == k && msg.Safe(nng)
      invariant nng.signalAfter == signalAfter && nng.finishesBy == finishesBy && nng.takes == takes
      invariant nng.Uninterrupted() && WouldTake(attempts, 0, finishesBy, takes) ==>
        msg.memFreed || WouldTake(attempts[k..], nng.calls, finishesBy, takes)
      invariant nng.Uninterrupted() && (msg.memFreed || WouldTake(attempts[k..], nng.calls, finishesBy, takes)) ==>
        WouldTake(attempts, 0, finishesBy, takes)
      invariant forall i, j :: 0 <= i < j < k && outcomes[i].Sent? ==> outcomes[j].Refused?
      invariant forall i :: 0 <= i < k && outcomes[i].Sent? ==> nng.fate.Consumed? && msg.memFreed
      invariant allFailed <==> forall i :: 0 <= i < k ==> outcomes[i].Failed?
      invariant nng.Uninterrupted() ==> if allFailed then !msg.memFreed else msg.memFreed && nng.fate.Consumed?
    {
      var r := Send(msg, nng, attempts[k]);
      ghost var before := outcomes;
      outcomes := outcomes + [r];
      assert outcomes[k] == r && forall i :: 0 <= i < k ==> outcomes[i] == before[i];
      allFailed := allFailed && r.Failed?;
    }
    msg.Del(nng);
  }
}
