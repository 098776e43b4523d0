/** Messages through a pooled AIOHelper of pynng/_aio.py: `asend`, `asend_msg`, `arecv_msg` and
`_free`.  A wait is left only when the operation is over (OwnCompletion.WaitEndsWithOperation), so
each operation is one method; what nng and the canceller of the waiting do is in its plan. */
module AsyncMessages {
  import opened Wrappers

  type MsgId = nat

  // Raw: only a local variable or the aio refers to it.  Wrapped: a Message owns it.
  datatype Fate = Raw | Wrapped | Consumed | Freed

  datatype Plan = Plan(
    appendFails: bool,     // nng_msg_append fails
    loopClosed: bool,      // _prepare_aio raises
    startFails: bool,      // nng refuses the operation
    opOk: bool,            // nng takes or delivers the message
    cancelled: bool)       // the waiting asyncio task is cancelled

  datatype Outcome = Done | Refused | Raised

  datatype Running = NoOperation | Sending | Receiving

  predicate WaitRaises(plan: Plan) {
    plan.cancelled || !plan.opOk
  }

  /** What becomes of a message that `asend` or `asend_msg` gave to the aio. */
  function SentFate(plan: Plan): Fate {
    if !plan.startFails && plan.opOk then Consumed else Freed
  }

  /** Taken by nng or freed by Python. */
  predicate Settled(fate: Fate) {
    fate.Consumed? || fate.Freed?
  }

  class Helper {
    var fates: map<MsgId, Fate>
    var aioMsg: Option<MsgId>
    var sending: bool
    // Every time that nng took a message or nng_msg_free was called for it.
    var ends: multiset<MsgId>

    constructor ()
      ensures fates == map[] && Idle()
    {
      fates, aioMsg, sending, ends := map[], None, false, multiset{};
    }

    /** Each message was taken or freed once if that is its fate, and never otherwise. */
    ghost predicate Counted()
      reads this
    {
      forall m :: ends[m] == if m in fates && Settled(fates[m]) then 1 else 0
    }

    /** Between operations the aio holds no message, and no message is left without an owner. */
    ghost predicate Idle()
      reads this
    {
      aioMsg.None? && !sending && Counted() && forall m :: m in fates ==> !fates[m].Raw?
    }

    /** nng_msg_free: only for a message that is allocated and that nng did not take. */
    method MsgFree(m: MsgId)
      requires m in fates && (fates[m].Raw? || fates[m].Wrapped?) && Counted()
      modifies this`fates, this`ends
      ensures fates == old(fates)[m := Freed] && Counted()
    {
      ends := ends + multiset{m};
      fates := fates[m := Freed];
    }

    /** nng finishes the operation on the aio. */
    method FinishSend(ok: bool)
      requires aioMsg.Some? && aioMsg.value in fates && fates[aioMsg.value].Raw? && Counted()
      modifies this`fates, this`aioMsg, this`ends
      ensures Counted()
      ensures fates == (if ok then old(fates)[old(aioMsg).value := Consumed] else old(fates))
      ensures aioMsg == if ok then None else old(aioMsg)
    {
      if ok {
        ends := ends + multiset{aioMsg.value};
        fates := fates[aioMsg.value := Consumed];
        aioMsg := None;
      }
    }

    method FinishRecv(ok: bool, m: MsgId)
      requires aioMsg.None? && m !in fates && Counted()
      modifies this`fates, this`aioMsg
      ensures Counted()
      ensures fates == (if ok then old(fates)[m := Raw] else old(fates))
      ensures aioMsg == if ok then Some(m) else None
    {
      if ok {
        fates := fates[m := Raw];
        aioMsg := Some(m);
      }
    }

    /** `except BaseException` after a wait: whatever the aio still holds is freed. */
    method FreeLeftover()
      requires aioMsg.Some? ==> aioMsg.value in fates && fates[aioMsg.value].Raw?
      requires Counted()
      modifies this`fates, this`aioMsg, this`ends
      ensures aioMsg.None? && Counted()
      ensures fates == if old(aioMsg).Some? then old(fates)[old(aioMsg).value := Freed] else old(fates)
    {
      if aioMsg.Some? {
        var leftover := aioMsg.value;
        aioMsg := None;
        MsgFree(leftover);
      }
    }

    method SendAndWait(m: MsgId, plan: Plan) returns (r: Outcome)
      requires m in fates && fates[m].Raw? && aioMsg == Some(m) && Counted()
      modifies this
      ensures Counted() && aioMsg.None? && !sending && fates == old(fates)[m := SentFate(plan)]
      ensures r == if plan.startFails || WaitRaises(plan) then Raised else Done
    {
      sending := true;
      if plan.startFails {
        sending := false;
        aioMsg := None;
        MsgFree(m);
        return Raised;
      }
      FinishSend(plan.opOk);
      r := Done;
      if WaitRaises(plan) {
        FreeLeftover();
        r := Raised;
      }
      sending := false;
    }

    /** `asend(data)`: the message that it allocates ends consumed or freed. */
    method Asend(m: MsgId, plan: Plan) returns (r: Outcome)
      requires Idle() && m !in fates
      modifies this
      ensures Idle()
      ensures fates == old(fates)[m := if plan.appendFails || plan.loopClosed then Freed else SentFate(plan)]
      ensures fates[m].Consumed? <==> !plan.appendFails && !plan.loopClosed && !plan.startFails && plan.opOk
      ensures r.Done? <==> fates[m].Consumed? && !plan.cancelled
      ensures !r.Done? ==> r.Raised?
    {
      fates := fates[m := Raw];
      if plan.appendFails || plan.loopClosed {
        sending := false;
        aioMsg := None;
        MsgFree(m);
        return Raised;
      }
      aioMsg := Some(m);
      r := SendAndWait(m, plan);
    }

    /** `asend_msg(msg)`: the Message gives its message up, which ends consumed or freed; if the loop
    is closed the Message keeps it. */
    method AsendMsg(m: MsgId, plan: Plan) returns (r: Outcome)
      requires Idle() && m in fates
      modifies this
      ensures Idle()
      ensures r.Refused? <==> !old(fates)[m].Wrapped?
      ensures fates == if r.Refused? || plan.loopClosed then old(fates) else old(fates)[m := SentFate(plan)]
      ensures !r.Refused? ==> (fates[m].Consumed? <==> !plan.loopClosed && !plan.startFails && plan.opOk)
      ensures r.Done? <==> old(fates)[m].Wrapped? && fates[m].Consumed? && !plan.cancelled
    {
      if !fates[m].Wrapped? { return Refused; }
      if plan.loopClosed { return Raised; }
      aioMsg := Some(m);
      fates := fates[m := Raw];   // _mem_freed = True
      r := SendAndWait(m, plan);
    }

    /** `arecv_msg()`: a delivered message goes to one Message, or is freed if the asyncio task was cancelled. */
    method ArecvMsg(m: MsgId, plan: Plan) returns (r: Outcome)
      requires Idle() && m !in fates
      modifies this
      ensures Idle()
      ensures fates == if plan.loopClosed || plan.startFails || !plan.opOk then old(fates)
                       else old(fates)[m := if plan.cancelled then Freed else Wrapped]
      ensures r.Done? <==> m in fates && fates[m].Wrapped?
    {
      if plan.loopClosed || plan.startFails { return Raised; }
      FinishRecv(plan.opOk, m);
      if WaitRaises(plan) {
        FreeLeftover();
        return Raised;
      }
      aioMsg := None;
      fates := fates[m := Wrapped];
      r := Done;
    }

    /** `_free`, also on a helper whose operation nng still runs: cancel, wait, and free what a send
    left.  The only message it can lose is one that a receive delivered before the cancel. */
    method Free(running: Running, ok: bool, m: MsgId)
      requires running.NoOperation? ==> Idle()
      requires running.Sending? ==> sending && aioMsg == Some(m) && m in fates && fates[m].Raw?
      requires running.Receiving? ==> !sending && aioMsg.None? && m !in fates
      requires Counted() && forall x :: x in fates && x != m ==> !fates[x].Raw?
      modifies this
      ensures Counted() && !sending
      ensures running.Sending? ==> fates == old(fates)[m := if ok then Consumed else Freed]
      ensures running.NoOperation? ==> fates == old(fates)
      ensures running.Receiving? ==> fates == if ok then old(fates)[m := Raw] else old(fates)
      ensures (exists x :: x in fates && fates[x].Raw?) <==> running.Receiving? && ok
    {
      match running {
        case NoOperation =>
        case Sending => FinishSend(ok);
        case Receiving => FinishRecv(ok, m);
      }
      if sending {
        FreeLeftover();
        sending := false;
      }
      assert m in fates && fates[m].Raw? <==> running.Receiving? && ok;
    }
  }

  /** The message that a receive delivers to a helper which is just being freed stays with no owner. */
  method FreeLosesMessage(m: MsgId) returns (h: Helper)
    ensures m in h.fates && h.fates[m].Raw? && h.ends[m] == 0
  {
    h := new Helper();
    h.Free(Receiving, true, m);
  }

  datatype Operation = Send | SendMsg(m: MsgId) | Recv | Del(m: MsgId)

  /** The fates of all messages after one operation; `next` is the id of a message it makes. */
  function Settle(fates: map<MsgId, Fate>, op: Operation, plan: Plan, next: MsgId): map<MsgId, Fate> {
    match op
    case Send => fates[next := if plan.appendFails || plan.loopClosed then Freed else SentFate(plan)]
    case SendMsg(m) =>
      if m in fates && fates[m].Wrapped? && !plan.loopClosed then fates[m := SentFate(plan)] else fates
    case Recv =>
      if plan.loopClosed || plan.startFails || !plan.opOk then fates
      else fates[next := if plan.cancelled then Freed else Wrapped]
    case Del(m) => if m in fates && fates[m].Wrapped? then fates[m := Freed] else fates
  }

  function SettleAll(fates: map<MsgId, Fate>, ops: seq<(Operation, Plan)>, next: MsgId): map<MsgId, Fate>
    decreases |ops|
  {
    if ops == [] then fates
    else SettleAll(Settle(fates, ops[0].0, ops[0].1, next), ops[1..], next + 1)
  }

  /** Any operations on one pooled helper, in any order and with any outcome.  Each message that was
  ever made was taken by nng or freed exactly once, or one Message owns it and neither happened. */
  method RunAll(ops: seq<(Operation, Plan)>) returns (h: Helper)
    ensures h.Idle() && h.fates == SettleAll(map[], ops, 0)
    ensures forall m :: m in h.fates ==> h.ends[m] == if h.fates[m].Wrapped? then 0 else 1
    ensures forall m :: m !in h.fates ==> h.ends[m] == 0
  {
    h := new Helper();
    for i := 0 to |ops|
      invariant h.Idle() && fresh(h)
      invariant forall m :: m in h.fates ==> m < i
      invariant SettleAll(map[], ops, 0) == SettleAll(h.fates, ops[i..], i)
    {
      var (op, plan) := ops[i];
      ghost var before := h.fates;
      assert ops[i..][0] == ops[i] && ops[i..][1..] == ops[i+1..];
      match op {
        case Send =>
          var _ := h.Asend(i, plan);
        case SendMsg(m) =>
          if m in h.fates {
            var _ := h.AsendMsg(m, plan);
          }
        case Recv =>
          var _ := h.ArecvMsg(i, plan);
        case Del(m) =>
          if m in h.fates && h.fates[m].Wrapped? {
            h.MsgFree(m);   // Message.__del__
          }
      }
      assert h.fates == Settle(before, op, plan, i);
    }
    assert ops[|ops|..] == [];
  }

  lemma {:induction false} SettledStays(fates: map<MsgId, Fate>, ops: seq<(Operation, Plan)>, next: MsgId, m: MsgId)
    requires m in fates && Settled(fates[m]) && forall x :: x in fates ==> x < next
    ensures m in SettleAll(fates, ops, next) && SettleAll(fates, ops, next)[m] == fates[m]
    decreases |ops|
  {
    if ops != [] {
      SettledStays(Settle(fates, ops[0].0, ops[0].1, next), ops[1..], next + 1, m);
    }
  }

  /** Conservation: in the end every message is owned by one Message, was taken by nng, or was freed;
  what nng took or Python freed once is never taken or freed again, and no message is lost. */
  lemma {:induction false} MessagesConserved(fates: map<MsgId, Fate>, ops: seq<(Operation, Plan)>, next: MsgId)
    requires forall m :: m in fates ==> m < next && !fates[m].Raw?
    ensures var end := SettleAll(fates, ops, next);
      && fates.Keys <= end.Keys
      && (forall m :: m in end ==> end[m].Wrapped? || Settled(end[m]))
      && (forall m :: m in fates && Settled(fates[m]) ==> end[m] == fates[m])
    decreases |ops|
  {
    if ops != [] {
      MessagesConserved(Settle(fates, ops[0].0, ops[0].1, next), ops[1..], next + 1);
    }
  }
}
