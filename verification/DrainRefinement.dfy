/** The steps in which OwnCompletion drains and delivers, which keep the identity of operations, are
the drain and delivery of AioEngine with that identity erased. */
module DrainRefinement {
  import opened OwnCompletion
  import opened AioEngine
  import Spec = CompletionSpec

  /** The futures as the engine sees them. */
  function Erase(futures: OwnCompletion.Futures): AioEngine.Futures {
    map f | f in futures :: if futures[f].None? then Pending else Resolved
  }

  function TableOf(s: State): Table {
    Table(s.slots, Erase(s.futures))
  }

  function SlotIds(batch: seq<Report>): (ids: seq<nat>)
    ensures |ids| == |batch|
  {
    seq(|batch|, i requires 0 <= i < |batch| => batch[i].slot)
  }

  /** The rest of the batch, step by step. */
  function DeliverAll(s: State): State
    decreases |s.batch|
  {
    if s.batch == [] then s else DeliverAll(DeliverStep(s))
  }

  lemma DeliversOne(s: State)
    requires s.batch != []
    ensures TableOf(DeliverStep(s)) == DeliverOne(TableOf(s), s.batch[0].slot)
  {
  }

  lemma {:induction false} DeliversBatch(s: State)
    ensures TableOf(DeliverAll(s)) == Deliver(TableOf(s), SlotIds(s.batch))
    decreases |s.batch|
  {
    if s.batch != [] {
      DeliversOne(s);
      assert SlotIds(s.batch)[1..] == SlotIds(s.batch[1..]);
      DeliversBatch(DeliverStep(s));
    }
  }

  /** One turn of the drain loop leaves the table as the engine's turn does. */
  lemma TurnRefinesEngine(s: State, max: nat)
    requires Inv(s) && Enabled(s, DrainOnce(max))
    ensures var s' := DeliverAll(DrainStep(s, max)); var d := Spec.Drain(s.q, max);
      DrainStep(s, max).q == d.queue && TableOf(s') == Deliver(TableOf(s), d.slots)
  {
    var t := DrainStep(s, max);
    var _ := DrainEffect(s, max);
    BatchIsSlots(s, max);
    assert SlotIds(t.batch) == Spec.Drain(s.q, max).slots;
    DeliversBatch(t);
  }
}
