/** The helper pools of pynng/_base.py as the lists that the sockets and contexts keep. */
module HelperPool {
  import opened Wrappers
  import opened OwnCompletion

  /** `helpers` without the unusable ones at its end. */
  function DropUnusable(helpers: seq<HelperId>, usable: HelperId -> bool): (kept: seq<HelperId>)
    ensures |kept| <= |helpers|
  {
    if helpers == [] || usable(helpers[|helpers| - 1]) then helpers
    else DropUnusable(helpers[..|helpers| - 1], usable)
  }

  function Reversed(helpers: seq<HelperId>): seq<HelperId> {
    if helpers == [] then [] else Reversed(helpers[1..]) + [helpers[0]]
  }

  lemma ReversedTail(helpers: seq<HelperId>, n: nat)
    requires n < |helpers|
    ensures Reversed(helpers[n..]) == Reversed(helpers[n + 1..]) + [helpers[n]]
  {
    assert helpers[n..][1..] == helpers[n + 1..];
  }

  lemma {:induction false} ReversedKeepsAll(helpers: seq<HelperId>)
    ensures multiset(Reversed(helpers)) == multiset(helpers)
  {
    if helpers != [] {
      ReversedKeepsAll(helpers[1..]);
      assert helpers == [helpers[0]] + helpers[1..];
    }
  }

  // The helpers in `helpers`, `freed` and `taken`, as often as they occur.
  function AllOf(helpers: seq<HelperId>, freed: seq<HelperId>, taken: Option<HelperId>): multiset<HelperId> {
    multiset(helpers) + multiset(freed) + (if taken.Some? then multiset{taken.value} else multiset{})
  }

  /** It stops at the last usable helper, and what it drops is unusable. */
  lemma {:induction false} DropsOnlyUnusable(helpers: seq<HelperId>, usable: HelperId -> bool)
    ensures var kept := DropUnusable(helpers, usable);
      && kept == helpers[..|kept|]
      && (forall i :: |kept| <= i < |helpers| ==> !usable(helpers[i]))
      && (kept != [] ==> usable(kept[|kept| - 1]))
  {
    if helpers != [] && !usable(helpers[|helpers| - 1]) {
      var init := helpers[..|helpers| - 1];
      DropsOnlyUnusable(init, usable);
      forall i | |DropUnusable(init, usable)| <= i < |helpers| ensures !usable(helpers[i]) {
        assert i < |init| ==> init[i] == helpers[i];
      }
    }
  }

  lemma DroppingKeepsAll(helpers: seq<HelperId>, k: nat, freed: seq<HelperId>)
    requires k <= |helpers|
    ensures AllOf(helpers[..k], freed + Reversed(helpers[k..]), None) == AllOf(helpers, freed, None)
  {
    ReversedKeepsAll(helpers[k..]);
    assert helpers == helpers[..k] + helpers[k..];
  }

  lemma TakingKeepsAll(helpers: seq<HelperId>, freed: seq<HelperId>)
    requires helpers != []
    ensures var n := |helpers| - 1;
      AllOf(helpers[..n], freed, Some(helpers[n])) == AllOf(helpers, freed, None)
  {
    var n := |helpers| - 1;
    assert helpers == helpers[..n] + [helpers[n]];
  }

  /** What an acquire leaves in the pool, frees and takes is what the pool held, each helper once. */
  lemma AcquireKeepsAll(helpers: seq<HelperId>, freed: seq<HelperId>, usable: HelperId -> bool)
    ensures var kept := DropUnusable(helpers, usable);
      var freed' := freed + Reversed(helpers[|kept|..]);
      AllOf(helpers, freed, None)
      == if kept == [] then AllOf([], freed', None) else AllOf(kept[..|kept| - 1], freed', Some(kept[|kept| - 1]))
  {
    var kept := DropUnusable(helpers, usable);
    DropsOnlyUnusable(helpers, usable);
    DroppingKeepsAll(helpers, |kept|, freed);
    if kept != [] {
      TakingKeepsAll(kept, freed + Reversed(helpers[|kept|..]));
    }
  }

  class Pool {
    var helpers: seq<HelperId>
    var closed: bool
    // What was passed to `_free`, in order.
    var freed: seq<HelperId>

    ghost predicate Valid()
      reads this
    {
      |helpers| <= MAX_POOL_SIZE
    }

    constructor ()
      ensures Valid() && helpers == [] && !closed && freed == []
    {
      helpers, closed, freed := [], false, [];
    }

    /** The last usable helper, or none if a new one has to be made.  The unusable ones behind it
    are freed, the rest stays. */
    method Acquire(usable: HelperId -> bool) returns (h: Option<HelperId>)
      requires Valid()
      modifies this`helpers, this`freed
      ensures Valid()
      ensures var kept := DropUnusable(old(helpers), usable);
        && freed == old(freed) + Reversed(old(helpers)[|kept|..])
        && (if kept == [] then h == None && helpers == []
            else h == Some(kept[|kept| - 1]) && helpers == kept[..|kept| - 1])
    {
      ghost var pool := helpers;
      assert pool[|pool|..] == [];
      while helpers != []
        invariant |helpers| <= |pool| && helpers == pool[..|helpers|]
        invariant DropUnusable(pool, usable) == DropUnusable(helpers, usable)
        invariant freed == old(freed) + Reversed(pool[|helpers|..])
        decreases |helpers|
      {
        ReversedTail(pool, |helpers| - 1);
        var last := PopLast();
        if usable(last) {
          return Some(last);
        }
        freed := freed + [last];
      }
      h := None;
    }

    /** `pool.pop()`. */
    method PopLast() returns (last: HelperId)
      requires helpers != []
      modifies this`helpers
      ensures old(helpers) == helpers + [last]
      ensures helpers == old(helpers)[..|old(helpers)| - 1] && last == old(helpers)[|old(helpers)| - 1]
    {
      last := helpers[|helpers| - 1];
      helpers := helpers[..|helpers| - 1];
    }

    /** Kept if the socket is open, the pool has room, and the helper is usable; freed otherwise. */
    method Release(h: HelperId, usable: bool)
      requires Valid()
      modifies this`helpers, this`freed
      ensures Valid()
      ensures if !closed && |old(helpers)| < MAX_POOL_SIZE && usable
        then helpers == old(helpers) + [h] && freed == old(freed)
        else helpers == old(helpers) && freed == old(freed) + [h]
    {
      if !closed && |helpers| < MAX_POOL_SIZE && usable {
        helpers := helpers + [h];
      } else {
        freed := freed + [h];
      }
    }
  }
}
