/** The slot ids of MPSCAIOEngine: a 31-bit counter that skips zero and every pending id. */
module SlotTable {

  const MASK: int := 0x7FFF_FFFF

  /** `(counter + 1) & 0x7FFFFFFF`, with 0 replaced by 1. */
  function NextCounter(counter: int): (next: int)
    ensures 1 <= next <= MASK
    ensures 1 <= counter <= MASK ==> next == if counter == MASK then 1 else counter + 1
  {
    var next := (counter + 1) % (MASK + 1);
    if next == 0 then 1 else next
  }

  /** How many ids lie between `from` and `to`, going up and around. */
  function CyclicDistance(from: int, to: int): nat
    requires 1 <= from <= MASK && 1 <= to <= MASK
  {
    if from <= to then to - from else to - from + MASK
  }

  /** `slot` is the first id at or after `from`, going around, that is not in `occupied`. */
  ghost predicate IsFirstFree(from: int, occupied: set<int>, slot: int) {
    && 1 <= from <= MASK
    && 1 <= slot <= MASK
    && slot !in occupied
    && forall id :: 1 <= id <= MASK && CyclicDistance(from, id) < CyclicDistance(from, slot) ==> id in occupied
  }

  lemma FirstFreeIsUnique(from: int, occupied: set<int>, a: int, b: int)
    requires IsFirstFree(from, occupied, a) && IsFirstFree(from, occupied, b)
    ensures a == b
  {
    assert CyclicDistance(from, a) < CyclicDistance(from, b) ==> a in occupied;
    assert CyclicDistance(from, b) < CyclicDistance(from, a) ==> b in occupied;
  }

  lemma {:induction false} IdsUpTo(n: nat, occupied: set<int>)
    requires forall id :: 1 <= id <= n ==> id in occupied
    ensures |occupied| >= n
    decreases n
  {
    if n > 0 {
      var rest := occupied - {n};
      assert forall id :: 1 <= id <= n - 1 ==> id in rest;
      IdsUpTo(n - 1, rest);
    }
  }

  /** Fewer pending operations than ids leave an id free. */
  lemma SomeIdIsFree(occupied: set<int>) returns (id: int)
    requires |occupied| < MASK
    ensures 1 <= id <= MASK && id !in occupied
  {
    if forall id :: 1 <= id <= MASK ==> id in occupied {
      IdsUpTo(MASK, occupied);
      assert false;
    }
    id :| 1 <= id <= MASK && id !in occupied;
  }
}
