/** Threads that use one helper pool: the check of `_release_recv_helper` and its append are two
steps, and so are the `while pool` and the `pool.pop()` of an acquire and of `_finish_close`.  Other
threads can come between them. */
module PoolRace {
  import opened OwnCompletion

  type ThreadId = nat

  // `passed`: the threads between their check and their append; `looked`: those that found the
  // pool not empty and have not popped; `raised`: a pop met an empty list.
  datatype Race = Race(size: nat, closed: bool, passed: set<ThreadId>, looked: set<ThreadId>, raised: bool)

  datatype Move =
    | Check(t: ThreadId)
    | Append(t: ThreadId)
    | Look(t: ThreadId)
    | Pop(t: ThreadId)
    | SetClosed

  predicate Possible(r: Race, threads: set<ThreadId>, m: Move) {
    match m
    case Check(t) => t in threads && t !in r.passed
    case Append(t) => t in r.passed
    case Look(t) => t in threads && t !in r.looked
    case Pop(t) => t in r.looked
    case SetClosed => true
  }

  function Do(r: Race, m: Move): Race {
    match m
    case Check(t) => if !r.closed && r.size < MAX_POOL_SIZE then r.(passed := r.passed + {t}) else r
    case Append(t) => r.(size := r.size + 1, passed := r.passed - {t})
    case Look(t) => if r.size > 0 then r.(looked := r.looked + {t}) else r
    case Pop(t) =>
      if r.size > 0 then r.(size := r.size - 1, looked := r.looked - {t})
      else r.(looked := r.looked - {t}, raised := true)
    case SetClosed => r.(closed := true)
  }

  predicate IsPlay(r: Race, threads: set<ThreadId>, moves: seq<Move>)
    decreases |moves|
  {
    moves == [] || (Possible(r, threads, moves[0]) && IsPlay(Do(r, moves[0]), threads, moves[1..]))
  }

  function Outcome(r: Race, moves: seq<Move>): Race
    decreases |moves|
  {
    if moves == [] then r else Outcome(Do(r, moves[0]), moves[1..])
  }

  const START: Race := Race(0, false, {}, {}, false)

  // ---------- the bound ----------

  predicate Bounded(r: Race, threads: set<ThreadId>) {
    r.passed <= threads && r.size + |r.passed| <= MAX_POOL_SIZE - 1 + |threads|
  }

  lemma MoveKeepsBound(r: Race, threads: set<ThreadId>, m: Move)
    requires Bounded(r, threads) && Possible(r, threads, m)
    ensures Bounded(Do(r, m), threads)
  {
    if m.Check? {
      SubsetSize(r.passed + {m.t}, threads);
    }
  }

  lemma {:induction false} SubsetSize(a: set<ThreadId>, b: set<ThreadId>)
    requires a <= b
    ensures |a| <= |b|
  {
    if a != {} {
      var t :| t in a;
      SubsetSize(a - {t}, b - {t});
    }
  }

  lemma {:induction false} PlayKeepsBound(r: Race, threads: set<ThreadId>, moves: seq<Move>)
    requires Bounded(r, threads) && IsPlay(r, threads, moves)
    ensures Bounded(Outcome(r, moves), threads)
    decreases |moves|
  {
    if moves != [] {
      MoveKeepsBound(r, threads, moves[0]);
      PlayKeepsBound(Do(r, moves[0]), threads, moves[1..]);
    }
  }

  lemma {:induction false} Then(r: Race, threads: set<ThreadId>, a: seq<Move>, b: seq<Move>)
    requires IsPlay(r, threads, a) && IsPlay(Outcome(r, a), threads, b)
    ensures IsPlay(r, threads, a + b) && Outcome(r, a + b) == Outcome(Outcome(r, a), b)
    decreases |a|
  {
    if a == [] {
      assert a + b == b;
    } else {
      assert (a + b)[1..] == a[1..] + b;
      Then(Do(r, a[0]), threads, a[1..], b);
    }
  }

  lemma Two(r: Race, threads: set<ThreadId>, a: Move, b: Move)
    requires Possible(r, threads, a) && Possible(Do(r, a), threads, b)
    ensures IsPlay(r, threads, [a, b]) && Outcome(r, [a, b]) == Do(Do(r, a), b)
  {
    assert [a, b][1..] == [b] && [b][1..] == [];
    assert Outcome(Do(r, a), [b]) == Do(Do(r, a), b);
  }

  lemma {:induction false} Fill(threads: set<ThreadId>, t: ThreadId, n: nat) returns (moves: seq<Move>)
    requires t in threads && n <= MAX_POOL_SIZE
    ensures IsPlay(START, threads, moves) && Outcome(START, moves) == START.(size := n)
  {
    if n == 0 {
      moves := [];
    } else {
      moves := Fill(threads, t, n - 1);
      Two(START.(size := n - 1), threads, Check(t), Append(t));
      assert {} + {t} - {t} == START.passed;
      Then(START, threads, moves, [Check(t), Append(t)]);
      moves := moves + [Check(t), Append(t)];
    }
  }

  /** The threads `ts` pass the check, one after the other, and then append: with room for one helper
  there is room for all of them. */
  lemma {:induction false} AllAppend(r: Race, threads: set<ThreadId>, ts: set<ThreadId>) returns (moves: seq<Move>)
    requires ts <= threads && r.passed == {} && !r.closed && r.size < MAX_POOL_SIZE
    ensures IsPlay(r, threads, moves) && Outcome(r, moves).size == r.size + |ts|
  {
    moves := AllCheck(r, threads, ts);
    var r' := Outcome(r, moves);
    var appends := AppendPassed(r', threads);
    Then(r, threads, moves, appends);
    moves := moves + appends;
  }

  lemma {:induction false} AllCheck(r: Race, threads: set<ThreadId>, ts: set<ThreadId>) returns (moves: seq<Move>)
    requires ts <= threads && ts !! r.passed && !r.closed && r.size < MAX_POOL_SIZE
    ensures IsPlay(r, threads, moves) && Outcome(r, moves) == r.(passed := r.passed + ts)
    decreases ts
  {
    if ts == {} {
      moves := [];
    } else {
      var t :| t in ts;
      var r' := Do(r, Check(t));
      moves := AllCheck(r', threads, ts - {t});
      assert r'.passed + (ts - {t}) == r.passed + ts;
      Cons(r, threads, Check(t), moves);
      moves := [Check(t)] + moves;
    }
  }

  lemma {:induction false} AppendPassed(r: Race, threads: set<ThreadId>) returns (moves: seq<Move>)
    ensures IsPlay(r, threads, moves) && Outcome(r, moves).size == r.size + |r.passed|
    decreases r.passed
  {
    if r.passed == {} {
      moves := [];
    } else {
      var t :| t in r.passed;
      moves := AppendPassed(Do(r, Append(t)), threads);
      Cons(r, threads, Append(t), moves);
      moves := [Append(t)] + moves;
    }
  }

  lemma Cons(r: Race, threads: set<ThreadId>, m: Move, rest: seq<Move>)
    requires Possible(r, threads, m) && IsPlay(Do(r, m), threads, rest)
    ensures IsPlay(r, threads, [m] + rest) && Outcome(r, [m] + rest) == Outcome(Do(r, m), rest)
  {
    assert ([m] + rest)[1..] == rest;
  }

  /** With `n` threads a pool holds at most `32 + n - 1` helpers, and it can hold so many. */
  lemma BoundIsExact(threads: set<ThreadId>)
    requires threads != {}
    ensures forall moves: seq<Move> ::
      IsPlay(START, threads, moves) ==> Outcome(START, moves).size <= MAX_POOL_SIZE - 1 + |threads|
    ensures exists moves: seq<Move> ::
      IsPlay(START, threads, moves) && Outcome(START, moves).size == MAX_POOL_SIZE - 1 + |threads|
  {
    forall moves: seq<Move> | IsPlay(START, threads, moves)
      ensures Outcome(START, moves).size <= MAX_POOL_SIZE - 1 + |threads|
    {
      PlayKeepsBound(START, threads, moves);
    }
    var t :| t in threads;
    var fill := Fill(threads, t, MAX_POOL_SIZE - 1);
    var more := AllAppend(Outcome(START, fill), threads, threads);
    Then(START, threads, fill, more);
    assert IsPlay(START, threads, fill + more);
  }

  /** A pool never exceeds 32 helpers if and only if one thread releases to it. */
  lemma BoundIffOneThread(threads: set<ThreadId>)
    requires threads != {}
    ensures |threads| == 1
      <==> forall moves: seq<Move> :: IsPlay(START, threads, moves) ==> Outcome(START, moves).size <= MAX_POOL_SIZE
  {
    BoundIsExact(threads);
  }

  // ---------- a closed pool ----------

  lemma {:induction false} StaysEmpty(r: Race, threads: set<ThreadId>, moves: seq<Move>)
    requires r.closed && r.size == 0 && r.passed == {} && IsPlay(r, threads, moves)
    ensures Outcome(r, moves).size == 0
    decreases |moves|
  {
    if moves != [] {
      StaysEmpty(Do(r, moves[0]), threads, moves[1..]);
    }
  }

  /** The pool that a close emptied stays empty if and only if no thread was between its check and its
  append. */
  lemma ClosedStaysEmptyIff(r: Race, threads: set<ThreadId>)
    requires r.closed && r.size == 0
    ensures r.passed == {}
      <==> forall moves: seq<Move> :: IsPlay(r, threads, moves) ==> Outcome(r, moves).size == 0
  {
    if r.passed == {} {
      forall moves: seq<Move> | IsPlay(r, threads, moves) ensures Outcome(r, moves).size == 0 {
        StaysEmpty(r, threads, moves);
      }
    } else {
      var t :| t in r.passed;
      Cons(r, threads, Append(t), []);
      assert Outcome(r, [Append(t)] + []).size == 1;
    }
  }

  /** A thread that passed the check before the close leaves a helper in the closed pool. */
  lemma LateAppend(threads: set<ThreadId>, t: ThreadId) returns (moves: seq<Move>)
    requires t in threads
    ensures IsPlay(START, threads, moves)
    ensures Outcome(START, moves).closed && Outcome(START, moves).size == 1
  {
    Two(START, threads, Check(t), SetClosed);
    assert {} + {t} == {t};
    Cons(START.(closed := true, passed := {t}), threads, Append(t), []);
    Then(START, threads, [Check(t), SetClosed], [Append(t)] + []);
    moves := [Check(t), SetClosed] + ([Append(t)] + []);
  }

  // ---------- popping from an empty list ----------

  /** One thread, and what it saw is still there. */
  predicate Alone(r: Race, threads: set<ThreadId>) {
    !r.raised && r.looked <= threads && (r.looked != {} ==> r.size > 0)
  }

  lemma {:induction false} AloneNeverRaises(r: Race, threads: set<ThreadId>, moves: seq<Move>)
    requires |threads| == 1 && Alone(r, threads) && IsPlay(r, threads, moves)
    ensures !Outcome(r, moves).raised
    decreases |moves|
  {
    if moves != [] {
      var m := moves[0];
      if m.Pop? {
        SubsetSize(r.looked, threads);
        SubsetSize(r.looked - {m.t}, r.looked);
        assert |r.looked - {m.t}| == |r.looked| - 1 == 0;
      }
      AloneNeverRaises(Do(r, m), threads, moves[1..]);
    }
  }

  lemma TwoTakersRaise(threads: set<ThreadId>, t: ThreadId, u: ThreadId) returns (moves: seq<Move>)
    requires t in threads && u in threads && t != u
    ensures IsPlay(START, threads, moves) && Outcome(START, moves).raised
  {
    moves := Fill(threads, t, 1);
    var r := START.(size := 1);
    Two(r, threads, Look(t), Look(u));
    assert {} + {t} + {u} == {t, u};
    var r2 := r.(looked := {t, u});
    Two(r2, threads, Pop(t), Pop(u));
    Then(START, threads, moves, [Look(t), Look(u)]);
    Then(START, threads, moves + [Look(t), Look(u)], [Pop(t), Pop(u)]);
    moves := moves + [Look(t), Look(u)] + [Pop(t), Pop(u)];
  }

  /** No pop ever meets an empty list if and only if one thread uses the pool. */
  lemma PopIsSafeIffOneThread(threads: set<ThreadId>)
    requires threads != {}
    ensures |threads| == 1
      <==> forall moves: seq<Move> :: IsPlay(START, threads, moves) ==> !Outcome(START, moves).raised
  {
    if |threads| == 1 {
      forall moves: seq<Move> | IsPlay(START, threads, moves) ensures !Outcome(START, moves).raised {
        AloneNeverRaises(START, threads, moves);
      }
    } else {
      var t :| t in threads;
      assert |threads - {t}| == |threads| - 1;
      var u :| u in threads - {t};
      var moves := TwoTakersRaise(threads, t, u);
    }
  }
}
