/**
 The lazy deadlock detector: a bounded walk along recorded wait-for edges,
 asking each holder's node in turn whom that holder waits for.
 */
module ChainWalk {
  import opened Options
  import opened LockWaitTypes

  const MAX_CHAIN_HOPS: nat := 128

  /** `TooLong` is the failure the code asserts against on its last hop. */
  datatype Verdict = Deadlock | NoDeadlock | TooLong

  /** The answer at a given hop to "whom does this transaction wait for", asked on the given node. */
  type Ask = (nat, Waiter) -> Option<Waiter>

  /** The `i`-th holder along the chain that starts with `first`. */
  function At(first: Waiter, ask: Ask, i: nat): Option<Waiter> {
    if i == 0 then Some(first)
    else match At(first, ask, i - 1)
      case None => None
      case Some(w) => ask(i - 1, w)
  }

  predicate Reaches(first: Waiter, ask: Ask, i: nat, t: Ts) {
    At(first, ask, i).Some? && At(first, ask, i).value.ts == t
  }

  /** Two hops ask about the same transaction. */
  predicate Meets(first: Waiter, ask: Ask, i: nat, j: nat) {
    At(first, ask, i).Some? && At(first, ask, j).Some? && At(first, ask, i).value.ts == At(first, ask, j).value.ts
  }

  /** The first `n` holders exist, are pairwise different transactions, and none is `me`. */
  ghost predicate Simple(me: Ts, first: Waiter, ask: Ask, n: nat) {
    && (forall i: nat :: i < n ==> At(first, ask, i).Some? && At(first, ask, i).value.ts != me)
    && (forall i: nat, j: nat :: i < j < n ==> !Meets(first, ask, i, j))
  }

  /** The chain comes back to `me` at hop `i` without meeting anyone twice. */
  ghost predicate Closes(me: Ts, first: Waiter, ask: Ask, i: nat) {
    Simple(me, first, ask, i) && Reaches(first, ask, i, me)
  }

  /** The chain is longer than the walk is allowed to be. */
  ghost predicate Overruns(me: Ts, first: Waiter, ask: Ask) {
    && Simple(me, first, ask, MAX_CHAIN_HOPS - 1)
    && At(first, ask, MAX_CHAIN_HOPS - 1).Some? && !Reaches(first, ask, MAX_CHAIN_HOPS - 1, me)
  }

  ghost function Expected(me: Ts, first: Waiter, ask: Ask): Verdict {
    if exists i: nat :: i < MAX_CHAIN_HOPS && Closes(me, first, ask, i) then Deadlock
    else if Overruns(me, first, ask) then TooLong
    else NoDeadlock
  }

  /** The walk, with a time budget that does not expire. */
  method DetectDeadlock(me: Ts, first: Waiter, ask: Ask) returns (v: Verdict)
    ensures v == Expected(me, first, ask)
  {
    var visited: set<Ts> := {me};
    var cur := first;
    var hop := 0;
    while hop < MAX_CHAIN_HOPS
      invariant 0 <= hop < MAX_CHAIN_HOPS
      invariant At(first, ask, hop) == Some(cur) && Simple(me, first, ask, hop)
      invariant hop > 0 ==> cur.ts != me
      invariant forall t :: t in visited && t != me ==> exists i: nat :: i < hop && Reaches(first, ask, i, t)
      invariant me in visited && forall i: nat :: i < hop ==> At(first, ask, i).value.ts in visited
      decreases MAX_CHAIN_HOPS - hop
    {
      if hop == MAX_CHAIN_HOPS - 1 {
        NoEarlierClose(me, first, ask, hop);
        return TooLong;
      }
      if cur.ts == me {
        assert Closes(me, first, ask, hop);
        return Deadlock;
      }
      if cur.ts in visited {
        ghost var i: nat :| i < hop && Reaches(first, ask, i, cur.ts);
        RepeatEnds(me, first, ask, i, hop);
        return NoDeadlock;
      }
      visited := visited + {cur.ts};
      assert Reaches(first, ask, hop, cur.ts);
      var next := ask(hop, cur);
      assert At(first, ask, hop + 1) == next;
      assert Simple(me, first, ask, hop + 1);
      if next.None? {
        EndEnds(me, first, ask, hop + 1);
        return NoDeadlock;
      }
      if next.value.ts == me {
        assert Closes(me, first, ask, hop + 1);
        return Deadlock;
      }
      cur := next.value;
      hop := hop + 1;
    }
    return NoDeadlock;
  }

  lemma NoEarlierClose(me: Ts, first: Waiter, ask: Ask, n: nat)
    requires Simple(me, first, ask, n)
    ensures forall i: nat :: i < n ==> !Closes(me, first, ask, i)
  {}

  /** Once a transaction is met twice, no longer stretch of the chain is simple. */
  lemma RepeatEnds(me: Ts, first: Waiter, ask: Ask, i: nat, j: nat)
    requires i < j < MAX_CHAIN_HOPS - 1 && Simple(me, first, ask, j)
    requires At(first, ask, j).Some? && At(first, ask, j).value.ts != me
    requires Reaches(first, ask, i, At(first, ask, j).value.ts)
    ensures !Overruns(me, first, ask)
    ensures forall n: nat :: n < MAX_CHAIN_HOPS ==> !Closes(me, first, ask, n)
  {
    assert Meets(first, ask, i, j);
    forall n: nat | n < MAX_CHAIN_HOPS ensures !Closes(me, first, ask, n) {
      if n > j { assert !Simple(me, first, ask, n); }
    }
  }

  lemma EndEnds(me: Ts, first: Waiter, ask: Ask, n: nat)
    requires n < MAX_CHAIN_HOPS && Simple(me, first, ask, n) && At(first, ask, n).None?
    ensures !Overruns(me, first, ask)
    ensures forall i: nat :: i < MAX_CHAIN_HOPS ==> !Closes(me, first, ask, i)
  {
    forall i: nat | i < MAX_CHAIN_HOPS ensures !Closes(me, first, ask, i) {
      if i >= n { NothingAfterTheEnd(first, ask, n, i); }
    }
    NothingAfterTheEnd(first, ask, n, MAX_CHAIN_HOPS - 1);
  }

  lemma {:induction false} NothingAfterTheEnd(first: Waiter, ask: Ask, n: nat, i: nat)
    requires n <= i && At(first, ask, n).None?
    ensures At(first, ask, i).None?
    decreases i
  {
    if i == n {
    } else {
      NothingAfterTheEnd(first, ask, n, i - 1);
    }
  }

  // ----- exactness where everybody is asked on one node -----

  /** Answers do not change while the walk goes on. */
  ghost predicate Constant(ask: Ask) {
    forall i, j, w :: ask(i, w) == ask(j, w)
  }

  /** And the chain asks about a transaction always on the same node. */
  ghost predicate Stable(first: Waiter, ask: Ask) {
    Constant(ask) && forall i: nat, j: nat :: Meets(first, ask, i, j) ==> At(first, ask, i) == At(first, ask, j)
  }

  lemma {:induction false} SameFromThere(first: Waiter, ask: Ask, i: nat, j: nat, n: nat)
    requires Constant(ask) && At(first, ask, i) == At(first, ask, j)
    ensures At(first, ask, i + n) == At(first, ask, j + n)
    decreases n
  {
    if n == 0 {
    } else {
      SameFromThere(first, ask, i, j, n - 1);
    }
  }

  lemma {:induction false} NothingBeforeIsMissing(first: Waiter, ask: Ask, i: nat, n: nat)
    requires i <= n && At(first, ask, n).Some?
    ensures At(first, ask, i).Some?
  {
    if At(first, ask, i).None? { NothingAfterTheEnd(first, ask, i, n); }
  }

  /** A chain that comes back to `me` comes back without a detour. */
  lemma {:induction false} FirstReturnIsSimple(me: Ts, first: Waiter, ask: Ask, n: nat)
    requires Stable(first, ask) && Reaches(first, ask, n, me)
    ensures exists i: nat :: i <= n && Closes(me, first, ask, i)
    decreases n
  {
    if exists m: nat :: m < n && Reaches(first, ask, m, me) {
      var m: nat :| m < n && Reaches(first, ask, m, me);
      FirstReturnIsSimple(me, first, ask, m);
    } else if exists i: nat, j: nat :: i < j < n && Meets(first, ask, i, j) {
      var i: nat, j: nat :| i < j < n && Meets(first, ask, i, j);
      SameFromThere(first, ask, i, j, n - j);
      FirstReturnIsSimple(me, first, ask, i + (n - j));
    } else {
      forall i: nat | i < n ensures At(first, ask, i).Some? && At(first, ask, i).value.ts != me {
        NothingBeforeIsMissing(first, ask, i, n);
        assert !Reaches(first, ask, i, me);
      }
      assert Closes(me, first, ask, n);
    }
  }

  /**
   On a stable graph the verdict is exact: a deadlock is reported if and only if
   the edges lead back to the caller through at most 128 transactions, and "no
   deadlock" means they never lead back at all. Cycles further down that leave
   the caller out are not reported.
   */
  lemma WalkIsExact(me: Ts, first: Waiter, ask: Ask)
    requires Stable(first, ask)
    ensures Expected(me, first, ask) == Deadlock <==> exists i: nat :: i < MAX_CHAIN_HOPS && Reaches(first, ask, i, me)
    ensures Expected(me, first, ask) == NoDeadlock ==> forall i: nat :: !Reaches(first, ask, i, me)
    ensures Expected(me, first, ask) == TooLong <==> Overruns(me, first, ask)
  {
    forall n: nat | Reaches(first, ask, n, me)
      ensures Expected(me, first, ask) != NoDeadlock
      ensures n < MAX_CHAIN_HOPS ==> Expected(me, first, ask) == Deadlock
    {
      FirstReturnIsSimple(me, first, ask, n);
      var i: nat :| i <= n && Closes(me, first, ask, i);
      if i >= MAX_CHAIN_HOPS {
        assert At(first, ask, MAX_CHAIN_HOPS - 1).Some?;
        assert Overruns(me, first, ask);
      }
    }
    if Overruns(me, first, ask) { NoEarlierClose(me, first, ask, MAX_CHAIN_HOPS - 1); }
  }

  // ----- a downstream cycle that is too long -----

  const LONG_CYCLE: nat := 200

  /** Transactions 2 to 201 wait for each other in a circle; nobody waits for transaction 1. */
  function InLongCycle(hop: nat, w: Waiter): Option<Waiter> {
    Some(Waiter(if w.ts > LONG_CYCLE then 2 else w.ts + 1, 0))
  }

  lemma {:induction false} LongCycleAt(i: nat)
    requires i < MAX_CHAIN_HOPS
    ensures At(Waiter(2, 0), InLongCycle, i) == Some(Waiter(i + 2, 0))
  {
    if i == 0 {
    } else {
      LongCycleAt(i - 1);
    }
  }

  /** A caller behind such a cycle gets no "no deadlock": the walk runs into its own length assertion. */
  lemma LongDownstreamCycleOverruns()
    ensures Expected(1, Waiter(2, 0), InLongCycle) == TooLong
  {
    var first := Waiter(2, 0);
    forall i: nat | i < MAX_CHAIN_HOPS ensures At(first, InLongCycle, i) == Some(Waiter(i + 2, 0)) { LongCycleAt(i); }
    assert Simple(1, first, InLongCycle, MAX_CHAIN_HOPS - 1);
    assert Overruns(1, first, InLongCycle);
    NoEarlierClose(1, first, InLongCycle, MAX_CHAIN_HOPS - 1);
  }
}
