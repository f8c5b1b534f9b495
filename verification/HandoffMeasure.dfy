/** How far an unlock is from its end, in steps, and that it gets there. */
module HandoffMeasure {
  import opened Options
  import opened LockWaitTypes
  import opened Handoff
  import opened HandoffInv
  import opened HandoffUnlock
  import opened HandoffPin
  import opened HandoffReserve
  import opened HandoffTheorems
  import opened HandoffProgress

  // ----- the measure -----

  /** Messages of `k` that have not arrived yet. */
  function Awaited(s: State, k: Key): set<Msg> {
    set m | m in s.msgs && m.key == k && (m.Reserve? || m.Publish? || m.Update?) && m !in s.delivered
  }

  function StageRank(s: State, k: Key, st: Stage): nat {
    match st
    case Frozen => 7
    case Asking(h) => if Reserve(k, h) !in s.delivered then 6 else if !Replied(s, k, h) then 5 else 4
    case Updating(_) => 3
    case Ready(_) => 2
    case Empty => 2
    case Installed(_) => 1
  }

  /** Candidates that have not been refused. */
  function Untried(r: Release): nat {
    if |r.skipped| <= |r.before| then |r.before| - |r.skipped| else 0
  }

  function Rank(s: State, k: Key): nat
    requires k in s.rels
  {
    8 * Untried(s.rels[k]) + StageRank(s, k, s.rels[k].stage)
  }

  /** A bound on the steps and messages that the unlock of `k` still takes. */
  function Remaining(s: State, k: Key): nat
    requires k in s.rels
  {
    (|s.rels[k].before| + 2) * Rank(s, k) + |Awaited(s, k)|
  }

  // ----- counting messages -----

  function UpdatesUpTo(k: Key, h: Handoff, n: nat): set<Msg>
    requires n <= |h.tail|
  {
    if n == 0 then {} else UpdatesUpTo(k, h, n - 1) + {UpdateMsg(k, h, h.tail[n - 1].node)}
  }

  lemma {:induction false} FewUpdates(k: Key, h: Handoff, n: nat)
    requires n <= |h.tail|
    ensures |UpdatesUpTo(k, h, n)| <= n
    ensures forall i :: 0 <= i < n ==> UpdateMsg(k, h, h.tail[i].node) in UpdatesUpTo(k, h, n)
  {
    if n == 0 {
    } else {
      FewUpdates(k, h, n - 1);
    }
  }

  lemma Smaller(a: set<Msg>, b: set<Msg>)
    requires a <= b
    ensures |a| <= |b|
  {
    assert b == a + (b - a);
  }

  /** At most one update for each place of the tail. */
  lemma UpdatesBounded(k: Key, h: Handoff)
    ensures |UpdateMsgs(k, h)| <= |h.tail|
  {
    FewUpdates(k, h, |h.tail|);
    Smaller(UpdateMsgs(k, h), UpdatesUpTo(k, h, |h.tail|));
  }

  /** The updates of a reservation and nothing else are newly awaited. */
  lemma AwaitMore(s: State, s': State, k: Key, h: Handoff)
    requires s'.delivered >= s.delivered
    requires forall m :: m in s'.msgs && m !in s.msgs ==> m in UpdateMsgs(k, h) || m.Accepting? || m.Reply?
    ensures |Awaited(s', k)| <= |Awaited(s, k)| + |h.tail|
  {
    UpdatesBounded(k, h);
    Smaller(Awaited(s', k), Awaited(s, k) + UpdateMsgs(k, h));
  }

  lemma AwaitOneMore(s: State, s': State, k: Key, m: Msg)
    requires s'.delivered == s.delivered && s'.msgs == s.msgs + {m}
    ensures |Awaited(s', k)| <= |Awaited(s, k)| + 1
  {
    Smaller(Awaited(s', k), Awaited(s, k) + {m});
  }

  lemma AwaitOneLess(s: State, s': State, k: Key, m: Msg)
    requires m in Awaited(s, k) && s'.delivered == s.delivered + {m}
    requires forall a :: a in s'.msgs && a !in s.msgs ==> a.Accepting? || a.Reply?
    ensures |Awaited(s', k)| < |Awaited(s, k)|
  {
    Smaller(Awaited(s', k), Awaited(s, k) - {m});
  }

  /** A smaller rank outweighs the messages that come with it. */
  lemma Outweighs(w: nat, rank: nat, rank': nat, awaited: nat, awaited': nat)
    requires rank' < rank && awaited' < awaited + w
    ensures w * rank' + awaited' < w * rank + awaited
  {
    Times(w, rank' + 1, rank);
    assert w * (rank' + 1) == w * rank' + w;
  }

  lemma {:induction false} Times(w: nat, a: nat, b: nat)
    requires a <= b
    ensures w * a <= w * b
    decreases b
  {
    if a < b {
      Times(w, a, b - 1);
      assert w * b == w * (b - 1) + w;
    }
  }

  lemma Falls(s: State, s': State, k: Key)
    requires k in s.rels && k in s'.rels && s'.rels[k].before == s.rels[k].before
    requires Rank(s', k) < Rank(s, k) && |Awaited(s', k)| <= |Awaited(s, k)| + |s.rels[k].before|
    ensures Remaining(s', k) < Remaining(s, k)
  {
    Outweighs(|s.rels[k].before| + 2, Rank(s, k), Rank(s', k), |Awaited(s, k)|, |Awaited(s', k)|);
  }

  // ----- the unlock's own steps -----

  lemma PopNoneFalls(s: State, k: Key)
    requires Inv(s) && CanPop(s, k) && Popped(s, k).None?
    ensures Remaining(DoPop(s, k), k) < Remaining(s, k)
  {
    assert Awaited(DoPop(s, k), k) == Awaited(s, k);
    Falls(s, DoPop(s, k), k);
  }

  lemma PopFalls(s: State, k: Key, h: Handoff)
    requires Inv(s) && Pops(s, k, h)
    ensures Remaining(DoPop(s, k), k) < Remaining(s, k)
  {
    var s' := DoPop(s, k);
    assert KeyInv(s, k);
    HeadNext(s, k, h);
    assert |s.rels[k].before| == |s.rels[k].skipped| + 1 + |h.tail|;
    if h.next.node != s.rels[k].node {
      AwaitOneMore(s, s', k, Reserve(k, h));
    } else if !LocallyReservable(s, k, h) {
      assert Awaited(s', k) == Awaited(s, k);
    } else {
      AwaitMore(s, s', k, h);
    }
    Falls(s, s', k);
  }

  lemma TakeFalls(s: State, k: Key, ok: bool)
    requires Inv(s) && CanTake(s, k, ok)
    ensures Remaining(DoTake(s, k, ok), k) < Remaining(s, k)
  {
    var s' := DoTake(s, k, ok);
    assert KeyInv(s, k);
    assert RelOk(s, k);
    assert |s.rels[k].before| == |s.rels[k].skipped| + 1 + |s.rels[k].stage.h.tail|;
    assert Awaited(s', k) == Awaited(s, k);
    Falls(s, s', k);
  }

  lemma ShortFalls(s: State, e: Step, k: Key)
    requires Enabled(s, e) && k in s.rels && (e == Updated(k) || (e == Install(k) && s.rels[k].stage.Ready?))
    ensures k in Apply(s, e).rels && Remaining(Apply(s, e), k) < Remaining(s, k)
  {
    assert Awaited(Apply(s, e), k) == Awaited(s, k);
    Falls(s, Apply(s, e), k);
  }

  lemma AcceptFalls(s: State, k: Key, h: Handoff)
    requires Inv(s) && Heard(s) && CanAccept(s, k, h) && StageIs(s, k, Asking(h)) && !Replied(s, k, h)
    ensures Remaining(DoAccept(s, k, h), k) < Remaining(s, k)
  {
    assert KeyInv(s, k);
    assert MsgOk(s, Accepting(k, h));
    assert Reserve(k, h) in s.delivered;
    assert Awaited(DoAccept(s, k, h), k) == Awaited(s, k);
    Falls(s, DoAccept(s, k, h), k);
  }

  // ----- messages that arrive for the first time -----

  lemma ReserveFalls(s: State, k: Key, h: Handoff)
    requires Inv(s) && k in s.rels && Reserve(k, h) in s.msgs && Reserve(k, h) !in s.delivered
    ensures k in DoDeliver(s, Reserve(k, h)).rels && Remaining(DoDeliver(s, Reserve(k, h)), k) < Remaining(s, k)
  {
    var s' := DoDeliver(s, Reserve(k, h));
    assert KeyInv(s, k);
    if Outstanding(s, k, h) {
      assert RelOk(s, k);
      OutstandingFalls(s, k, h);
    } else if PinsThere(s, k, h) {
      AcceptPinnable(s, k, h);
    } else {
      RefusedReserve(s, k, h);
      assert s.msgs + Answer(s, k, h) == s.msgs;
      AwaitOneLess(s, s', k, Reserve(k, h));
    }
  }

  lemma OutstandingFalls(s: State, k: Key, h: Handoff)
    requires Inv(s) && Outstanding(s, k, h) && RelOk(s, k)
    requires Reserve(k, h) in s.msgs && Reserve(k, h) !in s.delivered
    ensures k in DoDeliver(s, Reserve(k, h)).rels && Remaining(DoDeliver(s, Reserve(k, h)), k) < Remaining(s, k)
  {
    var s' := DoDeliver(s, Reserve(k, h));
    assert s'.rels == s.rels && s'.delivered == s.delivered + {Reserve(k, h)};
    AwaitMore(s, s', k, h);
    assert |s.rels[k].before| == |s.rels[k].skipped| + 1 + |h.tail|;
    Falls(s, s', k);
  }

  lemma OtherFalls(s: State, m: Msg, k: Key)
    requires k in s.rels && CanDeliver(s, m) && !m.Reserve? && m.key == k && m !in s.delivered
    ensures k in DoDeliver(s, m).rels && Remaining(DoDeliver(s, m), k) < Remaining(s, k)
  {
    var s' := DoDeliver(s, m);
    assert s'.rels == s.rels && s'.msgs == s.msgs && s'.delivered == s.delivered + {m};
    AwaitOneLess(s, s', k, m);
  }

  /** Every step of an unlock brings it closer to its end, or ends it. */
  lemma MoveFalls(s: State, e: Step, k: Key)
    requires Inv(s) && Heard(s) && k in s.rels && Enabled(s, e) && IsMove(s, k, e)
    ensures k in Apply(s, e).rels ==> Remaining(Apply(s, e), k) < Remaining(s, k)
  {
    match e
    case Pop(_) =>
      if Popped(s, k).None? { PopNoneFalls(s, k); } else { PopFalls(s, k, Popped(s, k).value.0); }
    case Updated(_) => ShortFalls(s, e, k);
    case Take(_, ok) => TakeFalls(s, k, ok);
    case Install(_) => if s.rels[k].stage.Ready? { ShortFalls(s, e, k); }
    case Publication(_) =>
    case Accept(_, h) => AcceptFalls(s, k, h);
    case Deliver(m) => if m.Reserve? { ReserveFalls(s, k, m.h); } else { OtherFalls(s, m, k); }
  }

  // ----- all other steps -----

  /** Nothing of key `k` is sent, delivered, answered or unlocked. */
  ghost predicate Untouched(s: State, s': State, k: Key) {
    && k in s.rels && k in s'.rels && s'.rels[k] == s.rels[k]
    && (forall m: Msg :: m.key == k && !m.Accepting? && !m.Reply? ==> (m in s'.msgs <==> m in s.msgs))
    && (forall m: Msg :: m.key == k ==> (m in s'.delivered <==> m in s.delivered))
    && (s.rels[k].stage.Asking? ==> (Replied(s', k, s.rels[k].stage.h) <==> Replied(s, k, s.rels[k].stage.h)))
  }

  lemma SameRemaining(s: State, s': State, k: Key)
    requires Untouched(s, s', k)
    ensures Remaining(s', k) == Remaining(s, k)
  {
    assert Awaited(s', k) == Awaited(s, k);
  }

  lemma OtherDelivery(s: State, m: Msg, k: Key)
    requires Inv(s) && CanDeliver(s, m) && k in s.rels && (m.key != k || m in s.delivered)
    ensures Untouched(s, DoDeliver(s, m), k)
  {
    if m in s.delivered {
      RedeliveryIsNoOp(s, m);
    } else if m.Reserve? {
      OtherReserve(s, m.key, m.h, k);
    }
  }

  lemma OtherReserve(s: State, j: Key, h: Handoff, k: Key)
    requires Reserve(j, h) in s.msgs && k in s.rels && j != k
    ensures Untouched(s, DoDeliver(s, Reserve(j, h)), k)
  {
    var s' := DeliverReserve(s, j, h);
    assert forall m :: m in UpdateMsgs(j, h) ==> m.key == j;
    assert s'.rels == s.rels && s'.delivered == s.delivered;
    assert forall m :: m in s'.msgs ==> m in s.msgs || m.key == j;
    assert s.msgs <= s'.msgs;
  }

  lemma OtherPop(s: State, j: Key, k: Key)
    requires CanPop(s, j) && k in s.rels && j != k
    ensures Untouched(s, DoPop(s, j), k)
  {
    if Popped(s, j).Some? { assert forall m :: m in UpdateMsgs(j, Popped(s, j).value.0) ==> m.key == j; }
  }

  lemma OtherUnlock(s: State, e: Step, k: Key)
    requires Enabled(s, e) && k in s.rels && !IsMove(s, k, e)
    requires e.Updated? || e.Take? || e.Install? || e.Publication? || e.Accept? || e.Freeze?
    ensures Untouched(s, Apply(s, e), k)
  {
    if e.Accept? { OtherAccept(s, e.k, e.h, k); }
  }

  lemma OtherAccept(s: State, j: Key, h: Handoff, k: Key)
    requires CanAccept(s, j, h) && k in s.rels && !IsMove(s, k, Accept(j, h))
    ensures Untouched(s, DoAccept(s, j, h), k)
  {
  }

  lemma OtherTxn(s: State, e: Step, k: Key)
    requires Enabled(s, e) && k in s.rels && !IsUnlockStep(e) && !e.Deliver? && !e.Accept?
    ensures Untouched(s, Apply(s, e), k)
  {
    assert Apply(s, e).msgs == s.msgs && Apply(s, e).delivered == s.delivered && Apply(s, e).rels == s.rels;
  }

  /** No other step of anybody takes an unlock further from its end. */
  lemma NobodyHoldsItUp(s: State, e: Step, k: Key)
    requires Inv(s) && k in s.rels && Enabled(s, e) && !IsMove(s, k, e)
    ensures k in Apply(s, e).rels && Remaining(Apply(s, e), k) == Remaining(s, k)
  {
    if e.Deliver? { OtherDelivery(s, e.m, k); }
    else if e.Pop? { OtherPop(s, e.k, k); }
    else if IsUnlockStep(e) || e.Accept? { OtherUnlock(s, e, k); }
    else { OtherTxn(s, e, k); }
    SameRemaining(s, Apply(s, e), k);
  }

  // ----- over a run -----

  /** The unlock of `k` is under way all the time. */
  ghost predicate UnderWay(s: State, steps: seq<Step>, k: Key)
    requires Legal(s, steps)
    decreases |steps|
  {
    k in s.rels && (steps == [] || UnderWay(Apply(s, steps[0]), steps[1..], k))
  }

  /** How many steps of a run belong to the unlock of `k`. */
  function Moves(s: State, steps: seq<Step>, k: Key): nat
    requires Legal(s, steps)
    decreases |steps|
  {
    if steps == [] then 0
    else (if IsMove(s, k, steps[0]) then 1 else 0) + Moves(Apply(s, steps[0]), steps[1..], k)
  }

  lemma {:induction false} BoundedFrom(s: State, steps: seq<Step>, k: Key)
    requires Inv(s) && Heard(s) && Legal(s, steps) && UnderWay(s, steps, k)
    ensures k in After(s, steps).rels && Moves(s, steps, k) + Remaining(After(s, steps), k) <= Remaining(s, k)
    ensures CanMove(After(s, steps), k)
    decreases |steps|
  {
    if steps == [] {
      UnlockGoesOn(s, k);
    } else {
      var e := steps[0];
      if IsMove(s, k, e) { MoveFalls(s, e, k); } else { NobodyHoldsItUp(s, e, k); }
      StepKeeps(s, e);
      HeardOne(s, e);
      BoundedFrom(Apply(s, e), steps[1..], k);
    }
  }

  /**
   In any run, whatever else happens in it, an unlock takes at most as many steps
   and messages as its measure says; and as long as it is under way, one more is
   possible. So an unlock that is given its turn again and again comes to its end.
   */
  lemma UnlockIsBounded(s: State, steps: seq<Step>, k: Key)
    requires Reachable(s) && Legal(s, steps) && UnderWay(s, steps, k)
    ensures Moves(s, steps, k) <= Remaining(s, k) && CanMove(After(s, steps), k)
  {
    ReachableHeard(s);
    BoundedFrom(s, steps, k);
  }
}
