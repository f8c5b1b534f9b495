/**
 One run from the empty cluster to a handoff across two nodes, with another
 waiter behind the successor on the successor's node, so that what is proved
 about every run is not proved about none.
 */
module HandoffExample {
  import opened Options
  import opened LockWaitTypes
  import opened Handoff
  import opened HandoffTheorems

  /** A run goes on with any enabled step. */
  lemma ReachableStep(s: State, e: Step)
    requires Reachable(s) && Enabled(s, e)
    ensures Reachable(Apply(s, e))
  {
    var s0, steps :| Init(s0) && Legal(s0, steps) && After(s0, steps) == s;
    OneMore(s0, steps, e);
  }

  // ----- the same, step by step -----

  lemma Began(s: State, t: Ts, n: Node)
    requires Reachable(s) && CanBegin(s, t)
    ensures Reachable(DoBegin(s, t, n))
  { ReachableStep(s, Begin(t, n)); }

  lemma Locked(s: State, t: Ts, k: Key, n: Node)
    requires Reachable(s) && CanLock(s, t, k)
    ensures Reachable(DoLock(s, t, k, n))
  { ReachableStep(s, LockFree(t, k, n)); }

  lemma Seen(s: State, t: Ts, k: Key)
    requires Reachable(s) && CanSee(s, t, k)
    ensures Reachable(DoSee(s, t, k))
  { ReachableStep(s, See(t, k)); }

  lemma Enrolled(s: State, t: Ts)
    requires Reachable(s) && CanEnroll(s, t)
    ensures Reachable(DoEnroll(s, t))
  { ReachableStep(s, Enroll(t)); }

  lemma Registered(s: State, t: Ts)
    requires Reachable(s) && CanRegister(s, t)
    ensures Reachable(DoRegister(s, t))
  { ReachableStep(s, Registration(t)); }

  lemma Ended(s: State, t: Ts)
    requires Reachable(s) && CanEnd(s, t)
    ensures Reachable(DoEnd(s, t))
  { ReachableStep(s, End(t)); }

  lemma HasFrozen(s: State, k: Key)
    requires Reachable(s) && CanFreeze(s, k)
    ensures Reachable(DoFreeze(s, k))
  { ReachableStep(s, Freeze(k)); }

  lemma HasPopped(s: State, k: Key)
    requires Reachable(s) && CanPop(s, k)
    ensures Reachable(DoPop(s, k))
  { ReachableStep(s, Pop(k)); }

  lemma Delivered(s: State, m: Msg)
    requires Reachable(s) && CanDeliver(s, m)
    ensures Reachable(DoDeliver(s, m))
  { ReachableStep(s, Deliver(m)); }

  lemma Accepted(s: State, k: Key, h: Handoff)
    requires Reachable(s) && CanAccept(s, k, h)
    ensures Reachable(DoAccept(s, k, h))
  { ReachableStep(s, Accept(k, h)); }

  lemma Taken(s: State, k: Key, ok: bool)
    requires Reachable(s) && CanTake(s, k, ok)
    ensures Reachable(DoTake(s, k, ok))
  { ReachableStep(s, Take(k, ok)); }

  lemma HasInstalled(s: State, k: Key)
    requires Reachable(s) && CanInstall(s, k)
    ensures Reachable(DoInstall(s, k))
  { ReachableStep(s, Install(k)); }

  lemma HasPublished(s: State, k: Key)
    requires Reachable(s) && CanPublish(s, k)
    ensures Reachable(DoPublish(s, k))
  { ReachableStep(s, Publication(k)); }

  lemma WokeUp(s: State, t: Ts)
    requires Reachable(s) && CanWake(s, t)
    ensures Reachable(DoWake(s, t))
  { ReachableStep(s, Wake(t)); }

  const HOLDER: Ts := 1
  const WAITER: Ts := 2
  const THIRD: Ts := 3

  function Wish(): Waiter { Waiter(WAITER, 1) }
  function Behind(): Waiter { Waiter(THIRD, 1) }
  function Transfer(): Handoff { Handoff(HOLDER, Wish(), 1, [Behind()]) }

  /** Transaction 1 on node 0 has locked `k`; transactions 2 and 3 on node 1 have begun. */
  function Held(k: Key): State {
    State(map[HOLDER := Txn(0, Running, {k}, {}), WAITER := Txn(1, Running, {}, {}), THIRD := Txn(1, Running, {}, {})],
          map[], map[k := Lock(HOLDER, 0, 0)], map[], {},
          map[], {Live(0, HOLDER), Live(1, WAITER), Live(1, THIRD)}, {}, {}, {})
  }

  /** Transaction 2 is queued behind transaction 1. */
  function OneWaits(k: Key): State {
    Held(k).(txns := Held(k).txns[WAITER := Txn(1, Queued(k), {}, {k})],
             waits := map[WAITER := FreshWait(k, HOLDER, 0)],
             queues := map[QId(0, k) := Queue(HOLDER, 0, [Wish()])], index := {Listed(0, HOLDER, k)})
  }

  /** Transaction 3 is queued behind transaction 2. */
  function Contended(k: Key): State {
    var s := OneWaits(k);
    s.(txns := s.txns[THIRD := Txn(1, Queued(k), {}, {k})],
       waits := s.waits[THIRD := FreshWait(k, HOLDER, 0)],
       queues := map[QId(0, k) := Queue(HOLDER, 0, [Wish(), Behind()])])
  }

  /** Transaction 1 is ending and has frozen the queue. */
  function FrozenAt(k: Key): State {
    var s := Contended(k);
    s.(txns := s.txns[HOLDER := Txn(0, Ending, {k}, {})],
       rels := map[k := Release(HOLDER, 0, [Wish(), Behind()], [], Frozen)],
       gone := {Gone(0, HOLDER, k)})
  }

  /** The unlock has asked node 1 to reserve transaction 2. */
  function Asked(k: Key): State {
    var s := FrozenAt(k);
    s.(queues := map[QId(0, k) := Queue(HOLDER, 1, [Behind()])],
       rels := map[k := Release(HOLDER, 0, [Wish(), Behind()], [], Asking(Transfer()))],
       msgs := {Reserve(k, Transfer())})
  }

  /** Transaction 2 is reserved on node 1, and transaction 3 is recorded as waiting for it. */
  function Answered(k: Key): State {
    var s := Asked(k);
    s.(waits := map[WAITER := Pin(FreshWait(k, HOLDER, 0), k, HOLDER, 1), THIRD := Relabelled(k)],
       queues := s.queues[QId(1, k) := Queue(WAITER, 1, [Behind()])],
       index := s.index + {Listed(1, WAITER, k)},
       msgs := {Reserve(k, Transfer()), Accepting(k, Transfer())},
       delivered := {Reserve(k, Transfer())})
  }

  function Relabelled(k: Key): WaitState { WaitState(k, WAITING, WAITER, 1, 1, Unreserved) }

  /** The answer has arrived and the old queue is gone. */
  function Pinned(k: Key): State {
    var s := Answered(k);
    s.(queues := map[QId(1, k) := Queue(WAITER, 1, [Behind()])],
       index := s.index - {Listed(0, HOLDER, k)},
       rels := map[k := Release(HOLDER, 0, [Wish(), Behind()], [], Ready(Transfer()))],
       msgs := s.msgs + {Reply(k, Transfer(), true)})
  }

  /** The tuple names transaction 2; its grant is on the way. */
  function Announced(k: Key): State {
    var s := Pinned(k);
    s.(txns := s.txns[HOLDER := Txn(0, Ending, {}, {})],
       locks := map[k := Lock(WAITER, 1, 1)],
       rels := map[],
       msgs := s.msgs + {Publish(k, HOLDER, Wish(), 1)})
  }

  /** The holder has begun and locked the tuple. */
  function HolderState(k: Key): State {
    var s0 := State(map[], map[], map[], map[], {}, map[], {}, {}, {}, {});
    DoLock(DoBegin(s0, HOLDER, 0), HOLDER, k, 0)
  }

  lemma HolderReachable(k: Key)
    ensures Reachable(HolderState(k))
  {
    var s0 := State(map[], map[], map[], map[], {}, map[], {}, {}, {}, {});
    assert Init(s0) && Legal(s0, []) && After(s0, []) == s0;
    Began(s0, HOLDER, 0);
    Locked(DoBegin(s0, HOLDER, 0), HOLDER, k, 0);
  }

  lemma HeldReachable(k: Key)
    ensures Reachable(Held(k))
  {
    HolderReachable(k);
    var s2 := HolderState(k);
    Began(s2, WAITER, 1);
    Began(DoBegin(s2, WAITER, 1), THIRD, 1);
    assert s2.txns[HOLDER].held == {k};
    assert DoBegin(DoBegin(s2, WAITER, 1), THIRD, 1) == Held(k);
  }

  /** A transaction that is running sees the lock of transaction 1 and registers for it. */
  lemma Queues(s: State, t: Ts, k: Key)
    requires Reachable(s) && CanSee(s, t, k)
    ensures CanEnroll(DoSee(s, t, k), t) && CanRegister(DoEnroll(DoSee(s, t, k), t), t)
    ensures Reachable(DoRegister(DoEnroll(DoSee(s, t, k), t), t))
  {
    Seen(s, t, k);
    Enrolled(DoSee(s, t, k), t);
    Registered(DoEnroll(DoSee(s, t, k), t), t);
  }

  lemma OneWaitsReachable(k: Key)
    ensures Reachable(OneWaits(k))
  {
    HeldReachable(k);
    Queues(Held(k), WAITER, k);
    var s := DoRegister(DoEnroll(DoSee(Held(k), WAITER, k), WAITER), WAITER);
    assert s.txns[WAITER].queuedOn == {k};
    assert s == OneWaits(k);
  }

  lemma ContendedReachable(k: Key)
    ensures Reachable(Contended(k))
  {
    OneWaitsReachable(k);
    Queues(OneWaits(k), THIRD, k);
    var s := DoRegister(DoEnroll(DoSee(OneWaits(k), THIRD, k), THIRD), THIRD);
    assert s.txns[THIRD].queuedOn == {k};
    assert [Wish()] + [Behind()] == [Wish(), Behind()] && !InQueue([Wish()], THIRD);
    assert s == Contended(k);
  }

  lemma FrozenReachable(k: Key)
    ensures Reachable(FrozenAt(k))
  {
    ContendedReachable(k);
    var s := Contended(k);
    Ended(s, HOLDER);
    var s1 := DoEnd(s, HOLDER);
    HasFrozen(s1, k);
    assert DoFreeze(s1, k).gone == {Gone(0, HOLDER, k)};
    assert DoFreeze(s1, k) == FrozenAt(k);
  }

  lemma AskedReachable(k: Key)
    ensures Reachable(Asked(k))
  {
    FrozenReachable(k);
    var s := FrozenAt(k);
    HasPopped(s, k);
    assert [Wish(), Behind()][1..] == [Behind()];
    assert Popped(s, k) == Some((Transfer(), Queue(HOLDER, 1, [Behind()])));
    assert DoPop(s, k) == Asked(k);
  }

  /** The only waiter behind the successor is on its own node, so no update is sent. */
  lemma NoUpdates(k: Key)
    ensures UpdateMsgs(k, Transfer()) == {} && OnNode(Transfer().tail, 1) == [THIRD]
  {
    assert [Behind()][1..] == [];
  }

  lemma AcceptedWaits(k: Key)
    ensures WAITER in Asked(k).waits && PinAndRelabel(Asked(k), k, Transfer()) == Answered(k).waits
  {
    NoUpdates(k);
  }

  lemma AcceptedReachable(k: Key)
    ensures Reachable(Answered(k))
  {
    AskedReachable(k);
    var s := Asked(k);
    var m := Reserve(k, Transfer());
    Delivered(s, m);
    NoUpdates(k);
    AcceptedWaits(k);
    assert [Behind()] + [] == Transfer().tail;
    assert DoDeliver(s, m).msgs == Answered(k).msgs;
    assert DoDeliver(s, m).queues == Answered(k).queues;
    assert DoDeliver(s, m) == Answered(k);
  }

  lemma RepliedReachable(k: Key)
    ensures CanAccept(Answered(k), k, Transfer()) && Reachable(DoAccept(Answered(k), k, Transfer()))
  {
    AcceptedReachable(k);
    NoUpdates(k);
    Accepted(Answered(k), k, Transfer());
  }

  lemma PinnedReachable(k: Key)
    ensures Reachable(Pinned(k))
  {
    RepliedReachable(k);
    var s2 := DoAccept(Answered(k), k, Transfer());
    Taken(s2, k, true);
    assert DoTake(s2, k, true).queues == Pinned(k).queues;
    assert DoTake(s2, k, true) == Pinned(k);
  }

  lemma AnnouncedReachable(k: Key)
    ensures Reachable(Announced(k))
  {
    PinnedReachable(k);
    var s := Pinned(k);
    HasInstalled(s, k);
    var s1 := DoInstall(s, k);
    HasPublished(s1, k);
    assert s1.txns[HOLDER].held == {};
    assert DoPublish(s1, k) == Announced(k);
  }

  /** The grant has arrived. */
  function GrantedAt(k: Key): State {
    var s := Announced(k);
    s.(waits := s.waits[WAITER := s.waits[WAITER].(flag := GRANTED)],
       delivered := s.delivered + {Publish(k, HOLDER, Wish(), 1)})
  }

  lemma GrantedReachable(k: Key)
    ensures Reachable(GrantedAt(k))
  {
    AnnouncedReachable(k);
    var m := Publish(k, HOLDER, Wish(), 1);
    Delivered(Announced(k), m);
    assert DoDeliver(Announced(k), m) == GrantedAt(k);
  }

  /** Transaction 2 has the tuple on node 1, and transaction 3 waits for it in the queue that came along. */
  predicate HandedOver(s: State, k: Key) {
    && Woken(s, WAITER, k) && k in s.locks && s.locks[k] == Lock(WAITER, 1, 1)
    && s.queues == map[QId(1, k) := Queue(WAITER, 1, [Behind()])]
    && THIRD in s.waits && s.waits[THIRD] == Relabelled(k)
  }

  /** Some run hands a lock to another node, wakes the waiter as its owner and brings the rest of the queue along. */
  lemma SomeRunHandsOver(k: Key)
    ensures exists s :: Reachable(s) && HandedOver(s, k)
  {
    GrantedReachable(k);
    WokeUp(GrantedAt(k), WAITER);
    assert HandedOver(DoWake(GrantedAt(k), WAITER), k);
  }
}
