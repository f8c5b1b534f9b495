/**
 The conditions the code checks at run time hold at every step of every run,
 and the unlock without waiters is the general unlock taken in one go.
 */
module HandoffChecks {
  import opened LockWaitTypes
  import opened Handoff
  import opened HandoffInv
  import opened HandoffIndex
  import opened HandoffPin
  import opened HandoffTheorems

  /** The queue of `k` at node `n`, if there is one, belongs to `o`. */
  predicate OwnedBy(s: State, n: Node, k: Key, o: Ts) {
    QId(n, k) in s.queues ==> s.queues[QId(n, k)].owner == o
  }

  /** What the code checks, fatally, while it performs step `e`. */
  ghost predicate Checks(s: State, e: Step)
    requires Enabled(s, e)
  {
    match e
    case Enroll(t) => t !in s.waits
    case Freeze(k) =>
      var l := s.locks[k];
      Gone(l.lockNode, l.owner, k) !in s.gone && OwnedBy(s, l.lockNode, k, l.owner)
    case Pop(k) =>
      var r := s.rels[k];
      OwnedBy(s, r.node, k, r.source) && (Popped(s, k).Some? ==> TailNames(s, k, Popped(s, k).value.0))
    case Take(k, ok) =>
      var r := s.rels[k];
      ok ==> QId(r.node, k) in s.queues && s.queues[QId(r.node, k)].owner == r.source
    case Install(k) => k in s.locks && s.locks[k].owner == s.rels[k].source
    case Publication(k) =>
      var h := s.rels[k].stage.h;
      h.next.ts in s.waits && s.waits[h.next.ts].flag == RESERVED
      && SameReservation(s.waits[h.next.ts], k, h.source, h.version)
    case Deliver(Reserve(k, h)) => PinsThere(s, k, h) ==> QId(h.next.node, k) !in s.queues && h.version > 0
    case Deliver(Publish(k, source, next, version)) =>
      next.ts in s.waits && SameReservation(s.waits[next.ts], k, source, version) ==> s.waits[next.ts].flag != WAITING
    case Finish(t, n) => forall k :: Listed(n, t, k) !in s.index
    case _ => true
  }

  /** Everyone behind the candidate who still waits records the unlocking holder. */
  predicate TailNames(s: State, k: Key, h: Handoff) {
    forall w :: w in h.tail && IsWaiting(s, w.ts, k) ==> s.waits[w.ts].holder == h.source
  }

  lemma PopChecks(s: State, k: Key)
    requires Inv(s) && CanPop(s, k)
    ensures Checks(s, Pop(k))
  {
    var r := s.rels[k];
    assert KeyInv(s, k);
    assert RelOk(s, k);
    if QId(r.node, k) in s.queues { assert QueueOk(s, r.node, k); }
    if Popped(s, k).Some? {
      var h := Popped(s, k).value.0;
      forall w | w in h.tail && IsWaiting(s, w.ts, k) ensures s.waits[w.ts].holder == h.source {
        assert QueuedOk(s, w.ts, k);
      }
    }
  }

  lemma UnlockChecks(s: State, e: Step)
    requires Inv(s) && Enabled(s, e) && (e.Freeze? || e.Take? || e.Install? || e.Publication?)
    ensures Checks(s, e)
  {
    var k := e.k;
    assert KeyInv(s, k);
    assert LockOk(s, k);
    if e.Freeze? {
      var l := s.locks[k];
      assert Gone(l.lockNode, l.owner, k) in s.gone ==> GoneOk(s, l.lockNode, l.owner, k);
      assert QId(l.lockNode, k) in s.queues ==> QueueOk(s, l.lockNode, k);
    } else {
      assert RelOk(s, k);
      if e.Take? { TakeChecks(s, k, e.ok); }
    }
  }

  lemma TakeChecks(s: State, k: Key, ok: bool)
    requires Base(s) && KeyInv(s, k) && CanTake(s, k, ok) && RelOk(s, k)
    ensures Checks(s, Take(k, ok))
  {
    assert QueueOk(s, s.rels[k].node, k);
  }

  lemma DeliveryChecks(s: State, m: Msg)
    requires Inv(s) && CanDeliver(s, m)
    ensures Checks(s, Deliver(m))
  {
    assert KeyInv(s, m.key);
    assert MsgOk(s, m);
    match m
    case Reserve(k, h) => if PinsThere(s, k, h) { AcceptPinnable(s, k, h); }
    case Publish(_, _, next, _) => assert LocalOk(s, next.ts);
    case _ =>
  }

  /** No run makes the code fail one of its own checks. */
  lemma ChecksHold(s: State, e: Step)
    requires Reachable(s) && Enabled(s, e)
    ensures Checks(s, e)
  {
    ReachableInv(s);
    match e
    case Enroll(t) => assert LocalOk(s, t);
    case Pop(k) => PopChecks(s, k);
    case Deliver(m) => DeliveryChecks(s, m);
    case Finish(t, n) =>
      forall k ensures Listed(n, t, k) !in s.index { FinishFindsNoResidual(s, t, n, k); }
    case _ => if e.Freeze? || e.Take? || e.Install? || e.Publication? { UnlockChecks(s, e); }
  }

  // ----- the unlock without waiters -----

  /** PrepareUncontendedUnlock succeeds: nobody is queued. */
  predicate CanUnlockAlone(s: State, k: Key) {
    CanFreeze(s, k) &&
    var q := QueueAt(s, s.locks[k].lockNode, k);
    q.Some? ==> q.value.waiters == []
  }

  /** One visit to the page: tombstone, empty queue dropped, tuple unlocked. */
  function UnlockAlone(s: State, k: Key): State
    requires CanUnlockAlone(s, k)
  {
    var l := s.locks[k];
    var x := s.txns[l.owner];
    s.(gone := s.gone + {Gone(l.lockNode, l.owner, k)},
       queues := s.queues - {QId(l.lockNode, k)},
       index := if QId(l.lockNode, k) in s.queues then s.index - {Listed(l.lockNode, l.owner, k)} else s.index,
       locks := s.locks - {k},
       txns := s.txns[l.owner := x.(held := x.held - {k})])
  }

  lemma ThreeSteps(s: State, a: Step, b: Step, c: Step)
    requires Enabled(s, a) && Enabled(Apply(s, a), b) && Enabled(Apply(Apply(s, a), b), c)
    ensures Legal(s, [a, b, c]) && After(s, [a, b, c]) == Apply(Apply(Apply(s, a), b), c)
  {
    var s1 := Apply(s, a);
    var s2 := Apply(s1, b);
    assert [a, b, c][1..] == [b, c] && [b, c][1..] == [c] && [c][1..] == [];
    assert Legal(s2, [c]);
    assert After(s2, [c]) == After(Apply(s2, c), []);
    assert Legal(s1, [b, c]) && After(s1, [b, c]) == Apply(s2, c);
  }

  lemma UnlockAloneState(s: State, k: Key)
    requires CanUnlockAlone(s, k)
    ensures CanPop(DoFreeze(s, k), k) && CanInstall(DoPop(DoFreeze(s, k), k), k)
    ensures DoInstall(DoPop(DoFreeze(s, k), k), k) == UnlockAlone(s, k)
  {
    assert Popped(DoFreeze(s, k), k).None?;
    assert DoInstall(DoPop(DoFreeze(s, k), k), k).rels == s.rels;
  }

  /** The fast path reaches exactly the state of freezing, finding nobody and unlocking. */
  lemma UnlockAloneIsAnUnlock(s: State, k: Key)
    requires Reachable(s) && CanUnlockAlone(s, k)
    ensures Legal(s, [Freeze(k), Pop(k), Install(k)])
    ensures After(s, [Freeze(k), Pop(k), Install(k)]) == UnlockAlone(s, k)
    ensures forall t :: !IsWaiting(s, t, k)
  {
    ReachableInv(s);
    assert KeyInv(s, k);
    assert forall t :: IsQueued(s, t, k) ==> QueuedOk(s, t, k);
    UnlockAloneState(s, k);
    ThreeSteps(s, Freeze(k), Pop(k), Install(k));
  }
}
