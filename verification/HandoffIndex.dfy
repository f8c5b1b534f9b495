/**
 The reverse index of every node, edited as the code edits it, lists exactly
 the keys of the queues each holder owns there, in every run.
 */
module HandoffIndex {
  import opened LockWaitTypes
  import opened Handoff
  import opened HandoffInv
  import opened HandoffPin
  import opened HandoffTheorems

  /** Entry and queue ownership are the same thing. */
  predicate EntryOk(s: State, n: Node, t: Ts, k: Key) {
    Listed(n, t, k) in s.index <==> QId(n, k) in s.queues && s.queues[QId(n, k)].owner == t
  }

  ghost predicate IndexOk(s: State) {
    forall n, t, k :: EntryOk(s, n, t, k)
  }

  lemma RegisterIndex(s: State, t: Ts)
    requires IndexOk(s) && CanRegister(s, t)
    ensures IndexOk(DoRegister(s, t))
  {
    var s' := DoRegister(s, t);
    forall n, u, k ensures EntryOk(s', n, u, k) {
      assert EntryOk(s, n, u, k);
      assert Listed(n, u, k) in s.index ==> QId(n, k) in s.queues;
    }
  }

  /** Nobody hands a key to itself, so the entry made for the successor is not the one erased. */
  lemma PopIndex(s: State, j: Key)
    requires Inv(s) && IndexOk(s) && CanPop(s, j)
    ensures IndexOk(DoPop(s, j))
  {
    var s' := DoPop(s, j);
    assert KeyInv(s, j);
    assert RelOk(s, j);
    var r := s.rels[j];
    assert QId(r.node, j) in s.queues ==> QueueOk(s, r.node, j);
    if Popped(s, j).Some? {
      var h := Popped(s, j).value.0;
      if PinsHere(s, j, h) { PopPinnable(s, j, h); }
    }
    forall n, u, k ensures EntryOk(s', n, u, k) { assert EntryOk(s, n, u, k); }
  }

  lemma TakeIndex(s: State, j: Key, ok: bool)
    requires Inv(s) && IndexOk(s) && CanTake(s, j, ok)
    ensures IndexOk(DoTake(s, j, ok))
  {
    var s' := DoTake(s, j, ok);
    assert KeyInv(s, j);
    assert RelOk(s, j);
    assert QueueOk(s, s.rels[j].node, j);
    forall n, u, k ensures EntryOk(s', n, u, k) { assert EntryOk(s, n, u, k); }
  }

  /** A fresh reservation finds no queue of the key on the successor's node. */
  lemma ReserveIndex(s: State, j: Key, h: Handoff)
    requires Inv(s) && IndexOk(s) && Reserve(j, h) in s.msgs
    ensures IndexOk(DeliverReserve(s, j, h))
  {
    var s' := DeliverReserve(s, j, h);
    if PinsThere(s, j, h) {
      assert KeyInv(s, j);
      AcceptPinnable(s, j, h);
      QueueAdded(s, s', h.next.node, j, h.next.ts);
    } else {
      forall n, u, k ensures EntryOk(s', n, u, k) { assert EntryOk(s, n, u, k); }
    }
  }

  /** A queue where there was none, and its entry. */
  lemma QueueAdded(s: State, s': State, m: Node, j: Key, t: Ts)
    requires IndexOk(s) && QId(m, j) !in s.queues && QId(m, j) in s'.queues && s'.queues[QId(m, j)].owner == t
    requires s'.queues == s.queues[QId(m, j) := s'.queues[QId(m, j)]] && s'.index == s.index + {Listed(m, t, j)}
    ensures IndexOk(s')
  {
    forall n, u, k ensures EntryOk(s', n, u, k) { assert EntryOk(s, n, u, k); }
  }

  /** FinishTx erases the holder's whole entry, which is empty by then. */
  lemma FinishIndex(s: State, t: Ts, m: Node)
    requires Inv(s) && IndexOk(s) && CanFinish(s, t, m)
    ensures IndexOk(DoFinish(s, t, m)) && forall k :: Listed(m, t, k) !in s.index
  {
    forall k ensures Listed(m, t, k) !in s.index {
      assert EntryOk(s, m, t, k);
      if QId(m, k) in s.queues { FinishedOwnsNothing(s, t, m, k); }
    }
    forall n, u, k ensures EntryOk(DoFinish(s, t, m), n, u, k) { assert EntryOk(s, n, u, k); }
  }

  predicate EditsIndex(e: Step) {
    e.Registration? || e.Pop? || e.Take? || e.Finish? || (e.Deliver? && e.m.Reserve?)
  }

  lemma OtherStepsKeepIndex(s: State, e: Step)
    requires Enabled(s, e) && !EditsIndex(e)
    ensures Apply(s, e).index == s.index && Apply(s, e).queues == s.queues
  {
    if e.Deliver? && e.m.Publish? {
      assert DeliverPublish(s, e.m.key, e.m.source, e.m.next, e.m.version).queues == s.queues;
    }
  }

  lemma StepIndex(s: State, e: Step)
    requires Inv(s) && IndexOk(s) && Enabled(s, e)
    ensures IndexOk(Apply(s, e))
  {
    if !EditsIndex(e) {
      OtherStepsKeepIndex(s, e);
      forall n, t, k ensures EntryOk(Apply(s, e), n, t, k) { assert EntryOk(s, n, t, k); }
    } else {
      match e {
        case Registration(t) => RegisterIndex(s, t);
        case Pop(k) => PopIndex(s, k);
        case Take(k, ok) => TakeIndex(s, k, ok);
        case Finish(t, n) => FinishIndex(s, t, n);
        case Deliver(m) =>
          ReserveIndex(s, m.key, m.h);
          forall n, t, k ensures EntryOk(Apply(s, e), n, t, k) {
            assert EntryOk(DeliverReserve(s, m.key, m.h), n, t, k);
          }
      }
    }
  }

  lemma {:induction false} RunIndex(s: State, steps: seq<Step>)
    requires Inv(s) && IndexOk(s) && Legal(s, steps)
    ensures IndexOk(After(s, steps))
    decreases |steps|
  {
    if steps == [] {
    } else {
      StepKeeps(s, steps[0]);
      StepIndex(s, steps[0]);
      RunIndex(Apply(s, steps[0]), steps[1..]);
    }
  }

  /** In every reachable state the index of every node is exact. */
  lemma IndexIsExact(s: State)
    requires Reachable(s)
    ensures IndexOk(s)
  {
    var s0, steps :| Init(s0) && Legal(s0, steps) && After(s0, steps) == s;
    RunIndex(s0, steps);
  }

  /** FinishTx's residual check, which reads the index, never fires. */
  lemma FinishFindsNoResidual(s: State, t: Ts, n: Node, k: Key)
    requires Reachable(s) && CanFinish(s, t, n)
    ensures Listed(n, t, k) !in s.index
  {
    ReachableInv(s);
    IndexIsExact(s);
    FinishIndex(s, t, n);
  }
}
