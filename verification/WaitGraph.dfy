/**
 The wait-for edges that the nodes record, against the locks in the tuples, in
 every reachable state: while handoffs, registrations and updates are under way
 an edge may be old, but then it leads nowhere.
 */
module WaitGraph {
  import opened Options
  import opened LockWaitTypes
  import opened Handoff
  import opened HandoffInv
  import opened HandoffPin
  import opened HandoffDeliver
  import opened HandoffReserve
  import opened HandoffTheorems

  /** What node `w.node` answers about transaction `w.ts`. */
  function Edge(s: State, w: Waiter): Option<Waiter> {
    if Home(s, w.ts, w.node) && w.ts in s.waits && s.waits[w.ts].flag == WAITING
    then Some(Waiter(s.waits[w.ts].holder, s.waits[w.ts].holderNode))
    else None
  }

  /**
   The transaction that keeps `t` waiting, read from the tuple itself: `t` is
   queued for the tuple, or is registering for it with a holder it has read that
   the tuple still names. A registration whose holder has gone will re-read.
   */
  function BlockedBy(s: State, t: Ts): Option<Ts> {
    if t !in s.txns then None
    else match s.txns[t].phase
      case Queued(k) => if IsWaiting(s, t, k) && k in s.locks then Some(s.locks[k].owner) else None
      case Registering(k, l) => if k in s.locks && s.locks[k].owner == l.owner then Some(l.owner) else None
      case _ => None
  }

  // ----- a wait that was told to re-read -----

  predicate IsTurned(s: State, t: Ts) {
    t in s.txns && s.txns[t].phase.Turned? && t in s.waits
  }

  /** Its record names a transaction that is on its way out. */
  predicate TurnedOk(s: State, t: Ts)
    requires IsTurned(s, t)
  {
    IsEnding(s, s.waits[t].holder) && Home(s, s.waits[t].holder, s.waits[t].holderNode)
  }

  ghost predicate AllTurnedOk(s: State) {
    forall t {:trigger TurnedOk(s, t)} :: IsTurned(s, t) ==> TurnedOk(s, t)
  }

  lemma EndingStays(s: State, e: Step, t: Ts)
    requires Enabled(s, e) && t in s.txns && !e.Deliver? && !e.Pop?
    ensures t in Apply(s, e).txns && Apply(s, e).txns[t].home == s.txns[t].home
    ensures IsEnding(s, t) ==> IsEnding(Apply(s, e), t)
  {}

  /** Homes never change, and a transaction that is ending stays so. */
  lemma OnceEnding(s: State, e: Step, t: Ts)
    requires Enabled(s, e) && t in s.txns
    ensures t in Apply(s, e).txns && Apply(s, e).txns[t].home == s.txns[t].home
    ensures IsEnding(s, t) ==> IsEnding(Apply(s, e), t)
  {
    if e.Deliver? { DeliveryKeepsTxns(s, e.m); }
    else if e.Pop? { PopKeepsTxns(s, e.k); }
    else { EndingStays(s, e, t); }
  }

  lemma DeliveryKeepsTxns(s: State, m: Msg)
    requires CanDeliver(s, m)
    ensures DoDeliver(s, m).txns == s.txns && DoDeliver(s, m).locks == s.locks
  {
    if m.Publish? { assert DeliverPublish(s, m.key, m.source, m.next, m.version).txns == s.txns; }
    if m.Reserve? { assert DeliverReserve(s, m.key, m.h).txns == s.txns; }
  }

  lemma PopKeepsTxns(s: State, k: Key)
    requires CanPop(s, k)
    ensures DoPop(s, k).txns == s.txns && DoPop(s, k).locks == s.locks
  {}

  /** A registration is told to re-read only if the holder it names is on its way out. */
  lemma TurnedAwayFromEnding(s: State, t: Ts)
    requires Inv(s) && CanRegister(s, t) && RegisterAnswer(s, t).1
    ensures var l := s.txns[t].phase.lock;
      IsEnding(s, l.owner) && Home(s, l.owner, l.holderNode)
  {
    var l := s.txns[t].phase.lock;
    var k := s.txns[t].phase.key;
    assert KeyInv(s, k);
    assert HasSeen(s, t, k);
    assert Snapshot(s, k, l);
    if k in s.locks && s.locks[k] == l {
      assert LockOk(s, k);
      assert Gone(l.lockNode, l.owner, k) in s.gone ==> GoneOk(s, l.lockNode, l.owner, k);
      assert QId(l.lockNode, k) in s.queues ==> QueueOk(s, l.lockNode, k);
      assert k in s.rels ==> RelOk(s, k);
    }
  }

  /** A registration does not wait for the tuple's owner if it has read another one: it will be told to re-read. */
  lemma StaleIsTurnedAway(s: State, t: Ts)
    requires Inv(s) && CanRegister(s, t) && BlockedBy(s, t) == None
    ensures RegisterAnswer(s, t).1
  {
    assert KeyInv(s, s.txns[t].phase.key);
    assert HasSeen(s, t, s.txns[t].phase.key);
    assert Snapshot(s, s.txns[t].phase.key, s.txns[t].phase.lock);
  }

  /** Messages and pins leave the record of a turned wait alone. */
  lemma TurnedUntouched(s: State, e: Step, t: Ts)
    requires Inv(s) && Enabled(s, e) && (e.Deliver? || e.Pop?) && IsTurned(s, t)
    ensures t in Apply(s, e).waits && Apply(s, e).waits[t] == s.waits[t]
  {
    if e.Pop? {
      assert KeyInv(s, e.k);
      if Popped(s, e.k).Some? {
        var h := Popped(s, e.k).value.0;
        if PinsHere(s, e.k, h) {
          PopPinnable(s, e.k, h);
          PopPins(s, e.k, h);
          PinEdges(s, DoPop(s, e.k), e.k, h, t);
        }
      }
    } else {
      TurnedMessage(s, e.m, t);
    }
  }

  lemma TurnedMessage(s: State, m: Msg, t: Ts)
    requires Inv(s) && CanDeliver(s, m) && IsTurned(s, t)
    ensures t in DoDeliver(s, m).waits && DoDeliver(s, m).waits[t] == s.waits[t]
  {
    assert KeyInv(s, m.key);
    if m.Publish? { PublishFacts(s, m); }
    else if m.Update? { UpdateFacts(s, m, t); }
    else if PinsThere(s, m.key, m.h) {
      AcceptPinnable(s, m.key, m.h);
      AcceptPins(s, m.key, m.h);
      PinEdges(s, DeliverReserve(s, m.key, m.h), m.key, m.h, t);
    } else {
      RefusedReserve(s, m.key, m.h);
    }
  }

  /** A turned wait was turned by this step, or was so before with the same record. */
  lemma TurnedBefore(s: State, e: Step, t: Ts)
    requires Enabled(s, e) && !e.Deliver? && !e.Pop? && IsTurned(Apply(s, e), t) && e != Registration(t)
    ensures IsTurned(s, t) && Apply(s, e).waits[t] == s.waits[t]
  {}

  lemma StepTurned(s: State, e: Step)
    requires Inv(s) && AllTurnedOk(s) && Enabled(s, e)
    ensures AllTurnedOk(Apply(s, e))
  {
    var s' := Apply(s, e);
    forall t | IsTurned(s', t) ensures TurnedOk(s', t) {
      if e == Registration(t) {
        TurnedAwayFromEnding(s, t);
        assert LocalOk(s, t);
        OnceEnding(s, e, s.waits[t].holder);
      } else {
        if e.Deliver? { DeliveryKeepsTxns(s, e.m); assert LocalOk(s, t); TurnedUntouched(s, e, t); }
        else if e.Pop? { PopKeepsTxns(s, e.k); assert LocalOk(s, t); TurnedUntouched(s, e, t); }
        else { TurnedBefore(s, e, t); }
        assert TurnedOk(s, t);
        OnceEnding(s, e, s.waits[t].holder);
      }
    }
  }

  lemma {:induction false} RunTurned(s: State, steps: seq<Step>)
    requires Inv(s) && AllTurnedOk(s) && Legal(s, steps)
    ensures AllTurnedOk(After(s, steps))
    decreases |steps|
  {
    if steps == [] {
    } else {
      StepKeeps(s, steps[0]);
      StepTurned(s, steps[0]);
      RunTurned(Apply(s, steps[0]), steps[1..]);
    }
  }

  lemma ReachableTurned(s: State)
    requires Reachable(s)
    ensures AllTurnedOk(s)
  {
    var s0, steps :| Init(s0) && Legal(s0, steps) && After(s0, steps) == s;
    RunTurned(s0, steps);
  }

  // ----- edges -----

  /** An edge always names the node on which its target can be asked. */
  lemma EdgeHome(s: State, w: Waiter)
    requires Inv(s) && AllTurnedOk(s) && Edge(s, w).Some?
    ensures Home(s, Edge(s, w).value.ts, Edge(s, w).value.node)
  {
    var t := w.ts;
    assert LocalOk(s, t);
    var k := s.txns[t].phase.key;
    assert KeyInv(s, k);
    if s.txns[t].phase.Queued? {
      assert QueuedOk(s, t, k);
      assert LockOk(s, k);
      assert k in s.rels ==> RelOk(s, k);
    } else if s.txns[t].phase.Registering? {
      assert HasSeen(s, t, k);
      assert Snapshot(s, k, s.txns[t].phase.lock);
    } else {
      assert TurnedOk(s, t);
    }
  }

  /** An edge whose target answers in turn is the real one. */
  lemma AnsweredEdge(s: State, w: Waiter)
    requires Inv(s) && AllTurnedOk(s) && Edge(s, w).Some? && Edge(s, Edge(s, w).value).Some?
    ensures BlockedBy(s, w.ts) == Some(Edge(s, w).value.ts)
  {
    var t, v := w.ts, Edge(s, w).value.ts;
    assert LocalOk(s, t) && LocalOk(s, v);
    var k := s.txns[t].phase.key;
    assert KeyInv(s, k) && (IsTurned(s, t) ==> TurnedOk(s, t));
    if s.txns[t].phase.Queued? {
      assert QueuedOk(s, t, k);
      assert k in s.rels ==> RelOk(s, k);
    } else if s.txns[t].phase.Registering? {
      assert HasSeen(s, t, k);
      assert Snapshot(s, k, s.txns[t].phase.lock);
    }
  }

  /** A tuple whose owner is blocked is not being unlocked. */
  lemma BlockedOwner(s: State, k: Key)
    requires Inv(s) && k in s.locks && BlockedBy(s, s.locks[k].owner).Some?
    ensures k !in s.rels
  {
    assert KeyInv(s, k);
    assert LocalOk(s, s.locks[k].owner);
    assert k in s.rels ==> RelOk(s, k);
  }

  /** Whoever is blocked by somebody blocked records exactly that. */
  lemma RealEdge(s: State, t: Ts)
    requires Inv(s) && BlockedBy(s, t).Some? && BlockedBy(s, BlockedBy(s, t).value).Some?
    ensures var v := BlockedBy(s, t).value;
      v in s.txns && Edge(s, Waiter(t, s.txns[t].home)) == Some(Waiter(v, s.txns[v].home))
  {
    var k := s.txns[t].phase.key;
    var v := BlockedBy(s, t).value;
    assert LocalOk(s, t);
    assert KeyInv(s, k);
    if s.txns[t].phase.Queued? {
      BlockedOwner(s, k);
      assert QueuedOk(s, t, k);
      assert LockOk(s, k);
    } else {
      assert HasSeen(s, t, k);
      assert Snapshot(s, k, s.txns[t].phase.lock);
    }
  }

  /** Nobody is blocked by itself. */
  lemma NotByItself(s: State, t: Ts)
    requires Inv(s) && BlockedBy(s, t).Some?
    ensures BlockedBy(s, t).value != t
  {
    var k := s.txns[t].phase.key;
    assert LocalOk(s, t);
    assert KeyInv(s, k);
    assert LockOk(s, k);
    if s.txns[t].phase.Queued? {
      assert QueuedOk(s, t, k);
      assert k in s.rels ==> RelOk(s, k);
    }
  }
}
