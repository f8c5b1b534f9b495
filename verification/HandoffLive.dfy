/**
 What the progress of unlocks means for transactions: from every state of every
 run a chosen successor can wake up as the owner, and any transaction can end,
 give everything up and finish.
 */
module HandoffLive {
  import opened Options
  import opened LockWaitTypes
  import opened Handoff
  import opened HandoffInv
  import opened HandoffTheorems
  import opened HandoffProgress
  import opened HandoffMeasure

  // ----- nobody is stuck -----

  /** Whatever a transaction finds at a tuple, it can go on. */
  ghost predicate CanLookAt(s: State, t: Ts, k: Key) {
    if k !in s.locks then forall n :: Enabled(s, LockFree(t, k, n))
    else if s.locks[k].owner == t then Enabled(s, Own(t, k))
    else Enabled(s, See(t, k))
  }

  /** A grant of the tuple is on its way. */
  ghost predicate GrantComes(s: State, t: Ts, k: Key) {
    exists m: Msg :: m.Publish? && m.key == k && m.next.ts == t && m !in s.delivered && Enabled(s, Deliver(m))
  }

  lemma LooksOn(s: State, t: Ts, k: Key)
    requires CanLook(s, t, k)
    ensures CanLookAt(s, t, k)
  {
  }

  /** In every state of every run, every transaction has a next step, or the one it is waiting for is under way. */
  lemma NobodyIsStuck(s: State, t: Ts)
    requires Reachable(s) && t in s.txns
    ensures match s.txns[t].phase
      case Running => Enabled(s, End(t)) && forall k :: CanLookAt(s, t, k)
      case Retry(k) => CanLookAt(s, t, k)
      case Saw(_, _) => Enabled(s, Enroll(t))
      case Registering(_, _) => Enabled(s, Registration(t))
      case Turned(_) => Enabled(s, Turn(t))
      case Queued(k) =>
        t in s.waits &&
        (match s.waits[t].flag
         case WAITING => Enabled(s, Victim(t))
         case RESERVED => if k in s.rels then CanMove(s, k) else GrantComes(s, t, k)
         case GRANTED => Enabled(s, Wake(t)))
      case Ending => forall k :: k in s.txns[t].held ==> Enabled(s, Freeze(k)) || (k in s.rels && CanMove(s, k))
  {
    ReachableInv(s);
    assert LocalOk(s, t);
    if s.txns[t].phase == Running { forall k ensures CanLookAt(s, t, k) { LooksOn(s, t, k); } }
    if s.txns[t].phase.Retry? { LooksOn(s, t, s.txns[t].phase.key); }
    if s.txns[t].phase.Queued? && s.waits[t].flag == RESERVED { QueuedGoesOn(s, t, s.txns[t].phase.key); }
    if s.txns[t].phase == Ending {
      forall k | k in s.txns[t].held ensures Enabled(s, Freeze(k)) || (k in s.rels && CanMove(s, k)) {
        HeldIsLocked(s, t, k);
        if k in s.rels { UnlockGoesOn(s, k); }
      }
    }
  }

  lemma HeldIsLocked(s: State, t: Ts, k: Key)
    requires Inv(s) && t in s.txns && k in s.txns[t].held
    ensures k in s.locks && s.locks[k].owner == t
  {
    assert KeyInv(s, k);
    assert OwnOk(s, t, k);
  }

  lemma QueuedGoesOn(s: State, t: Ts, k: Key)
    requires Inv(s) && IsQueued(s, t, k) && s.waits[t].flag == RESERVED
    ensures if k in s.rels then CanMove(s, k) else GrantComes(s, t, k)
  {
    assert KeyInv(s, k);
    assert QueuedOk(s, t, k);
    if k in s.rels {
      UnlockGoesOn(s, k);
    } else {
      var r := s.waits[t].reservation;
      var m := Publish(k, r.source, Waiter(t, s.txns[t].home), r.version);
      assert MsgOk(s, m);
      assert m !in s.delivered && Enabled(s, Deliver(m));
    }
  }

  // ----- an unlock comes to its end -----

  /** Some run leads from `s` to `s'`. */
  ghost predicate Leads(s: State, s': State) {
    exists steps :: Legal(s, steps) && After(s, steps) == s'
  }

  lemma Advance(s0: State, s: State, e: Step) returns (s': State)
    requires Leads(s0, s) && Inv(s) && Heard(s) && Enabled(s, e)
    ensures s' == Apply(s, e) && Leads(s0, s') && Inv(s') && Heard(s')
  {
    var steps :| Legal(s0, steps) && After(s0, steps) == s;
    OneMore(s0, steps, e);
    StepKeeps(s, e);
    HeardOne(s, e);
    s' := Apply(s, e);
  }

  /** What the steps of an unlock of `k` leave alone. */
  ghost predicate Carried(s: State, s': State, k: Key) {
    && s'.txns.Keys == s.txns.Keys && s'.rels - {k} == s.rels - {k}
    && (forall t :: t in s.txns ==> s'.txns[t].phase == s.txns[t].phase && s'.txns[t].held <= s.txns[t].held)
    && (forall t :: Chosen(s, t, k) ==> Chosen(s', t, k))
  }

  /** The tuple is out of the hands of the transaction that unlocked it. */
  predicate GivenUp(s: State, k: Key, source: Ts) {
    && k !in s.rels && (k in s.locks ==> s.locks[k].owner != source)
    && (source in s.txns ==> k !in s.txns[source].held)
  }

  lemma DeliveryLeaves(s: State, m: Msg)
    requires CanDeliver(s, m)
    ensures DoDeliver(s, m).txns == s.txns && DoDeliver(s, m).rels == s.rels
  {
    if m.Reserve? {
      var s' := DeliverReserve(s, m.key, m.h);
      assert s'.txns == s.txns && s'.rels == s.rels;
    }
  }

  lemma MoveTxns(s: State, e: Step, k: Key)
    requires Enabled(s, e) && k in s.rels && IsMove(s, k, e)
    ensures var s' := Apply(s, e);
      && s'.txns.Keys == s.txns.Keys && s'.rels - {k} == s.rels - {k}
      && (forall t :: t in s.txns ==> s'.txns[t].phase == s.txns[t].phase && s'.txns[t].held <= s.txns[t].held)
      && (k in s'.rels ==> s'.rels[k].source == s.rels[k].source)
  {
    if e.Deliver? { DeliveryLeaves(s, e.m); }
  }

  lemma MoveCarries(s: State, e: Step, k: Key)
    requires Inv(s) && Enabled(s, e) && k in s.rels && IsMove(s, k, e)
    ensures Carried(s, Apply(s, e), k)
  {
    MoveTxns(s, e, k);
    forall t | Chosen(s, t, k) ensures Chosen(Apply(s, e), t, k) { EpisodeProgress(s, e, t, k); }
  }

  lemma LastMove(s: State, e: Step, k: Key)
    requires Inv(s) && Enabled(s, e) && k in s.rels && IsMove(s, k, e) && k !in Apply(s, e).rels
    ensures GivenUp(Apply(s, e), k, s.rels[k].source)
  {
    assert KeyInv(s, k);
    assert RelOk(s, k);
    if e.Deliver? { DeliveryLeaves(s, e.m); }
    if e.Publication? { assert OwnOk(s, s.rels[k].source, k); }
  }

  lemma {:induction false} FinishUnlock(s0: State, s: State, k: Key) returns (s': State)
    requires Leads(s0, s) && Inv(s) && Heard(s) && k in s.rels
    ensures Leads(s0, s') && Inv(s') && Heard(s') && Carried(s, s', k) && GivenUp(s', k, s.rels[k].source)
    decreases Remaining(s, k)
  {
    UnlockGoesOn(s, k);
    var e :| Enabled(s, e) && IsMove(s, k, e);
    s' := Advance(s0, s, e);
    MoveCarries(s, e, k);
    if k in s'.rels {
      var s1 := s';
      MoveFalls(s, e, k);
      MoveTxns(s, e, k);
      s' := FinishUnlock(s0, s1, k);
      CarriedOn(s, s1, s', k);
    } else {
      LastMove(s, e, k);
    }
  }

  lemma CarriedOn(s: State, s1: State, s2: State, k: Key)
    requires Carried(s, s1, k) && Carried(s1, s2, k)
    ensures Carried(s, s2, k)
  {
  }

  /** From every state of every run, an unlock under way can come to its end, and the tuple is out of its hands. */
  lemma EveryUnlockEnds(s: State, k: Key)
    requires Reachable(s) && k in s.rels
    ensures exists s' :: Leads(s, s') && GivenUp(s', k, s.rels[k].source)
  {
    ReachableHeard(s);
    assert Legal(s, []) && After(s, []) == s;
    var s1 := FinishUnlock(s, s, k);
  }

  // ----- a chosen successor wakes up -----

  /** From every state of every run, a chosen successor can wake up and find the tuple in its own name. */
  lemma EveryChosenWakes(s: State, t: Ts, k: Key)
    requires Reachable(s) && Chosen(s, t, k)
    ensures exists s' :: Leads(s, s') && Woken(s', t, k)
  {
    ReachableHeard(s);
    assert Legal(s, []) && After(s, []) == s;
    var s1 := s;
    if k in s.rels { s1 := FinishUnlock(s, s, k); }
    if s1.waits[t].flag == RESERVED { s1 := GrantArrives(s, s1, t, k); }
    s1 := WakeUp(s, s1, t, k);
  }

  lemma WakeUp(s0: State, s: State, t: Ts, k: Key) returns (s': State)
    requires Leads(s0, s) && Inv(s) && Heard(s) && IsQueued(s, t, k) && s.waits[t].flag == GRANTED
    ensures Leads(s0, s') && Woken(s', t, k)
  {
    assert KeyInv(s, k);
    assert QueuedOk(s, t, k);
    s' := Advance(s0, s, Wake(t));
  }

  lemma GrantArrives(s0: State, s: State, t: Ts, k: Key) returns (s': State)
    requires Leads(s0, s) && Inv(s) && Heard(s) && IsQueued(s, t, k) && s.waits[t].flag == RESERVED && k !in s.rels
    ensures Leads(s0, s') && Inv(s') && Heard(s') && IsQueued(s', t, k) && s'.waits[t].flag == GRANTED
    ensures k !in s'.rels
  {
    assert KeyInv(s, k);
    assert QueuedOk(s, t, k);
    var r := s.waits[t].reservation;
    var m := Publish(k, r.source, Waiter(t, s.txns[t].home), r.version);
    assert MsgOk(s, m);
    s' := Advance(s0, s, Deliver(m));
  }

  // ----- an ending transaction finishes -----

  /** The tuples a transaction still has to give up. */
  function ToGiveUp(s: State, t: Ts): set<Key>
    requires t in s.txns
  {
    s.txns[t].held + (set k | k in s.rels && s.rels[k].source == t)
  }

  lemma UnlockIsOwn(s: State, t: Ts, k: Key)
    requires Inv(s) && IsEnding(s, t) && k in s.txns[t].held
    ensures k in s.rels ==> s.rels[k].source == t
    ensures k !in s.rels ==> Enabled(s, Freeze(k))
  {
    HeldIsLocked(s, t, k);
    assert KeyInv(s, k);
    if k in s.rels { assert RelOk(s, k); }
  }

  lemma FewerKeys(s: State, s': State, t: Ts, k: Key)
    requires t in s.txns && k in ToGiveUp(s, t) && Carried(s, s', k) && GivenUp(s', k, t)
    ensures t in s'.txns && |ToGiveUp(s', t)| < |ToGiveUp(s, t)|
  {
    var rest := ToGiveUp(s, t) - {k};
    forall j | j in ToGiveUp(s', t) ensures j in rest {
      if j !in s'.txns[t].held {
        assert j in s'.rels - {k};
        assert j in s.rels - {k} && (s'.rels - {k})[j] == (s.rels - {k})[j];
      }
    }
    assert ToGiveUp(s', t) <= rest;
    assert rest == ToGiveUp(s', t) + (rest - ToGiveUp(s', t));
  }

  /** The unlock is under way, or begins. */
  lemma StartUnlock(s0: State, s: State, t: Ts, k: Key) returns (s': State)
    requires Leads(s0, s) && Inv(s) && Heard(s) && IsEnding(s, t) && k in ToGiveUp(s, t)
    ensures Leads(s0, s') && Inv(s') && Heard(s') && IsEnding(s', t) && ToGiveUp(s', t) == ToGiveUp(s, t)
    ensures k in s'.rels && s'.rels[k].source == t
  {
    s' := s;
    if k in s.txns[t].held { UnlockIsOwn(s, t, k); }
    if k !in s.rels {
      HeldIsLocked(s, t, k);
      s' := Advance(s0, s, Freeze(k));
      assert ToGiveUp(s', t) == ToGiveUp(s, t);
    }
  }

  lemma {:induction false} GiveAllUp(s0: State, s: State, t: Ts) returns (s': State)
    requires Leads(s0, s) && Inv(s) && Heard(s) && IsEnding(s, t)
    ensures Leads(s0, s') && Inv(s') && IsEnding(s', t) && ToGiveUp(s', t) == {}
    decreases |ToGiveUp(s, t)|
  {
    if ToGiveUp(s, t) == {} {
      s' := s;
    } else {
      var k :| k in ToGiveUp(s, t);
      var s1 := StartUnlock(s0, s, t, k);
      var s2 := FinishUnlock(s0, s1, k);
      FewerKeys(s1, s2, t, k);
      s' := GiveAllUp(s0, s2, t);
    }
  }

  // ----- every transaction can end -----

  lemma Ends(s0: State, s: State, t: Ts) returns (s': State)
    requires Leads(s0, s) && Inv(s) && Heard(s) && t in s.txns && s.txns[t].phase == Running
    ensures Leads(s0, s') && Inv(s') && Heard(s') && IsEnding(s', t)
  {
    s' := Advance(s0, s, End(t));
  }

  /** A tuple with an owner that nobody unlocks takes a registration. */
  lemma FreshRegistration(s: State, t: Ts, k: Key)
    requires Inv(s) && CanRegister(s, t) && s.txns[t].phase.key == k && k in s.locks && k !in s.rels
    requires s.txns[t].phase.lock == s.locks[k]
    ensures !RegisterAnswer(s, t).1
  {
    var l := s.locks[k];
    assert KeyInv(s, k);
    assert LockOk(s, k);
    assert GonePart(s, k);
    if QId(l.lockNode, k) in s.queues { assert QueueOk(s, l.lockNode, k); }
  }

  /** A transaction that has seen a lock registers, waits and is rolled back. */
  lemma EndFromSaw(s0: State, s: State, t: Ts, k: Key) returns (s': State)
    requires Leads(s0, s) && Inv(s) && Heard(s) && t in s.txns && k in s.locks && k !in s.rels
    requires s.txns[t].phase == Saw(k, s.locks[k])
    ensures Leads(s0, s') && Inv(s') && Heard(s') && IsEnding(s', t)
  {
    var s1 := Advance(s0, s, Enroll(t));
    FreshRegistration(s1, t, k);
    s' := RegisterAndLeave(s0, s1, t);
  }

  lemma RegisterAndLeave(s0: State, s: State, t: Ts) returns (s': State)
    requires Leads(s0, s) && Inv(s) && Heard(s) && CanRegister(s, t) && !RegisterAnswer(s, t).1
    ensures Leads(s0, s') && Inv(s') && Heard(s') && IsEnding(s', t)
  {
    assert LocalOk(s, t);
    var s1 := Advance(s0, s, Registration(t));
    s' := Advance(s0, s1, Victim(t));
  }

  /** Looking at the tuple again, whatever its state. */
  lemma EndFromRetry(s0: State, s: State, t: Ts, k: Key) returns (s': State)
    requires Leads(s0, s) && Inv(s) && Heard(s) && t in s.txns && s.txns[t].phase == Retry(k)
    ensures Leads(s0, s') && Inv(s') && Heard(s') && IsEnding(s', t)
  {
    var s1 := s;
    if k in s.rels { s1 := FinishUnlock(s0, s, k); }
    if k !in s1.locks {
      s1 := Advance(s0, s1, LockFree(t, k, s1.txns[t].home));
      s' := Ends(s0, s1, t);
    } else if s1.locks[k].owner == t {
      s1 := Advance(s0, s1, Own(t, k));
      s' := Ends(s0, s1, t);
    } else {
      s1 := Advance(s0, s1, See(t, k));
      s' := EndFromSaw(s0, s1, t, k);
    }
  }

  lemma EndFromQueued(s0: State, s: State, t: Ts, k: Key) returns (s': State)
    requires Leads(s0, s) && Inv(s) && Heard(s) && IsQueued(s, t, k)
    ensures Leads(s0, s') && Inv(s') && Heard(s') && IsEnding(s', t)
  {
    var s1 := s;
    if s1.waits[t].flag == RESERVED && k in s1.rels { s1 := FinishUnlock(s0, s1, k); }
    if s1.waits[t].flag == RESERVED { s1 := GrantArrives(s0, s1, t, k); }
    if s1.waits[t].flag == WAITING {
      s' := Advance(s0, s1, Victim(t));
    } else {
      s1 := Advance(s0, s1, Wake(t));
      s' := EndFromRetry(s0, s1, t, k);
    }
  }

  /** Registering for a lock that may be out of date: the answer decides. */
  lemma EndFromRegistering(s0: State, s: State, t: Ts) returns (s': State)
    requires Leads(s0, s) && Inv(s) && Heard(s) && CanRegister(s, t)
    ensures Leads(s0, s') && Inv(s') && Heard(s') && IsEnding(s', t)
  {
    if RegisterAnswer(s, t).1 {
      var s1 := Advance(s0, s, Registration(t));
      s' := EndFromTurned(s0, s1, t);
    } else {
      s' := RegisterAndLeave(s0, s, t);
    }
  }

  lemma EndFromTurned(s0: State, s: State, t: Ts) returns (s': State)
    requires Leads(s0, s) && Inv(s) && Heard(s) && t in s.txns && s.txns[t].phase.Turned?
    ensures Leads(s0, s') && Inv(s') && Heard(s') && IsEnding(s', t)
  {
    assert LocalOk(s, t);
    var k := s.txns[t].phase.key;
    var s1 := Advance(s0, s, Turn(t));
    s' := EndFromRetry(s0, s1, t, k);
  }

  lemma EndFromAnywhere(s0: State, s: State, t: Ts) returns (s': State)
    requires Leads(s0, s) && Inv(s) && Heard(s) && t in s.txns
    ensures Leads(s0, s') && Inv(s') && Heard(s') && IsEnding(s', t)
  {
    assert LocalOk(s, t);
    match s.txns[t].phase
    case Running => s' := Ends(s0, s, t);
    case Saw(_, _) =>
      var s1 := Advance(s0, s, Enroll(t));
      s' := EndFromRegistering(s0, s1, t);
    case Registering(_, _) => s' := EndFromRegistering(s0, s, t);
    case Queued(k) => s' := EndFromQueued(s0, s, t, k);
    case Turned(_) => s' := EndFromTurned(s0, s, t);
    case Retry(k) => s' := EndFromRetry(s0, s, t, k);
    case Ending => s' := s;
  }

  /** The transaction has ended, holds nothing and may finish on every node. */
  ghost predicate MayFinish(s: State, t: Ts) {
    IsEnding(s, t) && s.txns[t].held == {} && forall n :: Enabled(s, Finish(t, n))
  }

  /** From every state of every run, any transaction can end, give all its tuples up and finish on every node. */
  lemma EveryTransactionCanFinish(s: State, t: Ts)
    requires Reachable(s) && t in s.txns
    ensures exists s' :: Leads(s, s') && MayFinish(s', t)
  {
    ReachableHeard(s);
    assert Legal(s, []) && After(s, []) == s;
    var s1 := EndFromAnywhere(s, s, t);
    s1 := GiveAllUp(s, s1, t);
    ThenMayFinish(s1, t);
  }

  lemma ThenMayFinish(s: State, t: Ts)
    requires IsEnding(s, t) && ToGiveUp(s, t) == {}
    ensures MayFinish(s, t)
  {
    assert s.txns[t].held <= ToGiveUp(s, t);
    forall k | k in s.rels ensures s.rels[k].source != t { assert k !in ToGiveUp(s, t); }
  }
}
