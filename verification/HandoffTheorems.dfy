/** What holds in every run of the tuple-lock protocol. */
module HandoffTheorems {
  import opened Options
  import opened LockWaitTypes
  import opened Handoff
  import opened HandoffInv
  import opened HandoffTxnSteps
  import opened HandoffRegister
  import opened HandoffUnlock
  import opened HandoffPin
  import opened HandoffDeliver
  import opened HandoffReserve
  import opened HandoffInstall

  // ----- the invariant holds in every run -----

  lemma PopKeeps(s: State, k: Key)
    requires Inv(s) && CanPop(s, k)
    ensures Inv(DoPop(s, k))
  {
    if Popped(s, k).None? {
      PopNoneKeeps(s, k);
    } else {
      var h := Popped(s, k).value.0;
      if h.next.node != s.rels[k].node { PopAskKeeps(s, k, h); }
      else if LocallyReservable(s, k, h) { PopPinKeeps(s, k, h); }
      else { PopSkipKeeps(s, k, h); }
    }
  }

  lemma TakeKeeps(s: State, k: Key, ok: bool)
    requires Inv(s) && CanTake(s, k, ok)
    ensures Inv(DoTake(s, k, ok))
  {
    if ok { TakeYesKeeps(s, k); } else { TakeNoKeeps(s, k); }
  }

  lemma StepKeeps(s: State, e: Step)
    requires Inv(s) && Enabled(s, e)
    ensures Inv(Apply(s, e))
  {
    match e
    case Begin(t, n) => BeginKeeps(s, t, n);
    case LockFree(t, k, n) => LockKeeps(s, t, k, n);
    case Own(t, k) => OwnKeeps(s, t, k);
    case See(t, k) => SeeKeeps(s, t, k);
    case Enroll(t) => EnrollKeeps(s, t);
    case Registration(t) => RegisterKeeps(s, t);
    case Turn(t) => TurnKeeps(s, t);
    case Wake(t) => WakeKeeps(s, t);
    case Victim(t) => VictimKeeps(s, t);
    case End(t) => EndKeeps(s, t);
    case Finish(t, n) => FinishKeeps(s, t, n);
    case Freeze(k) => FreezeKeeps(s, k);
    case Pop(k) => PopKeeps(s, k);
    case Updated(k) => UpdatedKeeps(s, k);
    case Take(k, ok) => TakeKeeps(s, k, ok);
    case Install(k) => InstallKeeps(s, k);
    case Publication(k) => PublicationKeeps(s, k);
    case Deliver(m) => DeliverKeeps(s, m);
    case Accept(k, h) => AcceptAnswerKeeps(s, k, h);
  }

  lemma {:induction false} RunKeeps(s: State, steps: seq<Step>)
    requires Inv(s) && Legal(s, steps)
    ensures Inv(After(s, steps))
    decreases |steps|
  {
    if steps == [] {
    } else {
      StepKeeps(s, steps[0]);
      RunKeeps(Apply(s, steps[0]), steps[1..]);
    }
  }

  /** `s` is the end of some run. */
  ghost predicate Reachable(s: State) {
    exists s0, steps :: Init(s0) && Legal(s0, steps) && After(s0, steps) == s
  }

  lemma ReachableInv(s: State)
    requires Reachable(s)
    ensures Inv(s)
  {
    var s0, steps :| Init(s0) && Legal(s0, steps) && After(s0, steps) == s;
    RunKeeps(s0, steps);
  }

  lemma {:induction false} OneMore(s0: State, steps: seq<Step>, e: Step)
    requires Legal(s0, steps) && Enabled(After(s0, steps), e)
    ensures Legal(s0, steps + [e]) && After(s0, steps + [e]) == Apply(After(s0, steps), e)
    decreases |steps|
  {
    if steps == [] {
      assert [] + [e] == [e] && [e][1..] == [];
      assert After(s0, [e]) == After(Apply(s0, e), []);
    } else {
      assert (steps + [e])[1..] == steps[1..] + [e];
      OneMore(Apply(s0, steps[0]), steps[1..], e);
    }
  }

  // ----- mutual exclusion -----

  /** `t` acts as the holder of `k`: it recorded the lock, or woke up with the tuple naming it. */
  predicate Believes(s: State, t: Ts, k: Key) {
    && t in s.txns
    && (|| k in s.txns[t].held
        || (s.txns[t].phase == Retry(k) && k in s.locks && s.locks[k].owner == t))
  }

  lemma MutualExclusion(s: State, t: Ts, u: Ts, k: Key)
    requires Reachable(s) && Believes(s, t, k) && Believes(s, u, k)
    ensures t == u && k in s.locks && s.locks[k].owner == t
  {
    ReachableInv(s);
    assert KeyInv(s, k);
    assert OwnOk(s, t, k) && OwnOk(s, u, k);
  }

  /** A lock never names a transaction that has gone away: its owner holds it or will wake up to it. */
  lemma OwnerIsAlive(s: State, k: Key)
    requires Reachable(s) && k in s.locks
    ensures var t := s.locks[k].owner;
      && Home(s, t, s.locks[k].holderNode) && Live(s.locks[k].lockNode, t) in s.live
      && (Believes(s, t, k) || (IsQueued(s, t, k) && s.waits[t].flag != WAITING))
  {
    ReachableInv(s);
    assert KeyInv(s, k);
    assert LockOk(s, k);
  }

  // ----- one wait episode -----

  /** The flags of an episode in the order in which it may go through them. */
  function Rank(f: Flag): nat {
    match f case WAITING => 0 case RESERVED => 1 case GRANTED => 2
  }

  /**
   Every step moves an episode forward only. A pinned or granted one leaves by
   waking up as the named owner, never by rolling back; a grant is given only
   when the tuple already names the waiter.
   */
  ghost predicate EpisodeStep(s: State, s': State, t: Ts, k: Key)
    requires IsQueued(s, t, k)
  {
    && t in s'.txns
    && (s'.txns[t].phase == Queued(k) ==>
          && t in s'.waits && Rank(s.waits[t].flag) <= Rank(s'.waits[t].flag)
          && (s.waits[t].flag != WAITING ==> s'.waits[t].reservation == s.waits[t].reservation)
          && (s'.waits[t].flag == GRANTED && s.waits[t].flag != GRANTED ==>
                s.waits[t].flag == RESERVED && k in s.locks && s.locks[k].owner == t && k !in s.rels))
    && (s'.txns[t].phase != Queued(k) ==>
          t !in s'.waits &&
          match s.waits[t].flag
          case WAITING => s'.txns[t].phase == Ending
          case RESERVED => false
          case GRANTED => s'.txns[t].phase == Retry(k) && k in s'.locks && s'.locks[k].owner == t)
  }

  lemma EpisodeReserve(s: State, j: Key, h: Handoff, t: Ts, k: Key)
    requires Inv(s) && Reserve(j, h) in s.msgs && IsQueued(s, t, k)
    ensures EpisodeStep(s, DoDeliver(s, Reserve(j, h)), t, k)
  {
    if PinsThere(s, j, h) {
      assert KeyInv(s, j);
      AcceptPinnable(s, j, h);
      AcceptPins(s, j, h);
      PinEdges(s, DeliverReserve(s, j, h), j, h, t);
    } else {
      RefusedReserve(s, j, h);
    }
  }

  lemma EpisodePublish(s: State, m: Msg, t: Ts, k: Key)
    requires Inv(s) && m.Publish? && m in s.msgs && IsQueued(s, t, k)
    ensures EpisodeStep(s, DoDeliver(s, m), t, k)
  {
    assert KeyInv(s, k);
    assert QueuedOk(s, t, k);
    PublishFacts(s, m);
  }

  lemma EpisodeDelivery(s: State, m: Msg, t: Ts, k: Key)
    requires Inv(s) && CanDeliver(s, m) && IsQueued(s, t, k)
    ensures EpisodeStep(s, DoDeliver(s, m), t, k)
  {
    if m.Reserve? { EpisodeReserve(s, m.key, m.h, t, k); }
    else if m.Publish? { EpisodePublish(s, m, t, k); }
    else {
      assert KeyInv(s, m.key);
      UpdateFacts(s, m, t);
    }
  }

  lemma EpisodePop(s: State, j: Key, t: Ts, k: Key)
    requires Inv(s) && CanPop(s, j) && IsQueued(s, t, k)
    ensures EpisodeStep(s, DoPop(s, j), t, k)
  {
    assert KeyInv(s, j);
    if Popped(s, j).Some? {
      var h := Popped(s, j).value.0;
      if PinsHere(s, j, h) {
        PopPinnable(s, j, h);
        PopPins(s, j, h);
        PinEdges(s, DoPop(s, j), j, h, t);
        assert LocalOk(s, t);
      }
    }
  }

  /** Steps of other transactions, and unlocks, leave an episode alone. */
  lemma EpisodeUnlock(s: State, e: Step, t: Ts, k: Key)
    requires Enabled(s, e) && IsQueued(s, t, k)
    requires e.Freeze? || e.Updated? || e.Take? || e.Publication? || e.Accept? || e.Finish?
    ensures EpisodeStep(s, Apply(s, e), t, k)
  {
    assert Apply(s, e).waits == s.waits && Apply(s, e).txns == s.txns;
  }

  lemma EpisodeLook(s: State, e: Step, t: Ts, k: Key)
    requires Enabled(s, e) && IsQueued(s, t, k)
    requires e.Begin? || e.LockFree? || e.Own? || e.See? || e.End?
    ensures EpisodeStep(s, Apply(s, e), t, k)
  {}

  lemma EpisodeTxn(s: State, e: Step, t: Ts, k: Key)
    requires Enabled(s, e) && IsQueued(s, t, k)
    requires e.Enroll? || e.Registration? || e.Turn? || e.Install?
    ensures EpisodeStep(s, Apply(s, e), t, k)
  {}

  lemma EpisodeLeave(s: State, e: Step, t: Ts, k: Key)
    requires Inv(s) && Enabled(s, e) && IsQueued(s, t, k)
    requires e.Wake? || e.Victim?
    ensures EpisodeStep(s, Apply(s, e), t, k)
  {
    assert KeyInv(s, k);
    assert QueuedOk(s, t, k);
  }

  lemma EpisodeProgress(s: State, e: Step, t: Ts, k: Key)
    requires Inv(s) && Enabled(s, e) && IsQueued(s, t, k)
    ensures EpisodeStep(s, Apply(s, e), t, k)
  {
    if e.Deliver? { EpisodeDelivery(s, e.m, t, k); }
    else if e.Pop? { EpisodePop(s, e.k, t, k); }
    else if e.Wake? || e.Victim? { EpisodeLeave(s, e, t, k); }
    else if e.Freeze? || e.Updated? || e.Take? || e.Publication? || e.Accept? || e.Finish? {
      EpisodeUnlock(s, e, t, k);
    } else if e.Enroll? || e.Registration? || e.Turn? || e.Install? { EpisodeTxn(s, e, t, k); }
    else { EpisodeLook(s, e, t, k); }
  }

  /** Reserved or granted, and not yet woken up. */
  predicate Chosen(s: State, t: Ts, k: Key) {
    IsQueued(s, t, k) && s.waits[t].flag != WAITING
  }

  ghost predicate ChosenUntil(tr: seq<State>, i: nat, t: Ts, k: Key) {
    i <= |tr| && forall j :: 0 <= j < i ==> Chosen(tr[j], t, k)
  }

  /** Woken up to find the tuple in its own name. */
  predicate Woken(s: State, t: Ts, k: Key) {
    Believes(s, t, k) && s.txns[t].phase == Retry(k)
  }

  /**
   From the moment a transaction is chosen as successor it stays chosen until
   it wakes up as the owner the tuple names: no run makes it a deadlock victim.
   */
  lemma {:induction false} ChosenIsNeverVictim(s: State, steps: seq<Step>, t: Ts, k: Key)
    requires Inv(s) && Legal(s, steps) && Chosen(s, t, k)
    ensures var tr := Trace(s, steps);
      ChosenUntil(tr, |tr|, t, k) || exists i :: 0 <= i < |tr| && ChosenUntil(tr, i, t, k) && Woken(tr[i], t, k)
    decreases |steps|
  {
    if steps == [] {
    } else {
      var s1 := Apply(s, steps[0]);
      EpisodeProgress(s, steps[0], t, k);
      StepKeeps(s, steps[0]);
      var rest := Trace(s1, steps[1..]);
      if Chosen(s1, t, k) {
        ChosenIsNeverVictim(s1, steps[1..], t, k);
      } else {
        assert ChosenUntil(rest, 0, t, k) && Woken(rest[0], t, k);
      }
      ChosenOneMore(s, rest, t, k);
    }
  }

  lemma ChosenOneMore(s: State, rest: seq<State>, t: Ts, k: Key)
    requires Chosen(s, t, k)
    requires ChosenUntil(rest, |rest|, t, k)
             || exists i :: 0 <= i < |rest| && ChosenUntil(rest, i, t, k) && Woken(rest[i], t, k)
    ensures var tr := [s] + rest;
      ChosenUntil(tr, |tr|, t, k) || exists i :: 0 <= i < |tr| && ChosenUntil(tr, i, t, k) && Woken(tr[i], t, k)
  {
    var tr := [s] + rest;
    if !ChosenUntil(rest, |rest|, t, k) {
      var i :| 0 <= i < |rest| && ChosenUntil(rest, i, t, k) && Woken(rest[i], t, k);
      assert tr[i + 1] == rest[i] && ChosenUntil(tr, i + 1, t, k);
    }
  }

  // ----- the wait-for edges follow the lock -----

  /** A handoff of `k` is between taking a candidate and having its successor ready. */
  predicate Settling(s: State, k: Key) {
    k in s.rels && (s.rels[k].stage.Asking? || s.rels[k].stage.Updating?)
  }

  /**
   Outside that window every live waiter of `k` is in the one queue of `k` and
   its recorded edge names that queue's owner, at the owner's home, with a
   version the queue has reached.
   */
  lemma EdgesFollowTheLock(s: State, t: Ts, k: Key)
    requires Reachable(s) && IsWaiting(s, t, k) && !Settling(s, k)
    ensures exists n :: QId(n, k) in s.queues && EdgeTo(s, t, s.queues[QId(n, k)])
    ensures forall n :: QId(n, k) in s.queues ==> EdgeTo(s, t, s.queues[QId(n, k)])
  {
    ReachableInv(s);
    assert KeyInv(s, k);
    assert QueuedOk(s, t, k);
    assert LockOk(s, k);
    if k in s.rels { assert RelOk(s, k); }
    var n := if AtOwner(s, k) then s.locks[k].lockNode else s.rels[k].stage.h.next.node;
    assert QueueOk(s, n, k);
    forall m | QId(m, k) in s.queues ensures m == n { assert QueueOk(s, m, k); }
    assert EdgeTo(s, t, s.queues[QId(n, k)]);
  }

  predicate EdgeTo(s: State, t: Ts, q: Queue)
    requires t in s.txns && t in s.waits
  {
    && Waiter(t, s.txns[t].home) in q.waiters
    && s.waits[t].holder == q.owner && Home(s, q.owner, s.waits[t].holderNode)
    && s.waits[t].holderVersion <= q.version
  }

  /** Even inside the window an edge names only the unlocking holder or the successor. */
  lemma EdgesInsideTheWindow(s: State, t: Ts, k: Key)
    requires Reachable(s) && IsWaiting(s, t, k) && Settling(s, k)
    ensures var h := s.rels[k].stage.h;
      OldEdge(s, s.waits[t], h) || NewEdge(s.waits[t], h)
  {
    ReachableInv(s);
    assert KeyInv(s, k);
    assert QueuedOk(s, t, k);
  }

  // ----- no orphan queue -----

  /**
   The owner of every queue is active on the queue's node, and if it has already
   released the key, its own unlock is still looking for a successor.
   */
  lemma NoOrphanQueue(s: State, n: Node, k: Key)
    requires Reachable(s) && QId(n, k) in s.queues
    ensures var o := s.queues[QId(n, k)].owner;
      && Live(n, o) in s.live
      && (Gone(n, o, k) in s.gone ==>
            k in s.rels && s.rels[k].source == o && s.rels[k].node == n
            && (s.rels[k].stage.Frozen? || s.rels[k].stage.Asking?))
  {
    ReachableInv(s);
    assert KeyInv(s, k);
    assert QueueOk(s, n, k);
    assert LockOk(s, k);
    var o := s.queues[QId(n, k)].owner;
    if k in s.rels { assert RelOk(s, k); }
    if Gone(n, o, k) in s.gone { assert GoneOk(s, n, o, k); }
    assert LocalOk(s, o);
  }

  lemma FinishedOwnsNothing(s: State, t: Ts, n: Node, k: Key)
    requires Inv(s) && CanFinish(s, t, n) && QId(n, k) in s.queues
    ensures s.queues[QId(n, k)].owner != t
  {
    assert KeyInv(s, k);
    assert QueueOk(s, n, k);
    assert LockOk(s, k);
    if k in s.rels { assert RelOk(s, k); }
  }

  /** A transaction that may finish on a node has left no queue behind in its name there. */
  lemma FinishLeavesNoQueue(s: State, t: Ts, n: Node, k: Key)
    requires Reachable(s) && CanFinish(s, t, n) && QId(n, k) in s.queues
    ensures s.queues[QId(n, k)].owner != t
  {
    ReachableInv(s);
    FinishedOwnsNothing(s, t, n, k);
  }

  // ----- the FIFO is conserved -----

  /** At most one entry of a waiting transaction, and it is in line unless it is being asked. */
  lemma NobodyIsLost(s: State, t: Ts, k: Key)
    requires Reachable(s) && IsWaiting(s, t, k)
    ensures Candidate(s, t, k) <==> !InQueue(Line(s, k), t)
    ensures Distinct(Line(s, k))
  {
    ReachableInv(s);
    assert KeyInv(s, k);
    assert QueuedOk(s, t, k);
    if Candidate(s, t, k) { assert RelOk(s, k); }
  }

  /**
   The queue that was frozen is the refused candidates, then the successor, then
   exactly the queue the successor has got; every refused candidate had left for good.
   */
  lemma HandoffConservesTheFifo(s: State, k: Key, h: Handoff)
    requires Reachable(s) && k in s.rels && NextOf(s.rels[k].stage) == Some(h)
    ensures s.rels[k].before == s.rels[k].skipped + [h.next] + h.tail
    ensures forall w :: w in s.rels[k].skipped ==> IsEnding(s, w.ts) && w.ts !in s.waits
    ensures !s.rels[k].stage.Asking? ==>
      && IsReserved(s, h.next.ts, k, h.source, h.version)
      && QId(h.next.node, k) in s.queues && s.queues[QId(h.next.node, k)].owner == h.next.ts
      && h.tail <= s.queues[QId(h.next.node, k)].waiters
      && (!s.rels[k].stage.Installed? ==> s.queues[QId(h.next.node, k)].waiters == h.tail)
  {
    ReachableInv(s);
    assert KeyInv(s, k);
    assert RelOk(s, k);
    if !s.rels[k].stage.Asking? { assert QueueOk(s, h.next.node, k); }
    forall w | w in s.rels[k].skipped ensures w.ts !in s.waits { assert LocalOk(s, w.ts); }
  }

  /** An unlock that found no successor had refused the whole frozen queue. */
  lemma EmptyMeansNobodyWaits(s: State, k: Key)
    requires Reachable(s) && StageIs(s, k, Empty)
    ensures forall w :: w in s.rels[k].before ==> IsEnding(s, w.ts)
    ensures forall t :: !IsWaiting(s, t, k)
  {
    ReachableInv(s);
    assert KeyInv(s, k);
    assert RelOk(s, k);
    assert forall t :: IsQueued(s, t, k) ==> QueuedOk(s, t, k);
  }

  predicate IsUnlockStep(e: Step) {
    e.Freeze? || e.Pop? || e.Updated? || e.Take? || e.Install? || e.Publication?
  }

  lemma OtherStepsLeaveUnlocks(s: State, e: Step)
    requires Enabled(s, e) && !IsUnlockStep(e)
    ensures Apply(s, e).rels == s.rels
  {
    match e
    case Deliver(m) =>
      if m.Publish? { assert DeliverPublish(s, m.key, m.source, m.next, m.version).rels == s.rels; }
      if m.Reserve? { assert DeliverReserve(s, m.key, m.h).rels == s.rels; }
    case _ =>
  }

  lemma PopBefore(s: State, j: Key, k: Key)
    requires CanPop(s, j) && k in s.rels
    ensures var r := DoPop(s, j).rels[k];
      r.before == s.rels[k].before && s.rels[k].skipped <= r.skipped
  {}

  lemma UnlockStepBefore(s: State, e: Step, k: Key)
    requires Enabled(s, e) && IsUnlockStep(e) && k in s.rels && k in Apply(s, e).rels
    ensures Apply(s, e).rels[k].before == s.rels[k].before && s.rels[k].skipped <= Apply(s, e).rels[k].skipped
  {
    if e.Pop? { PopBefore(s, e.k, k); }
  }

  /** `before` is the queue at the moment of freezing, and no later step of the unlock changes it. */
  lemma BeforeIsTheFrozenQueue(s: State, e: Step, k: Key)
    requires Enabled(s, e) && k in Apply(s, e).rels
    ensures var r := Apply(s, e).rels[k];
      if k in s.rels then r.before == s.rels[k].before && s.rels[k].skipped <= r.skipped
      else e == Freeze(k) && r.before == Line(s, k) && r.skipped == []
  {
    if !IsUnlockStep(e) { OtherStepsLeaveUnlocks(s, e); }
    else if k in s.rels { UnlockStepBefore(s, e, k); }
    else if e.Freeze? {}
  }

  // ----- repeated messages -----

  /** The message belongs to the very wait that `t` is in: same tuple, and a handoff that concerns it now. */
  predicate IsAbout(s: State, m: Msg, t: Ts) {
    && IsQueued(s, t, m.key)
    && match m
       case Reserve(k, h) => Outstanding(s, k, h) && IsWaiting(s, t, k)
       case Publish(k, source, next, version) => t == next.ts && k in s.locks && s.locks[k].owner == t && k !in s.rels
       case Update(k, version, holder, at, _) =>
         IsWaiting(s, t, k) && Distributing(s, k, version, holder) && Waiter(t, at) in Line(s, k)
       case _ => false
  }

  /** However late a message arrives, it wakes, pins or relabels nobody but the wait it was sent for. */
  lemma MessagesMissLaterEpisodes(s: State, m: Msg, t: Ts)
    requires Reachable(s) && CanDeliver(s, m) && t in s.waits
    ensures t in DoDeliver(s, m).waits && (DoDeliver(s, m).waits[t] != s.waits[t] ==> IsAbout(s, m, t))
  {
    ReachableInv(s);
    assert KeyInv(s, m.key);
    match m {
      case Reserve(k, h) =>
        if PinsThere(s, k, h) {
          AcceptPinnable(s, k, h);
          AcceptPins(s, k, h);
          PinEdges(s, DeliverReserve(s, k, h), k, h, t);
        } else {
          RefusedReserve(s, k, h);
        }
      case Publish(_, _, _, _) => PublishFacts(s, m);
      case Update(_, _, _, _, _) => UpdateFacts(s, m, t);
    }
  }

  predicate IsRedelivery(s: State, e: Step) {
    e.Deliver? && e.m in s.delivered
  }

  /** The run without its repeated deliveries. */
  function Once(s: State, steps: seq<Step>): seq<Step>
    requires Legal(s, steps)
    decreases |steps|
  {
    if steps == [] then []
    else if IsRedelivery(s, steps[0]) then Once(Apply(s, steps[0]), steps[1..])
    else [steps[0]] + Once(Apply(s, steps[0]), steps[1..])
  }

  predicate DeliversOnce(s: State, steps: seq<Step>)
    requires Legal(s, steps)
    decreases |steps|
  {
    steps == [] || (!IsRedelivery(s, steps[0]) && DeliversOnce(Apply(s, steps[0]), steps[1..]))
  }

  /** Whatever is delivered again and however late, the state is the one of exactly-once delivery. */
  lemma {:induction false} RepeatsChangeNothing(s: State, steps: seq<Step>)
    requires Inv(s) && Legal(s, steps)
    ensures Legal(s, Once(s, steps)) && DeliversOnce(s, Once(s, steps))
    ensures After(s, Once(s, steps)) == After(s, steps)
    decreases |steps|
  {
    if steps == [] {
    } else {
      var e := steps[0];
      StepKeeps(s, e);
      RepeatsChangeNothing(Apply(s, e), steps[1..]);
      if IsRedelivery(s, e) {
        RedeliveryIsNoOp(s, e.m);
      } else {
        assert Once(s, steps)[1..] == Once(Apply(s, e), steps[1..]);
      }
    }
  }
}
