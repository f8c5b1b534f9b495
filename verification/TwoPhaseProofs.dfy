/** What holds in every run of durable-Prepare two-phase commit. */
module TwoPhaseProofs {
  import opened Options
  import opened PreparedTxn
  import opened TwoPhaseCommit

  // ----- a step touches one participant -----

  /** Both states agree on everything about participant `b` except its locks. */
  predicate SameAt(s: State, s': State, b: At) {
    && (b in s'.parts <==> b in s.parts) && (b in s.parts ==> s'.parts[b] == s.parts[b])
    && (b in s'.queued <==> b in s.queued) && (b in s.queued ==> s'.queued[b] == s.queued[b])
    && (b in s'.durable <==> b in s.durable) && (b in s.durable ==> s'.durable[b] == s.durable[b])
    && (b in s'.yes <==> b in s.yes) && (b in s'.taken <==> b in s.taken) && (b in s'.done <==> b in s.done)
  }

  predicate SameLocks(s: State, s': State, r: Request) {
    forall k :: 0 <= k < |r.writes| ==> (LockedFor(s'.items, r, k) <==> LockedFor(s.items, r, k))
  }

  predicate SameTxns(s: State, s': State) {
    s'.txns == s.txns && s'.ended == s.ended && s'.notes == s.notes && s'.decisions == s.decisions
  }

  lemma SlotFrame(s: State, s': State, b: At)
    requires InTxn(s, b) && SlotOk(s, b) && InTxn(s', b) && SameAt(s, s', b)
    requires s'.txns[b.id].requests[b.node] == s.txns[b.id].requests[b.node]
    requires SameLocks(s, s', s.txns[b.id].requests[b.node])
    requires s.txns[b.id].phase == Decided ==> s'.txns[b.id].phase == Decided
    ensures SlotOk(s', b)
  {}

  /** Only participant `a` has changed, it is in order again, and no record is lost. */
  lemma SlotKeeps(s: State, s': State, a: At)
    requires Inv(s) && SameTxns(s, s') && s'.items == s.items && InTxn(s, a)
    requires forall b :: b != a ==> SameAt(s, s', b)
    requires forall b :: b in s.durable ==> b in s'.durable && s'.durable[b] == s.durable[b]
    requires SlotOk(s', a)
    ensures Inv(s')
  {
    forall id | id in s'.txns ensures TxnOk(s', id) { assert TxnOk(s, id); }
    forall b | InTxn(s', b) ensures SlotOk(s', b) {
      if b != a {
        assert InTxn(s, b) && SlotOk(s, b);
        SlotFrame(s, s', b);
      }
    }
    forall b | b in s'.parts || b in s'.queued || b in s'.durable || b in s'.yes || b in s'.taken || b in s'.done
      ensures InTxn(s', b)
    {
      if b != a { assert SameAt(s, s', b); assert InTxn(s, b); }
    }
  }

  lemma DeliverPrepareKeeps(s: State, id: Id, n: int)
    requires Inv(s) && id in s.txns && n in s.txns[id].requests
    ensures Inv(DoDeliverPrepare(s, id, n))
  {
    var a := At(n, id);
    assert InTxn(s, a) && SlotOk(s, a);
    var s' := DoDeliverPrepare(s, id, n);
    assert SlotOk(s', a);
    SlotKeeps(s, s', a);
  }

  /** A context that was already committed finds its tuples gone, and is dropped again. */
  lemma LateCheckFails(s: State, a: At)
    requires InTxn(s, a) && SlotOk(s, a) && a in s.parts && a in s.taken && s.parts[a].stage.Checking?
    requires s.parts[a].stage.k < |s.parts[a].request.writes|
    ensures DoCheckWrite(s, a).parts == s.parts - {a}
  {
    assert !LockedFor(s.items, s.parts[a].request, 0);
  }

  lemma CheckWriteSlot(s: State, a: At)
    requires InTxn(s, a) && SlotOk(s, a) && a in s.parts && s.parts[a].stage.Checking?
    requires s.parts[a].stage.k < |s.parts[a].request.writes|
    ensures SlotOk(DoCheckWrite(s, a), a)
  {
    var k := s.parts[a].stage.k;
    var r := s.parts[a].request;
    if a in s.taken { LateCheckFails(s, a); }
    else if LockedFor(s.items, r, k) {
      assert LockedUpTo(s.items, r, k + 1);
    }
  }

  lemma CheckWriteKeeps(s: State, a: At)
    requires Inv(s) && a in s.parts && s.parts[a].stage.Checking? && s.parts[a].stage.k < |s.parts[a].request.writes|
    ensures Inv(DoCheckWrite(s, a))
  {
    assert InTxn(s, a) && SlotOk(s, a);
    CheckWriteSlot(s, a);
    SlotKeeps(s, DoCheckWrite(s, a), a);
  }

  lemma RefuseKeeps(s: State, a: At)
    requires Inv(s) && a in s.parts && s.parts[a].stage.Checking?
    ensures Inv(DoRefuse(s, a))
  {
    assert InTxn(s, a) && SlotOk(s, a);
    assert SlotOk(DoRefuse(s, a), a);
    SlotKeeps(s, DoRefuse(s, a), a);
  }

  lemma LogPrepareKeeps(s: State, a: At)
    requires Inv(s) && a in s.parts && s.parts[a].stage == Checking(|s.parts[a].request.writes|)
    ensures Inv(DoLogPrepare(s, a))
  {
    assert InTxn(s, a) && SlotOk(s, a);
    assert TxnOk(s, a.id);
    assert RequestOk(a.id, s.txns[a.id], a.node, s.txns[a.id].requests[a.node]);
    assert a !in s.taken;
    assert SlotOk(DoLogPrepare(s, a), a);
    SlotKeeps(s, DoLogPrepare(s, a), a);
  }

  lemma FlushKeeps(s: State, a: At)
    requires Inv(s) && a in s.queued
    ensures Inv(DoFlush(s, a))
  {
    assert InTxn(s, a) && SlotOk(s, a);
    assert SlotOk(DoFlush(s, a), a);
    SlotKeeps(s, DoFlush(s, a), a);
  }

  lemma MarkKeeps(s: State, a: At)
    requires Inv(s) && a in s.parts && s.parts[a].stage == Logging && a in s.durable
    ensures Inv(DoMark(s, a))
  {
    assert InTxn(s, a) && SlotOk(s, a);
    assert SlotOk(DoMark(s, a), a);
    SlotKeeps(s, DoMark(s, a), a);
  }

  lemma DeliverCommitKeeps(s: State, id: Id, n: int)
    requires Inv(s) && id in s.txns && s.txns[id].phase == Decided && n in s.txns[id].requests
    ensures Inv(DoDeliverCommit(s, id, n))
  {
    var a := At(n, id);
    assert InTxn(s, a) && SlotOk(s, a);
    assert SlotOk(DoDeliverCommit(s, id, n), a);
    SlotKeeps(s, DoDeliverCommit(s, id, n), a);
  }

  lemma FinishKeeps(s: State, a: At)
    requires Inv(s) && a in s.parts && s.parts[a].stage == Applying(|s.parts[a].request.writes|)
    ensures Inv(DoFinish(s, a))
  {
    assert InTxn(s, a) && SlotOk(s, a);
    assert SlotOk(DoFinish(s, a), a);
    SlotKeeps(s, DoFinish(s, a), a);
  }

  // ----- tuples locked and unlocked by transactions that are still running -----

  /** Nobody's slot depends on what running transactions do to their own tuples. */
  lemma RunningLocks(s: State, e: Step, r: Request)
    requires Enabled(s, e) && (e.LockTuple? || e.UnlockTuple?) && r.start in s.ended
    ensures SameLocks(s, Apply(s, e), r)
  {}

  lemma ItemKeeps(s: State, e: Step)
    requires Inv(s) && Enabled(s, e) && (e.LockTuple? || e.UnlockTuple?)
    ensures Inv(Apply(s, e))
  {
    var s' := Apply(s, e);
    forall id | id in s'.txns ensures TxnOk(s', id) { assert TxnOk(s, id); }
    forall b | InTxn(s', b) ensures SlotOk(s', b) {
      StartEnded(s, b);
      RunningLocks(s, e, s.txns[b.id].requests[b.node]);
      SlotFrame(s, s', b);
    }
    forall b | b in s'.parts || b in s'.queued || b in s'.durable || b in s'.yes || b in s'.taken || b in s'.done
      ensures InTxn(s', b)
    {
      assert InTxn(s, b);
    }
  }

  lemma StartEnded(s: State, a: At)
    requires Inv(s) && InTxn(s, a)
    ensures SlotOk(s, a) && RequestOk(a.id, s.txns[a.id], a.node, s.txns[a.id].requests[a.node])
    ensures s.txns[a.id].requests[a.node].start in s.ended
  {
    assert TxnOk(s, a.id);
  }

  // ----- the coordinator -----

  lemma SendKeeps(s: State, id: Id, txn: Txn)
    requires Inv(s) && Enabled(s, Send(id, txn))
    ensures Inv(Apply(s, Send(id, txn)))
  {
    var s' := Apply(s, Send(id, txn));
    forall j | j in s'.txns ensures TxnOk(s', j) { if j != id { assert TxnOk(s, j); } }
    forall b | InTxn(s', b) ensures SlotOk(s', b) {
      if b.id != id {
        assert SlotOk(s, b);
        SlotFrame(s, s', b);
      } else {
        assert !InTxn(s, b);
      }
    }
    forall b | b in s'.parts || b in s'.queued || b in s'.durable || b in s'.yes || b in s'.taken || b in s'.done
      ensures InTxn(s', b)
    {
      assert InTxn(s, b);
    }
    forall i, j | i in s'.txns && j in s'.txns && s'.txns[i].start == s'.txns[j].start ensures i == j {
      assert i in s.txns ==> TxnOk(s, i);
      assert j in s.txns ==> TxnOk(s, j);
    }
  }

  /** All votes are in, so all records are durable. */
  lemma VotesAreDurable(s: State, id: Id)
    requires Inv(s) && Enabled(s, Vote(id))
    ensures AllDurable(s, id, s.txns[id])
  {
    assert TxnOk(s, id);
    forall n | n in s.txns[id].requests
      ensures At(n, id) in s.durable && s.durable[At(n, id)] == s.txns[id].requests[n]
    {
      assert InTxn(s, At(n, id)) && SlotOk(s, At(n, id));
    }
  }

  lemma SamePromise(id: Id, txn: Txn, phase: Phase)
    requires Consistent(id, txn)
    ensures Consistent(id, txn.(phase := phase))
  {
    var txn' := txn.(phase := phase);
    forall n | n in txn'.requests ensures RequestOk(id, txn', n, txn'.requests[n]) {
      assert RequestOk(id, txn, n, txn.requests[n]);
    }
  }

  lemma CoordinatorTxn(s: State, e: Step, j: Id)
    requires Inv(s) && Enabled(s, e) && (e.Notify? || e.Vote? || e.LogDecision?) && j in s.txns
    ensures j in Apply(s, e).txns && TxnOk(Apply(s, e), j)
    ensures Apply(s, e).txns[j] == s.txns[j].(phase := Apply(s, e).txns[j].phase)
    ensures s.txns[j].phase == Decided ==> Apply(s, e).txns[j].phase == Decided
  {
    if e.Vote? { VotesAreDurable(s, e.id); }
    assert TxnOk(s, j);
    SamePromise(j, s.txns[j], Apply(s, e).txns[j].phase);
  }

  lemma CoordinatorSlot(s: State, e: Step, b: At)
    requires Inv(s) && Enabled(s, e) && (e.Notify? || e.Vote? || e.LogDecision?) && InTxn(Apply(s, e), b)
    ensures SlotOk(Apply(s, e), b)
  {
    CoordinatorTxn(s, e, b.id);
    assert InTxn(s, b) && SlotOk(s, b);
    SlotFrame(s, Apply(s, e), b);
  }

  /** The coordinator's steps touch no participant and no start timestamp. */
  lemma CoordinatorFrame(s: State, e: Step)
    requires Enabled(s, e) && (e.Notify? || e.Vote? || e.LogDecision?)
    ensures var s' := Apply(s, e);
      && s'.txns.Keys == s.txns.Keys && s'.notes <= s.notes + {e.id} && e.id in s.txns
      && (forall j :: j in s'.txns ==> s'.txns[j].start == s.txns[j].start && s'.txns[j].requests == s.txns[j].requests)
      && s'.parts == s.parts && s'.queued == s.queued && s'.durable == s.durable
      && s'.yes == s.yes && s'.taken == s.taken && s'.done == s.done
  {}

  lemma CoordinatorKeeps(s: State, e: Step)
    requires Inv(s) && Enabled(s, e) && (e.Notify? || e.Vote? || e.LogDecision?)
    ensures Inv(Apply(s, e))
  {
    var s' := Apply(s, e);
    forall j | j in s'.txns ensures TxnOk(s', j) { CoordinatorTxn(s, e, j); }
    forall b | InTxn(s', b) ensures SlotOk(s', b) { CoordinatorSlot(s, e, b); }
    CoordinatorFrame(s, e);
    CoordinatorDomain(s, s', e.id);
  }

  lemma CoordinatorDomain(s: State, s': State, id: Id)
    requires Inv(s) && s'.txns.Keys == s.txns.Keys && s'.notes <= s.notes + {id} && id in s.txns
    requires forall j :: j in s'.txns ==>
      s'.txns[j].start == s.txns[j].start && s'.txns[j].requests == s.txns[j].requests
    requires s'.parts == s.parts && s'.queued == s.queued && s'.durable == s.durable
    requires s'.yes == s.yes && s'.taken == s.taken && s'.done == s.done
    ensures forall i, j :: i in s'.txns && j in s'.txns && s'.txns[i].start == s'.txns[j].start ==> i == j
    ensures forall a {:trigger InTxn(s', a)} ::
      a in s'.parts || a in s'.queued || a in s'.durable || a in s'.yes || a in s'.taken || a in s'.done
      ==> InTxn(s', a)
    ensures forall j :: j in s'.notes ==> j in s'.txns
  {
    forall b | b in s'.parts || b in s'.queued || b in s'.durable || b in s'.yes || b in s'.taken || b in s'.done
      ensures InTxn(s', b)
    {
      assert InTxn(s, b);
    }
  }

  // ----- a Commit installs a write -----

  predicate Installs(s: State, a: At, next: Option<Successor>) {
    && a in s.parts && s.parts[a].stage.Applying? && s.parts[a].stage.k < |s.parts[a].request.writes|
    && s.parts[a].request.writes[s.parts[a].stage.k].tuple.Some?
    && s.parts[a].request.writes[s.parts[a].stage.k].tuple.value in s.items
    && MayGet(s, next)
  }

  function Target(s: State, a: At): Tuple
    requires Installs(s, a, None)
  {
    s.parts[a].request.writes[s.parts[a].stage.k].tuple.value
  }

  /** Two participants never have a lock on the same tuple. */
  lemma OneOwner(s: State, a: At, i: nat, b: At, j: nat)
    requires Inv(s) && InTxn(s, a) && InTxn(s, b)
    requires i < |s.txns[a.id].requests[a.node].writes| && LockedFor(s.items, s.txns[a.id].requests[a.node], i)
    requires j < |s.txns[b.id].requests[b.node].writes| && LockedFor(s.items, s.txns[b.id].requests[b.node], j)
    requires s.txns[a.id].requests[a.node].writes[i].tuple == s.txns[b.id].requests[b.node].writes[j].tuple
    ensures a == b && i == j
  {
    StartEnded(s, a);
    StartEnded(s, b);
  }

  lemma InstallOthers(s: State, a: At, next: Option<Successor>, b: At)
    requires Inv(s) && Installs(s, a, next) && InTxn(s, b) && b != a
    ensures SlotOk(DoInstall(s, a, next), b)
  {
    var s' := DoInstall(s, a, next);
    var r := s.txns[b.id].requests[b.node];
    StartEnded(s, b);
    assert InTxn(s, a) && SlotOk(s, a);
    var k := s.parts[a].stage.k;
    forall j | 0 <= j < |r.writes| ensures LockedFor(s'.items, r, j) <==> LockedFor(s.items, r, j) {
      if r.writes[j].tuple == Some(Target(s, a)) && LockedFor(s.items, r, j) { OneOwner(s, a, k, b, j); }
    }
    SlotFrame(s, s', b);
  }

  lemma InstallSelf(s: State, a: At, next: Option<Successor>)
    requires Inv(s) && Installs(s, a, next)
    ensures InTxn(s, a) && SlotOk(DoInstall(s, a, next), a)
  {
    var s' := DoInstall(s, a, next);
    assert InTxn(s, a) && SlotOk(s, a);
    StartEnded(s, a);
    var r := s.parts[a].request;
    var k := s.parts[a].stage.k;
    forall j | k + 1 <= j < |r.writes| ensures LockedFor(s'.items, r, j) {
      assert LockedFor(s.items, r, j) && r.writes[j].tuple != r.writes[k].tuple;
    }
    forall j | 0 <= j < k + 1 ensures !LockedFor(s'.items, r, j) {
      if j < k { assert !LockedFor(s.items, r, j) && r.writes[j].tuple != r.writes[k].tuple; }
    }
  }

  lemma InstallKeeps(s: State, a: At, next: Option<Successor>)
    requires Inv(s) && Installs(s, a, next)
    ensures Inv(DoInstall(s, a, next))
  {
    var s' := DoInstall(s, a, next);
    forall j | j in s'.txns ensures TxnOk(s', j) { assert TxnOk(s, j); }
    forall b | InTxn(s', b) ensures SlotOk(s', b) {
      if b == a { InstallSelf(s, a, next); } else { InstallOthers(s, a, next, b); }
    }
    forall b | b in s'.parts || b in s'.queued || b in s'.durable || b in s'.yes || b in s'.taken || b in s'.done
      ensures InTxn(s', b)
    {
      assert InTxn(s, b);
    }
  }

  // ----- every run -----

  lemma StepKeeps(s: State, e: Step)
    requires Inv(s) && Enabled(s, e)
    ensures Inv(Apply(s, e))
  {
    match e {
      case LockTuple(_, _, _, _) => ItemKeeps(s, e);
      case UnlockTuple(_, _) => ItemKeeps(s, e);
      case Send(id, txn) => SendKeeps(s, id, txn);
      case DeliverPrepare(id, n) => DeliverPrepareKeeps(s, id, n);
      case CheckWrite(a) => CheckWriteKeeps(s, a);
      case Refuse(a) => RefuseKeeps(s, a);
      case LogPrepare(a) => LogPrepareKeeps(s, a);
      case Flush(a) => FlushKeeps(s, a);
      case Mark(a) => MarkKeeps(s, a);
      case Notify(_) => CoordinatorKeeps(s, e);
      case Vote(_) => CoordinatorKeeps(s, e);
      case LogDecision(_) => CoordinatorKeeps(s, e);
      case DeliverCommit(id, n) => DeliverCommitKeeps(s, id, n);
      case Install(a, next) => InstallKeeps(s, a, next);
      case Finish(a) => FinishKeeps(s, a);
    }
  }

  lemma {:induction false} RunKeeps(s: State, steps: seq<Step>)
    requires Inv(s) && Legal(s, steps)
    ensures Inv(After(s, steps))
    decreases |steps|
  {
    if steps == [] {
    } else {
      StepKeeps(s, steps[0]);
      RunKeeps(Apply(s, steps[0]), steps[1..]);
    }
  }

  ghost predicate Reachable(s: State) {
    exists s0, steps :: Init(s0) && Legal(s0, steps) && After(s0, steps) == s
  }

  lemma ReachableInv(s: State)
    requires Reachable(s)
    ensures Inv(s)
  {
    var s0, steps :| Init(s0) && Legal(s0, steps) && After(s0, steps) == s;
    RunKeeps(s0, steps);
  }

  lemma {:induction false} OneMore(s0: State, steps: seq<Step>, e: Step)
    requires Legal(s0, steps) && Enabled(After(s0, steps), e)
    ensures Legal(s0, steps + [e]) && After(s0, steps + [e]) == Apply(After(s0, steps), e)
    decreases |steps|
  {
    if steps == [] {
      assert [] + [e] == [e] && [e][1..] == [];
      assert After(s0, [e]) == After(Apply(s0, e), []);
    } else {
      assert (steps + [e])[1..] == steps[1..] + [e];
      OneMore(Apply(s0, steps[0]), steps[1..], e);
    }
  }

  // ----- main results -----

  /**
   Commit atomicity: as soon as one participant has taken its context to install
   the writes, every participant's Prepared record, with exactly the request the
   coordinator sent, is durable, every participant has installed its writes or
   still holds a context that only a Commit can remove, and in the baseline
   variant the coordinator's decision record is durable too.
   */
  lemma CommitAtomicity(s: State, a: At, n: int)
    requires Reachable(s) && a in s.taken
    ensures InTxn(s, a)
    ensures n in s.txns[a.id].requests ==>
      var b := At(n, a.id);
      && b in s.durable && s.durable[b] == s.txns[a.id].requests[n]
      && (b in s.done || (b in s.parts && !s.parts[b].stage.Checking?))
    ensures s.txns[a.id].variant == Baseline ==> a.id in s.decisions
  {
    ReachableInv(s);
    assert InTxn(s, a) && SlotOk(s, a);
    assert TxnOk(s, a.id);
    if n in s.txns[a.id].requests { assert InTxn(s, At(n, a.id)) && SlotOk(s, At(n, a.id)); }
  }

  /**
   At most one Commit: whatever Prepare and Commit messages are repeated and
   however late they arrive, a Commit never takes a participant's context twice.
   */
  lemma TakenAtMostOnce(s: State, id: Id, n: int)
    requires Reachable(s) && Enabled(s, DeliverCommit(id, n)) && DoDeliverCommit(s, id, n) != s
    ensures At(n, id) !in s.taken && At(n, id) in s.durable
  {
    ReachableInv(s);
    assert InTxn(s, At(n, id)) && SlotOk(s, At(n, id));
  }

  /** A Prepare that comes after its transaction was committed here never gets past its first write. */
  lemma LatePrepareIsRefused(s: State, a: At)
    requires Reachable(s) && a in s.done && Enabled(s, CheckWrite(a))
    ensures Apply(s, CheckWrite(a)) == s.(parts := s.parts - {a})
  {
    ReachableInv(s);
    assert InTxn(s, a) && SlotOk(s, a);
    LateCheckFails(s, a);
  }

  /** The checks of the Commit loop hold: each tuple still carries the transaction's own lock. */
  lemma CommitFindsItsLocks(s: State, a: At)
    requires Reachable(s) && a in s.parts && s.parts[a].stage.Applying?
    requires s.parts[a].stage.k < |s.parts[a].request.writes|
    ensures LockedFor(s.items, s.parts[a].request, s.parts[a].stage.k)
    ensures a in s.durable && s.parts[a].request == s.durable[a]
  {
    ReachableInv(s);
    assert InTxn(s, a) && SlotOk(s, a);
  }

  /** How far a context has come. */
  function Progress(st: Stage): nat {
    match st
    case Checking(_) => 0
    case Logging => 1
    case Ready => 2
    case Applying(k) => 3 + k
  }

  /** The participant has its Prepared record and has committed, or still has the context to commit with. */
  predicate Bound(s: State, a: At) {
    a in s.durable && (a in s.done || (a in s.parts && Progress(s.parts[a].stage) > 0))
  }

  lemma AfterTheVote(s: State, id: Id, n: int)
    requires Inv(s) && id in s.txns && s.txns[id].phase != Preparing && n in s.txns[id].requests
    ensures Bound(s, At(n, id))
  {
    assert TxnOk(s, id) && InTxn(s, At(n, id)) && SlotOk(s, At(n, id));
  }

  /**
   Once every vote is in, no participant can fail any more. Each has its record
   and its context, or has committed; and whatever happens, a context that has
   not committed keeps its request and only moves on, until it commits.
   */
  lemma DecisionIsFinal(s: State, id: Id, n: int, e: Step)
    requires Reachable(s) && id in s.txns && s.txns[id].phase != Preparing && n in s.txns[id].requests && Enabled(s, e)
    ensures var a := At(n, id);
      var s' := Apply(s, e);
      && Bound(s, a) && Bound(s', a)
      && (a in s.done ==> a in s'.done)
      && (a !in s.done && a !in s'.done ==>
            && s'.parts[a].request == s.parts[a].request
            && Progress(s.parts[a].stage) <= Progress(s'.parts[a].stage))
  {
    ReachableInv(s);
    StepKeeps(s, e);
    AfterTheVote(s, id, n);
    VoteStays(s, id, n, e);
    AfterTheVote(Apply(s, e), id, n);
    MovesOn(s, At(n, id), e);
  }

  lemma MovesOn(s: State, a: At, e: Step)
    requires Enabled(s, e) && Bound(s, a)
    ensures var s' := Apply(s, e);
      && (a in s.done ==> a in s'.done)
      && (a !in s.done && a !in s'.done ==>
            && a in s'.parts && s'.parts[a].request == s.parts[a].request
            && Progress(s.parts[a].stage) <= Progress(s'.parts[a].stage))
  {
  }

  lemma VoteStays(s: State, id: Id, n: int, e: Step)
    requires Enabled(s, e) && id in s.txns && s.txns[id].phase != Preparing && n in s.txns[id].requests
    ensures var s' := Apply(s, e);
      id in s'.txns && s'.txns[id].phase != Preparing && n in s'.txns[id].requests
  {
  }
}
