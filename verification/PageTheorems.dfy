/** What holds in every run of the page-ownership protocol. */
module PageTheorems {
  import opened Options
  import opened PageLockTypes
  import opened PageOwnership
  import opened PageSteps

  // ----- the invariant holds in every run -----

  lemma UnlockLeaves(s: State, n: Node)
    requires Inv(s) && n in s.nodes && InUse(s.nodes[n]) && Unlatch(s.nodes[n]).1
    ensures Leaves(s, n, Unlatch(s.nodes[n]).0)
  {
    assert NodeOkIn(s, n);
  }

  lemma PendingLeaves(s: State, n: Node)
    requires Inv(s) && n in s.nodes && n in s.pend && OnPending(s.nodes[n], s.pend[n]).1
    ensures Leaves(s.(pend := s.pend - {n}), n, OnPending(s.nodes[n], s.pend[n]).0)
  {
    var s' := s.(pend := s.pend - {n});
    assert NodeOkIn(s, n);
    forall m | m in s'.nodes && m != n ensures NodeOkIn(s', m) {
      assert NodeOkIn(s, m);
      assert Get(s'.pend, m) == Get(s.pend, m);
    }
  }

  /** An eviction the manager agrees to: nobody waits, so the page just has one owner less. */
  lemma AgreedEvictKeeps(s: State, n: Node)
    requires Inv(s) && n in s.nodes && s.nodes[n].evict == Checked && n in s.g.holders && !s.g.pending
    ensures Inv(DoAskEvict(s, n))
  {
    var s' := DoAskEvict(s, n);
    assert NodeOkIn(s, n);
    DropFacts(s.g, n);
    forall m | m in s'.nodes ensures NodeOkIn(s', m) { assert NodeOkIn(s, m); }
  }

  lemma AskEvictKeeps(s: State, n: Node)
    requires Inv(s) && n in s.nodes && s.nodes[n].evict == Checked
    ensures Inv(DoAskEvict(s, n))
  {
    if n !in s.g.holders || s.g.pending {
      assert NodeOkIn(s, n);
      OneNodeKeeps(s, DoAskEvict(s, n), n);
    } else {
      AgreedEvictKeeps(s, n);
    }
  }

  lemma StepKeeps(s: State, e: Step)
    requires Inv(s) && Enabled(s, e)
    ensures Inv(Apply(s, e))
  {
    if IsLocal(s, e) {
      LocalStepKeeps(s, e);
    } else {
      match e
      case Ask(n) => AskKeeps(s, n);
      case AskEvict(n) => AskEvictKeeps(s, n);
      case Unlock(n) =>
        UnlockLeaves(s, n);
        GiveUpKeeps(s, n, Unlatch(s.nodes[n]).0);
      case PendingArrives(n) =>
        PendingLeaves(s, n);
        GiveUpKeeps(s.(pend := s.pend - {n}), n, OnPending(s.nodes[n], s.pend[n]).0);
    }
  }

  lemma {:induction false} RunKeeps(s: State, steps: seq<Step>)
    requires Inv(s) && Legal(s, steps)
    ensures Inv(After(s, steps))
    decreases |steps|
  {
    if steps == [] {
    } else {
      StepKeeps(s, steps[0]);
      RunKeeps(Apply(s, steps[0]), steps[1..]);
    }
  }

  ghost predicate Reachable(s: State) {
    exists s0, steps :: Init(s0) && Legal(s0, steps) && After(s0, steps) == s
  }

  lemma ReachableInv(s: State)
    requires Reachable(s)
    ensures Inv(s)
  {
    var s0, steps :| Init(s0) && Legal(s0, steps) && After(s0, steps) == s;
    RunKeeps(s0, steps);
  }

  lemma {:induction false} OneMore(s0: State, steps: seq<Step>, e: Step)
    requires Legal(s0, steps) && Enabled(After(s0, steps), e)
    ensures Legal(s0, steps + [e]) && After(s0, steps + [e]) == Apply(After(s0, steps), e)
    decreases |steps|
  {
    if steps == [] {
      assert [] + [e] == [e] && [e][1..] == [];
      assert After(s0, [e]) == After(Apply(s0, e), []);
    } else {
      assert (steps + [e])[1..] == steps[1..] + [e];
      OneMore(Apply(s0, steps[0]), steps[1..], e);
    }
  }

  /** A run goes on with any enabled step. */
  lemma ReachableStep(s: State, e: Step, s': State)
    requires Reachable(s) && Enabled(s, e) && Apply(s, e) == s'
    ensures Reachable(s')
  {
    var s0, steps :| Init(s0) && Legal(s0, steps) && After(s0, steps) == s;
    OneMore(s0, steps, e);
  }

  // ----- coherence -----

  /** While one node uses the page exclusively, no other node uses it at all. */
  lemma Coherence(s: State, n: Node, m: Node)
    requires Reachable(s) && n in s.nodes && m in s.nodes
    requires InExclusiveUse(s.nodes[n]) && InUse(s.nodes[m])
    ensures n == m
  {
    ReachableInv(s);
    assert NodeOkIn(s, n) && NodeOkIn(s, m);
  }

  /** Whoever uses the page is registered with the manager, in the right mode. */
  lemma UsersAreHolders(s: State, n: Node)
    requires Reachable(s) && n in s.nodes && InUse(s.nodes[n])
    ensures n in s.g.holders
    ensures s.nodes[n].lock == Exclusive ==> s.g.lock == Exclusive && s.g.holders == [n]
  {
    ReachableInv(s);
    assert NodeOkIn(s, n);
  }

  // ----- what the code asserts -----

  /** The assertions of the local lock, step by step. */
  predicate LocalChecks(s: State, e: Step)
    requires Enabled(s, e)
  {
    var l := s.nodes[e.n];
    match e
    case LockShared(_) => l.mode == NONE ==> l.lock == Shared(0)
    case RemoteOK(_) => l.granting
    case Notice(_) => l.granting
    case Unlock(_) => l.lock == Exclusive ==> l.mode == EXCLUSIVE
    case PendingArrives(_) =>
      && !l.pending && !(l.granting && l.mode == EXCLUSIVE)
      && (!l.granting ==> l.mode != NONE) && (l.granting && l.mode == SHARED ==> l.lock == Exclusive)
    case SuccessArrives(n) =>
      l.granting && if s.grant[n] then l.lock == Exclusive else l.lock.Shared? && l.lock.n > 0
    case FinishEvict(_) => l.evicting && l.lock == Shared(0) && !l.granting && !l.pending && l.mode != NONE
    case _ => true
  }

  /** Every assertion of the local lock holds, and the manager is only called as it expects. */
  lemma ChecksHold(s: State, e: Step)
    requires Reachable(s) && Enabled(s, e)
    ensures GlobalOk(s.g) && LocalChecks(s, e)
    ensures e.Ask? ==> MayAsk(s.g, e.n, s.nodes[e.n].lock == Exclusive)
    ensures e.Unlock? && Unlatch(s.nodes[e.n]).1 ==> MayLeave(s.g, e.n)
    ensures e.PendingArrives? && OnPending(s.nodes[e.n], s.pend[e.n]).1 ==> MayLeave(s.g, e.n)
    ensures e.AskEvict? && e.n in s.g.holders && !s.g.pending ==> s.g.queue == []
    ensures forall n ::
              n in s.nodes && !Blocked(s.nodes[n]) && s.nodes[n].mode == SHARED ==> s.nodes[n].lock != Exclusive
  {
    ReachableInv(s);
    assert NodeOkIn(s, e.n);
    if e.Ask? { AskFacts(s, e.n); }
    if e.Unlock? && Unlatch(s.nodes[e.n]).1 { UnlockLeaves(s, e.n); }
    if e.PendingArrives? && OnPending(s.nodes[e.n], s.pend[e.n]).1 { PendingLeaves(s, e.n); }
    forall n | n in s.nodes && !Blocked(s.nodes[n]) && s.nodes[n].mode == SHARED ensures s.nodes[n].lock != Exclusive {
      assert NodeOkIn(s, n);
    }
  }

  // ----- rounds and bypass -----

  /**
   While requests wait, a round is under way for the first of them, and some
   other holder has been told to give the page up and has not done so yet.
   */
  lemma RoundHasTarget(s: State)
    requires Reachable(s) && s.g.queue != []
    ensures s.g.pending && s.g.src == Some(s.g.queue[0].node)
    ensures exists n :: n in s.nodes && n in s.g.holders && s.g.src != Some(n) && (n in s.pend || s.nodes[n].pending)
  {
    ReachableInv(s);
    var h :| h in s.g.holders && h != s.g.queue[0].node;
    assert NodeOkIn(s, h);
  }

  /** A holder that was told to leave can always take its next step. */
  predicate CanMoveOn(s: State, n: Node) {
    || Enabled(s, PendingArrives(n)) || Enabled(s, Unlock(n))
    || Enabled(s, SuccessArrives(n)) || Enabled(s, Notice(n)) || Enabled(s, RemoteOK(n))
  }

  lemma ToldCanMove(s: State, n: Node)
    requires n in s.nodes && NodeOkIn(s, n) && (n in s.pend || s.nodes[n].pending)
    ensures CanMoveOn(s, n)
  {
    var l := s.nodes[n];
    if n in s.pend {
      assert Enabled(s, PendingArrives(n));
    } else if !l.granting {
      assert Enabled(s, Unlock(n));
    } else if l.request == Won {
      assert Enabled(s, RemoteOK(n));
    } else if l.success {
      assert Enabled(s, Notice(n));
    } else {
      assert Enabled(s, SuccessArrives(n));
    }
  }

  /** While requests wait, some holder in their way has a step of its own to take. */
  lemma NeverStuck(s: State)
    requires Reachable(s) && s.g.queue != []
    ensures exists n :: n in s.g.holders && s.g.src != Some(n) && CanMoveOn(s, n)
  {
    RoundHasTarget(s);
    ReachableInv(s);
    var n :| n in s.nodes && n in s.g.holders && s.g.src != Some(n) && (n in s.pend || s.nodes[n].pending);
    assert NodeOkIn(s, n);
    ToldCanMove(s, n);
  }

  /** Every request left in the queue has moved strictly forward. */
  ghost predicate Advances(q: seq<Req>, q': seq<Req>) {
    forall j :: 0 <= j < |q'| ==> StoodBehind(q, q'[j], j)
  }

  /** The request stood behind place `j`. */
  ghost predicate StoodBehind(q: seq<Req>, r: Req, j: int) {
    exists i :: 0 <= j < i < |q| && q[i] == r
  }

  lemma {:induction false} WriterPlace(q: seq<Req>, j: nat) returns (i: nat)
    requires j < |Writers(q)|
    ensures j <= i < |q| && q[i] == Writers(q)[j]
  {
    if q[0].x && j == 0 {
      i := 0;
    } else {
      var before := WriterPlace(q[1..], if q[0].x then j - 1 else j);
      i := before + 1;
    }
  }

  /** A transfer of ownership serves the head of the queue and lowers everybody else's position. */
  lemma TransferAdvances(g: Global, n: Node)
    requires GlobalOk(g) && MayLeave(g, n) && Transfer(Drop(g, n)).1
    ensures var g' := AnyUnlock(g, n).g;
      Advances(g.queue, g'.queue) && g.queue[0].node in g'.holders && |g'.queue| < |g.queue|
  {
    PassFacts(g, n);
    if g.queue[0].x {
      PassToWriter(g, n);
      TailAdvances(g.queue);
    } else {
      PassToReaders(g, n);
      WritersAdvance(g.queue);
    }
  }

  lemma TailAdvances(q: seq<Req>)
    requires q != []
    ensures Advances(q, q[1..])
  {
    var rest := q[1..];
    forall j | 0 <= j < |rest| ensures StoodBehind(q, rest[j], j) { assert q[j + 1] == rest[j]; }
  }

  lemma WritersAdvance(q: seq<Req>)
    requires q != []
    ensures Advances(q, Writers(q[1..])) && |Writers(q[1..])| < |q|
  {
    var rest := q[1..];
    forall j | 0 <= j < |Writers(rest)| ensures StoodBehind(q, Writers(rest)[j], j) {
      var i := WriterPlace(rest, j);
      assert q[i + 1] == Writers(rest)[j];
    }
    WritersShort(rest);
  }

  lemma {:induction false} WritersShort(q: seq<Req>)
    ensures |Writers(q)| <= |q|
  {
    if q == [] {
    } else {
      WritersShort(q[1..]);
    }
  }

  lemma LeaveAdvances(g: Global, n: Node)
    requires GlobalOk(g) && MayLeave(g, n)
    ensures AnyUnlock(g, n).g.queue == g.queue || Advances(g.queue, AnyUnlock(g, n).g.queue)
  {
    if Transfer(Drop(g, n)).1 { TransferAdvances(g, n); }
  }

  /** Between two transfers nobody overtakes: a request can only be appended. */
  lemma QueueOnlyGrows(s: State, e: Step)
    requires Reachable(s) && Enabled(s, e)
    ensures s.g.queue <= Apply(s, e).g.queue || Advances(s.g.queue, Apply(s, e).g.queue)
  {
    ReachableInv(s);
    if e.Unlock? {
      if Unlatch(s.nodes[e.n]).1 { UnlockLeaves(s, e.n); LeaveAdvances(s.g, e.n); }
    } else if e.PendingArrives? {
      if OnPending(s.nodes[e.n], s.pend[e.n]).1 { PendingLeaves(s, e.n); LeaveAdvances(s.g, e.n); }
    }
  }
}
