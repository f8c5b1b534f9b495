/** Every step of the page-ownership protocol keeps the invariant. */
module PageSteps {
  import opened Options
  import opened PageLockTypes
  import opened PageOwnership

  // ----- sequences -----

  lemma {:induction false} RemoveMember(a: seq<Node>, n: Node, m: Node)
    ensures m in Remove(a, n) <==> m in a && m != n
  {
    if a == [] {
    } else {
      assert a == [a[0]] + a[1..];
      RemoveMember(a[1..], n, m);
    }
  }

  lemma {:induction false} RemoveAbsent(a: seq<Node>, n: Node)
    requires n !in a
    ensures Remove(a, n) == a
  {
    if a == [] {
    } else {
      assert a == [a[0]] + a[1..];
      RemoveAbsent(a[1..], n);
    }
  }

  lemma {:induction false} RemoveFacts(a: seq<Node>, n: Node)
    requires DistinctNodes(a)
    ensures DistinctNodes(Remove(a, n))
    ensures |Remove(a, n)| == if n in a then |a| - 1 else |a|
  {
    if a == [] {
    } else if a[0] == n {
      assert a == [a[0]] + a[1..];
      RemoveAbsent(a[1..], n);
    } else {
      assert a == [a[0]] + a[1..];
      RemoveFacts(a[1..], n);
      RemoveMember(a[1..], n, a[0]);
    }
  }

  lemma {:induction false} ReaderMember(q: seq<Req>, m: Node)
    ensures m in Readers(q) <==> Req(m, false) in q
  {
    if q == [] {
    } else {
      assert q == [q[0]] + q[1..];
      ReaderMember(q[1..], m);
    }
  }

  lemma {:induction false} WriterMember(q: seq<Req>, r: Req)
    ensures r in Writers(q) <==> r in q && r.x
  {
    if q == [] {
    } else {
      assert q == [q[0]] + q[1..];
      WriterMember(q[1..], r);
    }
  }

  lemma {:induction false} ReadersDistinct(q: seq<Req>)
    requires DistinctReqs(q)
    ensures DistinctNodes(Readers(q))
  {
    if q == [] {
    } else {
      ReadersDistinct(q[1..]);
      ReaderMember(q[1..], q[0].node);
    }
  }

  lemma {:induction false} WritersDistinct(q: seq<Req>)
    requires DistinctReqs(q)
    ensures DistinctReqs(Writers(q))
  {
    if q == [] {
    } else {
      WritersDistinct(q[1..]);
      forall i | 0 <= i < |Writers(q[1..])| ensures Writers(q[1..])[i].node != q[0].node {
        WriterMember(q[1..], Writers(q[1..])[i]);
      }
    }
  }

  /** Once the readers are gone the queue holds writers only. */
  lemma {:induction false} OnlyWriters(q: seq<Req>)
    ensures Writers(Writers(q)) == Writers(q) && Readers(Writers(q)) == []
  {
    if q == [] {
    } else {
      OnlyWriters(q[1..]);
      if q[0].x {
        assert Writers(q) == [q[0]] + Writers(q[1..]);
        assert Writers(q)[1..] == Writers(q[1..]);
      } else {
        assert Writers(q) == Writers(q[1..]);
      }
    }
  }

  lemma {:induction false} CountEnqueue(q: seq<Req>, r: Req)
    ensures Readers(q + [r]) == Readers(q) + (if r.x then [] else [r.node])
    ensures Writers(q + [r]) == Writers(q) + (if r.x then [r] else [])
  {
    if q == [] {
      assert [] + [r] == [r];
    } else {
      assert (q + [r])[1..] == q[1..] + [r];
      CountEnqueue(q[1..], r);
    }
  }

  // ----- steps of one node that leave the manager alone -----

  /** Only node `n` has changed, and it is in order again. */
  lemma OneNodeKeeps(s: State, s': State, n: Node)
    requires Inv(s) && n in s.nodes && s'.g == s.g && n in s'.nodes && s'.nodes == s.nodes[n := s'.nodes[n]]
    requires forall m :: m != n ==> Get(s'.pend, m) == Get(s.pend, m) && Get(s'.grant, m) == Get(s.grant, m)
    requires NodeOkIn(s', n)
    ensures Inv(s')
  {
    forall m | m in s'.nodes ensures NodeOkIn(s', m) { if m != n { assert NodeOkIn(s, m); } }
    forall m | m in s'.g.holders || Queued(s'.g, m) || m in s'.pend || m in s'.grant ensures m in s'.nodes {
      if m != n { assert Get(s'.pend, m) == Get(s.pend, m) && Get(s'.grant, m) == Get(s.grant, m); }
    }
  }

  predicate IsLocal(s: State, e: Step)
    requires Enabled(s, e)
  {
    match e
    case Ask(_) => false
    case AskEvict(_) => false
    case Unlock(n) => !Unlatch(s.nodes[n]).1
    case PendingArrives(n) => !OnPending(s.nodes[n], s.pend[n]).1
    case _ => true
  }

  lemma LocalStepNode(s: State, e: Step)
    requires Inv(s) && Enabled(s, e) && IsLocal(s, e)
    ensures e.n in Apply(s, e).nodes && NodeOkIn(Apply(s, e), e.n)
  {
    assert NodeOkIn(s, e.n);
  }

  lemma LocalStepKeeps(s: State, e: Step)
    requires Inv(s) && Enabled(s, e) && IsLocal(s, e)
    ensures Inv(Apply(s, e))
  {
    LocalStepNode(s, e);
    OneNodeKeeps(s, Apply(s, e), e.n);
  }

  // ----- a request reaches the manager -----

  function Asked(s: State, n: Node): Answer
    requires n in s.nodes
  {
    if s.nodes[n].lock == Exclusive then RequestExclusive(s.g, n) else RequestShared(s.g, n)
  }

  /** A node with a request on its way is not queued, and owns the page only to upgrade. */
  lemma AskFacts(s: State, n: Node)
    requires Inv(s) && n in s.nodes && s.nodes[n].request == Sending
    ensures !Queued(s.g, n) && n !in s.grant
    ensures n in s.g.holders ==> s.nodes[n].lock == Exclusive && s.nodes[n].mode == SHARED && s.g.lock.Shared?
    ensures s.g.pending && s.g.queue != [] ==> s.g.src != Some(n)
  {
    assert NodeOkIn(s, n);
    if s.g.queue != [] { assert s.g.queue[0] in s.g.queue; }
  }

  lemma EnqueueOk(g: Global, n: Node, x: bool)
    requires DistinctReqs(g.queue) && !Queued(g, n)
    requires g.sNum == CountReaders(g.queue) && g.xNum == CountWriters(g.queue)
    ensures var g' := Enqueue(g, n, x);
      && DistinctReqs(g'.queue) && g'.sNum == CountReaders(g'.queue) && g'.xNum == CountWriters(g'.queue)
      && forall m :: Queued(g', m) <==> m == n || Queued(g, m)
  {
    CountEnqueue(g.queue, Req(n, x));
    forall i | 0 <= i < |g.queue| ensures g.queue[i].node != n {
      assert g.queue[i] in g.queue;
      assert g.queue[i] == Req(n, true) || g.queue[i] == Req(n, false) || g.queue[i].node != n;
    }
  }

  /** A first request that somebody stands in the way of starts a round with a target. */
  lemma RoundOk(g: Global, n: Node, x: bool)
    requires GlobalOk(g) && g.queue == [] && !Queued(g, n) && |g.holders| > 0
    requires g.lock.Shared? ==> x
    requires |g.holders| == 1 ==> g.holders[0] != n
    ensures GlobalOk(StartRound(Enqueue(g, n, x)))
  {
    var g' := StartRound(Enqueue(g, n, x));
    EnqueueOk(g, n, x);
    assert g'.queue == [Req(n, x)];
    var h := if g.holders[0] == n then g.holders[1] else g.holders[0];
    assert h in g'.holders && h != n;
  }

  lemma JoinOk(g: Global, n: Node, x: bool)
    requires GlobalOk(g) && g.queue != [] && !Queued(g, n)
    ensures GlobalOk(Enqueue(g, n, x))
  {
    EnqueueOk(g, n, x);
    var h :| h in g.holders && h != g.queue[0].node;
    assert h in Enqueue(g, n, x).holders && Enqueue(g, n, x).queue[0] == g.queue[0];
  }

  function Requested(g: Global, n: Node, x: bool): Answer {
    if x then RequestExclusive(g, n) else RequestShared(g, n)
  }

  lemma RequestOk(g: Global, n: Node, x: bool)
    requires GlobalOk(g) && MayAsk(g, n, x)
    ensures GlobalOk(Requested(g, n, x).g)
  {
    if Requested(g, n, x).round { RoundOk(g, n, x); }
    else if !Requested(g, n, x).granted { JoinOk(g, n, x); }
  }

  lemma AskGlobal(s: State, n: Node)
    requires Inv(s) && n in s.nodes && s.nodes[n].request == Sending
    ensures GlobalOk(Asked(s, n).g)
  {
    AskFacts(s, n);
    RequestOk(s.g, n, s.nodes[n].lock == Exclusive);
  }

  lemma AskNode(s: State, n: Node)
    requires Inv(s) && n in s.nodes && s.nodes[n].request == Sending
    ensures NodeOkIn(DoAsk(s, n), n)
  {
    AskFacts(s, n);
    assert NodeOkIn(s, n);
    if !Asked(s, n).granted { AskQueued(s, n); }
  }

  /** The queue of a request that is not granted at once. */
  lemma AskQueued(s: State, n: Node)
    requires Inv(s) && n in s.nodes && s.nodes[n].request == Sending && !Asked(s, n).granted
    ensures Req(n, s.nodes[n].lock == Exclusive) in Asked(s, n).g.queue && Queued(Asked(s, n).g, n)
    ensures Asked(s, n).g.holders == s.g.holders && Asked(s, n).g.lock == s.g.lock
  {
    assert Req(n, s.nodes[n].lock == Exclusive) in Enqueue(s.g, n, s.nodes[n].lock == Exclusive).queue;
  }

  lemma AskOther(s: State, n: Node, m: Node)
    requires Inv(s) && n in s.nodes && s.nodes[n].request == Sending && m in s.nodes && m != n
    ensures NodeOkIn(DoAsk(s, n), m)
  {
    AskFacts(s, n);
    assert NodeOkIn(s, m);
    EnqueueOk(s.g, n, s.nodes[n].lock == Exclusive);
  }

  lemma AskKeeps(s: State, n: Node)
    requires Inv(s) && n in s.nodes && s.nodes[n].request == Sending
    ensures Inv(DoAsk(s, n))
  {
    var s' := DoAsk(s, n);
    AskFacts(s, n);
    AskGlobal(s, n);
    forall m | m in s'.nodes ensures NodeOkIn(s', m) { if m == n { AskNode(s, n); } else { AskOther(s, n, m); } }
    EnqueueOk(s.g, n, s.nodes[n].lock == Exclusive);
  }

  // ----- a holder gives the page up -----

  /** Node `n`, in state `l`, is about to leave; everyone else is in order. */
  ghost predicate Leaves(s: State, n: Node, l: Local) {
    && GlobalOk(s.g) && n in s.nodes
    && (forall m :: m in s.nodes && m != n ==> NodeOkIn(s, m))
    && (forall m :: m in s.g.holders || Queued(s.g, m) || m in s.pend || m in s.grant ==> m in s.nodes)
    && n in s.g.holders && s.g.pending && s.g.src != Some(n) && n !in s.pend
    && LocalOk(l) && l.mode == NONE && !l.pending && !Granted(l, Get(s.grant, n)) && GrantOk(s.g, n, l, Get(s.grant, n))
    && (Queued(s.g, n) ==> l.lock == Exclusive)
  }

  /** The manager after the leave, when the next owners could be decided. */
  ghost predicate Passes(g: Global, n: Node, next: Global) {
    && (forall m :: m in g.holders ==> m == n || g.src == Some(m))
    && DistinctNodes(next.holders) && DistinctReqs(next.queue)
    && (if next.lock == Exclusive then |next.holders| == 1 else next.lock.n == |next.holders|)
    && next.sNum == CountReaders(next.queue) && next.xNum == CountWriters(next.queue)
    && !next.pending && next.src == g.src && g.src.Some? && g.src.value in next.holders
    && (forall m :: m in next.holders ==> Req(m, next.lock == Exclusive) in g.queue && !Queued(next, m))
    && (forall r :: r in g.queue ==> r in next.queue || r.node in next.holders)
    && (forall r :: r in next.queue ==> r in g.queue)
    && (next.lock.Shared? ==> forall r :: r in next.queue ==> r.x)
  }

  lemma DropFacts(g: Global, n: Node)
    requires GlobalOk(g) && n in g.holders
    ensures var d := Drop(g, n);
      && DistinctNodes(d.holders) && d.lock == Shared(|d.holders|) && |d.holders| == |g.holders| - 1
      && forall m :: m in d.holders <==> m in g.holders && m != n
  {
    RemoveFacts(g.holders, n);
    forall m ensures m in Drop(g, n).holders <==> m in g.holders && m != n { RemoveMember(g.holders, n, m); }
  }

  lemma HeadFacts(q: seq<Req>)
    requires DistinctReqs(q) && q != []
    ensures DistinctReqs(q[1..])
    ensures forall r :: r in q[1..] ==> r.node != q[0].node
    ensures forall r :: r in q <==> r == q[0] || r in q[1..]
  {
    assert q == [q[0]] + q[1..];
  }

  /** The page passes to one writer. */
  lemma PassToWriter(g: Global, n: Node)
    requires GlobalOk(g) && g.pending && n in g.holders && g.src != Some(n)
    requires Transfer(Drop(g, n)).1 && g.queue[0].x
    ensures Passes(g, n, Transfer(Drop(g, n)).0)
    ensures Transfer(Drop(g, n)).0.queue == g.queue[1..]
  {
    DropFacts(g, n);
    HeadFacts(g.queue);
    var d := Drop(g, n);
    var next := Transfer(d).0;
    assert next.holders == [g.queue[0].node];
    forall m | m in g.holders ensures m == n || g.src == Some(m) {
      assert m != n ==> m in d.holders;
    }
  }

  /** The readers taken out of a queue, and what is left of it. */
  lemma BatchFacts(q: seq<Req>)
    requires DistinctReqs(q) && q != [] && !q[0].x
    ensures var all := [q[0].node] + Readers(q[1..]);
      var left := Writers(q[1..]);
      && DistinctNodes(all) && DistinctReqs(left) && |all| == CountReaders(q)
      && CountReaders(left) == 0 && CountWriters(left) == CountWriters(q)
      && (forall m :: m in all ==> Req(m, false) in q && Req(m, false) !in left && Req(m, true) !in left)
      && (forall r :: r in left ==> r in q && r.x)
      && (forall r :: r in q ==> r in left || r.node in all)
  {
    var rest := q[1..];
    HeadFacts(q);
    ReadersDistinct(rest);
    WritersDistinct(rest);
    OnlyWriters(rest);
    forall m ensures m in Readers(rest) <==> Req(m, false) in rest { ReaderMember(rest, m); }
    forall r ensures r in Writers(rest) <==> r in rest && r.x { WriterMember(rest, r); }
    assert forall r :: r in rest && !r.x ==> r == Req(r.node, false);
    forall m | m in Readers(rest) ensures Req(m, true) !in rest { OneRequestEach(rest, m); }
  }

  lemma OneRequestEach(q: seq<Req>, m: Node)
    requires DistinctReqs(q) && Req(m, false) in q
    ensures Req(m, true) !in q
  {
    var i :| 0 <= i < |q| && q[i] == Req(m, false);
    assert forall j :: 0 <= j < |q| && j != i ==> q[j].node != m;
  }

  /** The page passes to all queued readers at once. */
  lemma PassToReaders(g: Global, n: Node)
    requires GlobalOk(g) && g.pending && n in g.holders && g.src != Some(n)
    requires Transfer(Drop(g, n)).1 && !g.queue[0].x
    ensures Passes(g, n, Transfer(Drop(g, n)).0)
    ensures Transfer(Drop(g, n)).0.queue == Writers(g.queue[1..])
  {
    DropFacts(g, n);
    BatchFacts(g.queue);
    assert g.lock == Exclusive && g.holders == [n] && Drop(g, n).holders == [];
    var all := [g.queue[0].node] + Readers(g.queue[1..]);
    assert [] + all == all;
    var next := Transfer(Drop(g, n)).0;
    assert next == Global(Shared(|all|), all, Writers(g.queue[1..]), false, g.src, g.sNum - |all|, g.xNum);
  }

  lemma PassFacts(g: Global, n: Node)
    requires GlobalOk(g) && g.pending && n in g.holders && g.src != Some(n) && Transfer(Drop(g, n)).1
    ensures Passes(g, n, Transfer(Drop(g, n)).0)
  {
    if g.queue[0].x { PassToWriter(g, n); } else { PassToReaders(g, n); }
  }

  lemma PassedGlobal(g: Global, n: Node)
    requires GlobalOk(g) && g.pending && n in g.holders && g.src != Some(n) && Transfer(Drop(g, n)).1
    ensures GlobalOk(AnyUnlock(g, n).g)
  {
    PassFacts(g, n);
    var next := Transfer(Drop(g, n)).0;
    var g' := AnyUnlock(g, n).g;
    if next.queue != [] {
      assert next.queue[0] in next.queue;
      assert Queued(next, next.queue[0].node);
      assert g.src.value in g'.holders && g.src.value != g'.queue[0].node;
    }
  }

  /** Too early: the round goes on, and still has a target. */
  lemma StillGlobal(g: Global, n: Node)
    requires GlobalOk(g) && g.pending && n in g.holders && g.src != Some(n) && !Transfer(Drop(g, n)).1
    ensures GlobalOk(Drop(g, n)) && Transfer(Drop(g, n)).0 == Drop(g, n)
    ensures g.lock.Shared?
  {
    DropFacts(g, n);
    var d := Drop(g, n);
    assert |d.holders| > 0;
    var h := if d.holders[0] != g.queue[0].node then d.holders[0] else d.holders[1];
    assert h in d.holders && h != d.queue[0].node;
  }

  /** What a completed round means for one node. */
  lemma PassedFacts(g: Global, n: Node, m: Node)
    requires GlobalOk(g) && g.pending && n in g.holders && g.src != Some(n) && Transfer(Drop(g, n)).1
    ensures var h := AnyUnlock(g, n);
      && (m != n && m in g.holders ==> g.src == Some(m))
      && (if m in h.g.holders
          then
            && Req(m, h.g.lock == Exclusive) in g.queue && !Queued(h.g, m)
            && Get(h.grants, m) == Some(h.g.lock == Exclusive)
          else (Queued(h.g, m) <==> Queued(g, m)) && Get(h.grants, m) == None)
      && (Req(m, true) in h.g.queue ==> Req(m, true) in g.queue)
      && (Req(m, false) in h.g.queue ==> Req(m, false) in g.queue)
      && Get(h.pendings, m) == (if m in h.g.holders && h.g.pending then Some(h.g.lock == Exclusive) else None)
      && (m in h.g.holders && h.g.pending ==> h.g.src != Some(m))
      && (m in h.g.holders && h.g.lock == Exclusive ==> g.src == Some(m))
  {
    PassFacts(g, n);
    var next := Transfer(Drop(g, n)).0;
    if next.queue != [] {
      assert next.queue[0] in next.queue;
      assert Queued(next, next.queue[0].node);
    }
  }

  lemma PassedNode(s: State, n: Node, l: Local, m: Node)
    requires Leaves(s, n, l) && Transfer(Drop(s.g, n)).1 && m in s.nodes
    ensures NodeOkIn(GiveUp(s, n, l), m)
  {
    if m == n { PassedSelf(s, n, l); } else { PassedOther(s, n, l, m); }
  }

  lemma PassedOther(s: State, n: Node, l: Local, m: Node)
    requires Leaves(s, n, l) && Transfer(Drop(s.g, n)).1 && m in s.nodes && m != n
    ensures NodeOkIn(GiveUp(s, n, l), m)
  {
    PassedFacts(s.g, n, m);
    assert NodeOkIn(s, m);
    var h := AnyUnlock(s.g, n);
    var k := s.nodes[m];
    var grant := Get(s.grant + h.grants, m);
    assert !k.pending && Get(s.pend, m) == None;
    if m in h.g.holders {
      assert Queued(s.g, m) && !Granted(k, Get(s.grant, m));
      assert grant == Some(h.g.lock == Exclusive);
      assert h.g.lock == Exclusive <==> k.lock == Exclusive by {
        if Req(m, false) in s.g.queue { OneRequestEach(s.g.queue, m); }
      }
    } else {
      assert grant == Get(s.grant, m);
      assert Queued(h.g, m) <==> Queued(s.g, m);
    }
    assert GrantOk(h.g, m, k, grant);
    assert HolderOk(h.g, m, k, grant);
    assert ToldOk(h.g, m, k, Get(s.pend + h.pendings, m));
  }

  lemma PassedSelf(s: State, n: Node, l: Local)
    requires Leaves(s, n, l) && Transfer(Drop(s.g, n)).1
    ensures NodeOkIn(GiveUp(s, n, l), n)
  {
    PassedFacts(s.g, n, n);
    var h := AnyUnlock(s.g, n);
    if Queued(s.g, n) {
      assert Req(n, true) in s.g.queue;
      if Req(n, false) in s.g.queue { OneRequestEach(s.g.queue, n); }
    }
    assert n !in h.g.holders;
    assert HolderOk(h.g, n, l, Get(s.grant + h.grants, n));
    assert GrantOk(h.g, n, l, Get(s.grant + h.grants, n));
  }

  lemma StillNode(s: State, n: Node, l: Local, m: Node)
    requires Leaves(s, n, l) && !Transfer(Drop(s.g, n)).1 && m in s.nodes
    ensures NodeOkIn(GiveUp(s, n, l), m)
  {
    StillGlobal(s.g, n);
    DropFacts(s.g, n);
    if m != n { assert NodeOkIn(s, m); }
  }

  lemma GiveUpKeeps(s: State, n: Node, l: Local)
    requires Leaves(s, n, l)
    ensures Inv(GiveUp(s, n, l))
  {
    var s' := GiveUp(s, n, l);
    DropFacts(s.g, n);
    if Transfer(Drop(s.g, n)).1 {
      PassFacts(s.g, n);
      PassedGlobal(s.g, n);
      forall m | m in s'.nodes ensures NodeOkIn(s', m) { PassedNode(s, n, l, m); }
    } else {
      StillGlobal(s.g, n);
      forall m | m in s'.nodes ensures NodeOkIn(s', m) { StillNode(s, n, l, m); }
    }
  }
}
