/** The manager's lock of one page, as the object whose methods update it in place. */
module GlobalPageLock {
  import opened Options
  import opened PageLockTypes
  import opened PageOwnership
  import opened PageSteps

  lemma {:induction false} NoReaders(q: seq<Req>)
    requires Readers(q) == []
    ensures Writers(q) == q
  {
    if q == [] {
    } else {
      assert q == [q[0]] + q[1..];
      assert q[0].x;
      NoReaders(q[1..]);
    }
  }

  /** The queue after `done` of its requests were looked at: the writers seen, then the rest. */
  function Walked(q: seq<Req>, done: nat): seq<Req>
    requires done <= |q|
  {
    Writers(q[..done]) + q[done..]
  }

  /** Looking at one more request erases a reader and leaves a writer. */
  lemma WalkStep(q: seq<Req>, done: nat, i: nat)
    requires done <= |q| && i == |Writers(q[..done])| && i < |Walked(q, done)|
    ensures done < |q| && Walked(q, done)[i] == q[done]
    ensures Walked(q, done + 1) ==
            if q[done].x then Walked(q, done) else Walked(q, done)[..i] + Walked(q, done)[i + 1..]
    ensures |Writers(q[..done + 1])| == if q[done].x then i + 1 else i
    ensures Readers(q[..done + 1]) == Readers(q[..done]) + (if q[done].x then [] else [q[done].node])
  {
    assert q[..done + 1] == q[..done] + [q[done]];
    CountEnqueue(q[..done], q[done]);
  }

  /** The request is queued, counted and under a round; nobody's ownership changes. */
  predicate Queues(was: Global, now: Global, r: Req) {
    && now.queue == was.queue + [r] && now.pending && now.lock == was.lock && now.holders == was.holders
    && now.sNum == was.sNum + (if r.x then 0 else 1) && now.xNum == was.xNum + (if r.x then 1 else 0)
  }

  /** The first request in the queue starts a round and tells every other holder; a later one waits its turn. */
  predicate Starts(was: Global, now: Global, n: Node, told: map<Node, bool>) {
    if was.queue == [] then now.src == Some(n) && told == map m | m in was.holders && m != n :: was.lock == Exclusive
    else now.src == was.src && told == map[]
  }

  /** One holder has left the list; the others are where they were. */
  ghost predicate Left(was: seq<Node>, now: seq<Node>, n: Node) {
    exists j :: 0 <= j < |was| && was[j] == n && now == was[..j] + was[j + 1..]
  }

  lemma {:induction false} RemoveBetween(b: seq<Node>, n: Node, c: seq<Node>)
    requires n !in b && n !in c
    ensures Remove(b + [n] + c, n) == b + c
    decreases |b|
  {
    var a := b + [n] + c;
    if b == [] {
      assert a[1..] == c;
      RemoveAbsent(c, n);
    } else {
      assert a[1..] == b[1..] + [n] + c && b == [b[0]] + b[1..];
      RemoveBetween(b[1..], n, c);
    }
  }

  lemma RemoveSplits(a: seq<Node>, n: Node)
    requires DistinctNodes(a) && n in a
    ensures Left(a, Remove(a, n), n)
  {
    var j :| 0 <= j < |a| && a[j] == n;
    assert a == a[..j] + [n] + a[j + 1..];
    RemoveBetween(a[..j], n, a[j + 1..]);
  }

  class GlobalLock {
    var lock: Word
    var holders: seq<Node>
    var queue: seq<Req>
    var pending: bool
    var src: Option<Node>
    var sNum: int
    var xNum: int

    function View(): Global
      reads this
    {
      Global(lock, holders, queue, pending, src, sNum, xNum)
    }

    /** The lock as Reset leaves it. */
    constructor ()
      ensures View() == FREE && GlobalOk(View())
    {
      lock := Shared(0);
      holders := [];
      queue := [];
      pending := false;
      src := None;
      sNum := 0;
      xNum := 0;
    }

    /** Starts a round for `n` and tells every other holder. */
    method SetComputenodePending(n: Node, xpending: bool) returns (told: map<Node, bool>)
      requires queue != [] && queue[0].node == n && src == None && holders != []
      requires xpending <==> lock == Exclusive
      requires xpending ==> |holders| == 1
      modifies this`src
      ensures src == Some(n) && told == Targets(View())
      ensures told == map m | m in holders && m != n :: xpending
    {
      assert src == None;
      src := Some(n);
      told := map[];
      var i := 0;
      while i < |holders|
        invariant 0 <= i <= |holders|
        invariant told == map m | m in holders[..i] && m != n :: xpending
      {
        if holders[i] != n { told := told[holders[i] := xpending]; }
        assert holders[..i + 1] == holders[..i] + [holders[i]];
        i := i + 1;
      }
      assert holders[..i] == holders;
    }

    method LockShared(n: Node) returns (granted: bool, told: map<Node, bool>)
      requires GlobalOk(View()) && MayAsk(View(), n, false)
      modifies this
      ensures GlobalOk(View())
      ensures Answer(View(), granted, told != map[]) == RequestShared(old(View()), n)
      ensures told != map[] ==> told == Targets(View())
      ensures granted <==> old(lock).Shared? && old(queue) == []
      ensures granted ==> lock == Shared(old(lock).n + 1) && holders == old(holders) + [n] && told == map[]
      ensures granted ==> queue == [] && !pending && src == None && sNum == old(sNum) && xNum == old(xNum)
      ensures !granted ==> Queues(old(View()), View(), Req(n, false)) && Starts(old(View()), View(), n, told)
    {
      RequestOk(View(), n, false);
      told := map[];
      if lock != Exclusive && queue == [] {
        assert n !in holders;
        lock := Shared(lock.n + 1);
        holders := holders + [n];
        assert lock == Shared(|holders|);
        return true, told;
      } else if queue == [] {
        assert lock == Exclusive;
        queue := queue + [Req(n, false)];
        pending := true;
        sNum := sNum + 1;
        assert sNum == 1;
        told := SetComputenodePending(n, true);
        RoundTells(View());
        return false, told;
      } else {
        assert pending && lock != Shared(0);
        queue := queue + [Req(n, false)];
        sNum := sNum + 1;
        return false, told;
      }
    }

    method LockExclusive(n: Node) returns (granted: bool, told: map<Node, bool>)
      requires GlobalOk(View()) && MayAsk(View(), n, true)
      modifies this
      ensures GlobalOk(View())
      ensures Answer(View(), granted, told != map[]) == RequestExclusive(old(View()), n)
      ensures told != map[] ==> told == Targets(View())
      ensures granted <==> old(queue) == [] && (old(holders) == [] || (old(lock) == Shared(1) && old(holders) == [n]))
      ensures granted ==> lock == Exclusive && holders == [n] && told == map[]
      ensures granted ==> queue == [] && !pending && src == None && sNum == old(sNum) && xNum == old(xNum)
      ensures !granted ==> Queues(old(View()), View(), Req(n, true)) && Starts(old(View()), View(), n, told)
    {
      RequestOk(View(), n, true);
      told := map[];
      if lock != Shared(0) && !pending {
        assert queue == [] && sNum == 0 && xNum == 0;
        if lock == Shared(1) && holders[0] == n {
          lock := Exclusive;
          return true, told;
        }
        queue := queue + [Req(n, true)];
        pending := true;
        xNum := xNum + 1;
        assert lock == Exclusive ==> |holders| == 1 && n != holders[0];
        told := SetComputenodePending(n, lock == Exclusive);
        RoundTells(View());
        return false, told;
      } else if lock == Shared(0) && !pending {
        assert queue == [] && sNum == 0 && xNum == 0;
        lock := Exclusive;
        holders := holders + [n];
        assert |holders| == 1 && n == holders[0];
        return true, told;
      } else {
        assert pending && |queue| > 0;
        queue := queue + [Req(n, true)];
        xNum := xNum + 1;
        return false, told;
      }
    }

    /** Node `n` gives its ownership up. */
    method UnlockAny(n: Node)
      requires GlobalOk(View()) && n in holders
      modifies this`lock, this`holders
      ensures View() == Drop(old(View()), n)
      ensures lock == (if old(lock) == Exclusive then Shared(0) else Shared(old(lock).n - 1))
      ensures Left(old(holders), holders, n)
    {
      RemoveSplits(holders, n);
      if lock == Exclusive {
        assert |holders| == 1 && holders[0] == n;
        lock := Shared(0);
        holders := Remove(holders, n);
      } else {
        assert lock == Shared(|holders|);
        DropFacts(View(), n);
        lock := Shared(lock.n - 1);
        holders := Remove(holders, n);
        assert lock == Shared(|holders|);
      }
    }

    /** Gives the page to the next requests, if it is free for them. */
    method TransferControl(ghost g: Global, ghost n: Node) returns (granted: bool)
      requires GlobalOk(g) && MayLeave(g, n) && View() == Drop(g, n)
      modifies this
      ensures (View(), granted) == Transfer(Drop(g, n))
      ensures var r := old(queue)[0];
        && (granted <==> old(holders) == [] || old(holders) == [r.node])
        && (granted ==> !pending && src == old(src))
        && (granted && r.x ==> lock == Exclusive && holders == [r.node] && queue == old(queue)[1..])
        && (granted && !r.x ==> lock == Shared(|holders|) && holders == [r.node] + Readers(old(queue)[1..]))
        && (granted && !r.x ==> queue == Writers(old(queue)[1..]))
        && (!granted ==> View() == old(View()))
    {
      DropFacts(g, n);
      assert lock != Exclusive;
      assert queue != [];
      var r := queue[0];
      if lock == Shared(0) {
        assert pending && holders == [] && src == Some(r.node);
        queue := queue[1..];
        if r.x {
          lock := Exclusive;
          holders := holders + [r.node];
          xNum := xNum - 1;
          pending := false;
        } else {
          TakeReaders(r);
        }
        return true;
      } else {
        assert pending && |holders| > 0;
        if lock == Shared(1) && holders[0] == r.node {
          lock := Exclusive;
          xNum := xNum - 1;
          pending := false;
          queue := queue[1..];
          return true;
        }
        return false;
      }
    }

    /** The reader `r` and every other queued reader get the page together. */
    method TakeReaders(r: Req)
      requires lock == Shared(0) && sNum == 1 + CountReaders(queue)
      modifies this`lock, this`holders, this`queue, this`sNum, this`pending
      ensures var all := [r.node] + Readers(old(queue));
        && lock == Shared(|all|) && holders == old(holders) + all && queue == Writers(old(queue))
        && sNum == 0 && !pending
    {
      lock := Shared(1);
      holders := holders + [r.node];
      sNum := sNum - 1;
      if sNum > 0 { TakeQueuedReaders(); } else { NoReaders(queue); }
      pending := false;
      assert sNum == 0;
    }

    /** Walks the queue once, erasing readers and leaving writers where they are. */
    method TakeQueuedReaders()
      requires lock.Shared? && sNum == CountReaders(queue)
      modifies this`lock, this`holders, this`queue, this`sNum
      ensures var all := Readers(old(queue));
        && lock == Shared(old(lock.n) + |all|) && holders == old(holders) + all
        && queue == Writers(old(queue)) && sNum == 0
    {
      ghost var q0, done := queue, 0;
      var i := 0;
      assert q0[..0] == [] && q0[0..] == q0;
      while i < |queue|
        invariant 0 <= done <= |q0| && i == |Writers(q0[..done])|
        invariant queue == Walked(q0, done)
        invariant holders == old(holders) + Readers(q0[..done])
        invariant lock == Shared(old(lock.n) + |Readers(q0[..done])|)
        invariant sNum == CountReaders(q0) - |Readers(q0[..done])|
        decreases |q0| - done
      {
        var q := queue[i];
        WalkStep(q0, done, i);
        if !q.x {
          lock := Shared(lock.n + 1);
          holders := holders + [q.node];
          sNum := sNum - 1;
          queue := queue[..i] + queue[i + 1..];
        } else {
          i := i + 1;
        }
        done := done + 1;
      }
      assert q0[..done] == q0;
    }

    /** Tells every owner that it has the page. */
    method SendLockSuccess() returns (grants: map<Node, bool>)
      requires holders != []
      modifies this`src
      ensures grants == Grants(old(View())) && View() == Announced(old(View()))
      ensures grants == map m | m in holders :: lock == Exclusive
      ensures src == if old(src).Some? && old(src).value in holders then None else old(src)
    {
      grants := map[];
      var i := 0;
      while i < |holders|
        invariant 0 <= i <= |holders|
        invariant grants == map m | m in holders[..i] :: lock == Exclusive
        invariant src == if old(src).Some? && old(src).value in holders[..i] then None else old(src)
      {
        grants := grants[holders[i] := lock == Exclusive];
        if src == Some(holders[i]) { src := None; }
        assert holders[..i + 1] == holders[..i] + [holders[i]];
        i := i + 1;
      }
      assert holders[..i] == holders;
    }

    /** Starts the next round, if requests are left. */
    method TransferPending() returns (told: map<Node, bool>)
      requires !pending && src == None && holders != []
      requires sNum == CountReaders(queue) && xNum == CountWriters(queue)
      requires lock == Exclusive ==> |holders| == 1 && (queue != [] ==> queue[0].node != holders[0])
      requires lock != Exclusive && queue != [] ==> queue[0].x
      modifies this`pending, this`src
      ensures View() == NextRound(old(View())) && told == if queue == [] then map[] else Targets(View())
      ensures queue == [] ==> !pending && src == None && told == map[]
      ensures queue != [] ==> pending && src == Some(queue[0].node)
      ensures queue != [] ==> told == map m | m in holders && m != queue[0].node :: lock == Exclusive
    {
      if pending || queue == [] { return map[]; }
      var r := queue[0];
      pending := true;
      if r.x {
        assert xNum > 0;
        assert lock == Exclusive ==> |holders| == 1 && r.node != holders[0];
        told := SetComputenodePending(r.node, lock == Exclusive);
      } else {
        assert sNum > 0 && lock == Exclusive && |holders| == 1 && r.node != holders[0];
        told := SetComputenodePending(r.node, true);
      }
    }

    /** LRPAnyUnLock: a holder leaves, and everything that follows from it. */
    method AnyUnLock(n: Node) returns (grants: map<Node, bool>, told: map<Node, bool>)
      requires GlobalOk(View()) && MayLeave(View(), n)
      modifies this
      ensures GlobalOk(View())
      ensures Handover(View(), grants, told) == AnyUnlock(old(View()), n)
    {
      ghost var g := View();
      UnlockAny(n);
      var granted := TransferControl(g, n);
      grants, told := map[], map[];
      if granted {
        PassFacts(g, n);
        PassedGlobal(g, n);
        ghost var next := View();
        grants := SendLockSuccess();
        assert queue != [] ==> queue[0] in next.queue && Queued(next, queue[0].node);
        told := TransferPending();
      } else {
        StillGlobal(g, n);
      }
    }

    /** BufferReleaseUnlock: an eviction may take the page away only outside a round. */
    method BufferRelease(n: Node) returns (agree: bool)
      requires GlobalOk(View())
      modifies this`lock, this`holders
      ensures GlobalOk(View())
      ensures agree <==> n in old(holders) && !pending
      ensures View() == if agree then Drop(old(View()), n) else old(View())
      ensures agree ==> lock == Shared(|holders|) && Left(old(holders), holders, n)
    {
      if n !in holders || pending { return false; }
      assert queue == [];
      DropFacts(View(), n);
      UnlockAny(n);
      return true;
    }
  }

  /** A round that has a target tells somebody. */
  lemma RoundTells(g: Global)
    requires GlobalOk(g) && g.pending
    ensures Targets(g) != map[]
  {
    var h :| h in g.holders && h != g.queue[0].node;
    assert h in Targets(g);
  }
}
