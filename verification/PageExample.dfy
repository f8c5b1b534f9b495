/** One run in which a page passes from one writer to another, so that coherence is not about nothing. */
module PageExample {
  import opened Options
  import opened PageLockTypes
  import opened PageOwnership
  import opened PageTheorems

  function Two(g: Global, a: Local, b: Local, pend: map<Node, bool>, grant: map<Node, bool>): State {
    State(g, map[0 := a, 1 := b], pend, grant)
  }

  /** Node 0 uses the page exclusively, node 1 has nothing yet. */
  function FirstWriter(): State {
    Two(Global(Exclusive, [0], [], false, None, 0, 0),
        FRESH.(lock := Exclusive, mode := EXCLUSIVE, released := false), FRESH, map[], map[])
  }

  /** Node 1 wants the page and has not asked the manager yet. */
  function Wish(): State {
    var s := FirstWriter();
    Two(s.g, s.nodes[0], FRESH.(lock := Exclusive, granting := true, request := Sending), map[], map[])
  }

  /** Node 1 is queued and the message to node 0 is on its way. */
  function Asked(): State {
    Two(Global(Exclusive, [0], [Req(1, true)], true, Some(1), 0, 1), FirstWriter().nodes[0],
        FRESH.(lock := Exclusive, granting := true, request := Waiting), map[0 := true], map[])
  }

  /** Node 1 has asked for the page and node 0 has been told. */
  function Contended(): State {
    Two(Global(Exclusive, [0], [Req(1, true)], true, Some(1), 0, 1),
        FRESH.(lock := Exclusive, mode := EXCLUSIVE, released := false, pending := true),
        FRESH.(lock := Exclusive, granting := true, request := Waiting), map[], map[])
  }

  /** Node 0 has let go; node 1's grant is on its way. */
  function Passed(): State {
    Two(Global(Exclusive, [1], [], false, None, 0, 0), FRESH,
        FRESH.(lock := Exclusive, granting := true, request := Waiting), map[], map[1 := true])
  }

  /** Node 0 has got the page from the manager and not noticed yet. */
  function FirstGrant(): State {
    Two(Global(Exclusive, [0], [], false, None, 0, 0),
        FRESH.(lock := Exclusive, granting := true, request := Won), FRESH, map[], map[])
  }

  lemma FirstGrantReachable()
    ensures Reachable(FirstGrant())
  {
    var s0 := Two(FREE, FRESH, FRESH, map[], map[]);
    assert Init(s0) && Legal(s0, []) && After(s0, []) == s0;
    var s1 := Two(FREE, FRESH.(lock := Exclusive, granting := true, request := Sending), FRESH, map[], map[]);
    ReachableStep(s0, LockExclusive(0), s1);
    ReachableStep(s1, Ask(0), FirstGrant());
  }

  lemma FirstWriterReachable()
    ensures Reachable(FirstWriter())
  {
    FirstGrantReachable();
    ReachableStep(FirstGrant(), RemoteOK(0), FirstWriter());
  }

  lemma WishReachable()
    ensures Reachable(Wish())
  {
    FirstWriterReachable();
    assert FirstWriter().nodes[1 := Wish().nodes[1]] == Wish().nodes;
    ReachableStep(FirstWriter(), LockExclusive(1), Wish());
  }

  lemma AskedReachable()
    ensures Reachable(Asked())
  {
    WishReachable();
    var g := Asked().g;
    assert [] + [Req(1, true)] == g.queue;
    assert Targets(g) == map[0 := true];
    assert map[] + map[0 := true] == map[0 := true];
    ReachableStep(Wish(), Ask(1), Asked());
  }

  lemma ContendedReachable()
    ensures Reachable(Contended())
  {
    AskedReachable();
    assert map[0 := true] - {0} == map[];
    ReachableStep(Asked(), PendingArrives(0), Contended());
  }

  lemma PassedReachable()
    ensures Reachable(Passed())
  {
    ContendedReachable();
    var s := Contended();
    var d := Drop(s.g, 0);
    assert Remove([0], 0) == [];
    assert d.holders + [1] == [1] && d.queue[1..] == [];
    assert Transfer(d) == (Passed().g.(src := Some(1)), true);
    assert AnyUnlock(s.g, 0) == Handover(Passed().g, map[1 := true], map[]);
    assert map[] + map[1 := true] == map[1 := true];
    ReachableStep(s, Unlock(0), Passed());
  }

  /** Some run takes the page from one exclusive user to another. */
  lemma SomeRunPassesThePage()
    ensures exists s :: Reachable(s) && 1 in s.nodes && InExclusiveUse(s.nodes[1]) && s.g.holders == [1]
  {
    PassedReachable();
    var s := Passed();
    var l := s.nodes[1];
    var s1 := Two(s.g, FRESH, l.(success := true), map[], map[]);
    assert map[1 := true] - {1} == map[];
    ReachableStep(s, SuccessArrives(1), s1);
    var s2 := Two(s.g, FRESH, l.(request := Won), map[], map[]);
    ReachableStep(s1, Notice(1), s2);
    var s3 := Two(s.g, FRESH, Own(l), map[], map[]);
    ReachableStep(s2, RemoteOK(1), s3);
    assert InExclusiveUse(s3.nodes[1]);
  }
}
