/** One run in which a write reaches the next writer, so that the newest version is not always the first. */
module CopyExample {
  import opened Options
  import opened PageLockTypes
  import opened PageOwnership
  import opened PageExample
  import opened PageCopies
  import opened CopyTheorems

  /** Node 0 has been granted the page and fetches it from storage. */
  function Fetching(): Data { Data(FirstGrant(), {0}, Some(0), 0, map[], map[0 := Storage]) }

  /** Node 0 has written the page once. */
  function Written(): Data { Data(FirstWriter(), {0}, Some(0), 1, map[0 := 1], map[]) }

  /** Node 1 has asked for the page and node 0 has been told to send it. */
  function Wanted(): Data { Data(Contended(), {0}, Some(0), 1, map[0 := 1], map[1 := Pended(0)]) }

  /** The page is on its way to node 1. */
  function Sent(): Data { Data(Passed(), {1}, Some(1), 1, map[], map[1 := Flying(1)]) }

  lemma FetchingReachable()
    ensures Reachable(Fetching())
  {
    var s0 := Two(FREE, FRESH, FRESH, map[], map[]);
    var d0 := Data(s0, {}, None, 0, map[], map[]);
    assert Start(d0) && Follows(d0, []) && End(d0, []) == d0;
    var s1 := Two(FREE, FRESH.(lock := Exclusive, granting := true, request := Sending), FRESH, map[], map[]);
    ReachableAction(d0, Protocol(LockExclusive(0)), d0.(s := s1));
    ReachableAction(d0.(s := s1), Protocol(Ask(0)), Fetching());
  }

  lemma WrittenReachable()
    ensures Reachable(Written())
  {
    FetchingReachable();
    var d1 := Fetching().(copy := map[0 := 0], via := map[0 := Arrived]);
    ReachableAction(Fetching(), Load(0), d1);
    assert map[0 := Arrived] - {0} == map[];
    var d2 := Written().(version := 0, copy := map[0 := 0]);
    ReachableAction(d1, Protocol(RemoteOK(0)), d2);
    ReachableAction(d2, Write(0), Written());
  }

  lemma ToldReachable()
    ensures Reachable(Wanted().(s := Asked()))
  {
    WrittenReachable();
    assert FirstWriter().nodes[1 := Wish().nodes[1]] == Wish().nodes;
    ReachableAction(Written(), Protocol(LockExclusive(1)), Written().(s := Wish()));
    var g := Asked().g;
    assert [] + [Req(1, true)] == g.queue;
    assert Targets(g) == map[0 := true];
    assert map[] + map[0 := true] == map[0 := true];
    ReachableAction(Written().(s := Wish()), Protocol(Ask(1)), Wanted().(s := Asked()));
  }

  lemma WantedReachable()
    ensures Reachable(Wanted())
  {
    ToldReachable();
    assert map[0 := true] - {0} == map[];
    ReachableAction(Wanted().(s := Asked()), Protocol(PendingArrives(0)), Wanted());
  }

  lemma SentReachable()
    ensures Reachable(Sent())
  {
    WantedReachable();
    var s := Contended();
    var d := Drop(s.g, 0);
    assert Remove([0], 0) == [];
    assert d.holders + [1] == [1] && d.queue[1..] == [];
    assert Transfer(d) == (Passed().g.(src := Some(1)), true);
    assert AnyUnlock(s.g, 0) == Handover(Passed().g, map[1 := true], map[]);
    assert map[] + map[1 := true] == map[1 := true];
    var sent := Wanted().(via := map[1 := Flying(1)]);
    assert PushOut(Wanted(), 0) == sent;
    assert Informed(sent, Passed().g.(src := Some(1)), 1) == map[1 := Flying(1)];
    assert map[0 := 1] - {0} == map[];
    assert LeaveData(sent, 0) == Sent().(s := Contended());
    ReachableAction(Wanted(), Protocol(Unlock(0)), Sent());
  }

  /** Node 1 knows that it owns the page and still waits for it. */
  function Expecting(): Data {
    Sent().(s := Two(Passed().g, FRESH, Passed().nodes[1].(request := Won), map[], map[]))
  }

  lemma ExpectingReachable()
    ensures Reachable(Expecting())
  {
    SentReachable();
    var s1 := Two(Passed().g, FRESH, Passed().nodes[1].(success := true), map[], map[]);
    assert map[1 := true] - {1} == map[];
    ReachableAction(Sent(), Protocol(SuccessArrives(1)), Sent().(s := s1));
    ReachableAction(Sent().(s := s1), Protocol(Notice(1)), Expecting());
  }

  /** Some run brings a write to the next exclusive user. */
  lemma SomeRunBringsTheWrite()
    ensures exists d :: Reachable(d) && d.version == 1 && 1 in d.s.nodes && InExclusiveUse(d.s.nodes[1])
                        && 1 in d.copy && d.copy[1] == 1 && 0 !in d.copy
  {
    ExpectingReachable();
    var d := Expecting().(copy := map[1 := 1], via := map[1 := Arrived]);
    ReachableAction(Expecting(), PushArrives(1), d);
    assert map[1 := Arrived] - {1} == map[];
    var end := d.(s := Two(Passed().g, FRESH, Own(Passed().nodes[1]), map[], map[]), via := map[]);
    ReachableAction(d, Protocol(RemoteOK(1)), end);
    assert InExclusiveUse(end.s.nodes[1]);
  }
}
