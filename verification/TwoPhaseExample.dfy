/** One run in which both participants of a transaction commit, so that atomicity is not about nothing. */
module TwoPhaseExample {
  import opened Options
  import opened PreparedTxn
  import opened TwoPhaseCommit
  import opened TwoPhaseProofs

  lemma Go(s: State, e: Step, s': State)
    requires Reachable(s) && Enabled(s, e) && Apply(s, e) == s'
    ensures Reachable(s')
  {
    var s0, steps :| Init(s0) && Legal(s0, steps) && After(s0, steps) == s;
    OneMore(s0, steps, e);
  }

  // ----- one participant with one write -----

  /** The participant has not heard of the transaction, and its tuple is locked for it. */
  predicate IsNew(s: State, a: At) {
    && InTxn(s, a) && a !in s.parts && a !in s.queued && a !in s.durable
    && |s.txns[a.id].requests[a.node].writes| == 1 && LockedFor(s.items, s.txns[a.id].requests[a.node], 0)
  }

  function Prepared(s: State, a: At): State
    requires InTxn(s, a)
  {
    var r := s.txns[a.id].requests[a.node];
    s.(parts := s.parts[a := Part(r, Ready)], durable := s.durable[a := r], yes := s.yes + {a})
  }

  /** The write is checked and its record is in the log buffer. */
  function Logged(s: State, a: At): State
    requires InTxn(s, a)
  {
    var r := s.txns[a.id].requests[a.node];
    s.(parts := s.parts[a := Part(r, Logging)], queued := s.queued[a := r])
  }

  function InCheck(s: State, a: At, k: nat): State
    requires InTxn(s, a)
  {
    s.(parts := s.parts[a := Part(s.txns[a.id].requests[a.node], Checking(k))])
  }

  lemma BegunReachable(s: State, a: At)
    requires Reachable(s) && IsNew(s, a)
    ensures Reachable(InCheck(s, a, 0))
  {
    Go(s, DeliverPrepare(a.id, a.node), InCheck(s, a, 0));
  }

  lemma CheckedReachable(s: State, a: At)
    requires Reachable(s) && IsNew(s, a)
    ensures Reachable(InCheck(s, a, 1))
  {
    BegunReachable(s, a);
    var s1, s2 := InCheck(s, a, 0), InCheck(s, a, 1);
    assert DoCheckWrite(s1, a).parts == s2.parts;
    Go(s1, CheckWrite(a), s2);
  }

  lemma LoggedReachable(s: State, a: At)
    requires Reachable(s) && IsNew(s, a)
    ensures Reachable(Logged(s, a))
  {
    CheckedReachable(s, a);
    assert DoLogPrepare(InCheck(s, a, 1), a).parts == Logged(s, a).parts;
    Go(InCheck(s, a, 1), LogPrepare(a), Logged(s, a));
  }

  /** Prepare, its check, its record and its answer. */
  lemma PreparedReachable(s: State, a: At)
    requires Reachable(s) && IsNew(s, a)
    ensures Reachable(Prepared(s, a))
  {
    LoggedReachable(s, a);
    var r := s.txns[a.id].requests[a.node];
    var s4 := Logged(s, a).(queued := s.queued, durable := s.durable[a := r]);
    assert Logged(s, a).queued - {a} == s.queued;
    Go(Logged(s, a), Flush(a), s4);
    assert s4.parts[a := Part(r, Ready)] == Prepared(s, a).parts;
    Go(s4, Mark(a), Prepared(s, a));
  }

  /** The decision is taken and the participant is prepared. */
  predicate MayCommit(s: State, a: At) {
    && InTxn(s, a) && s.txns[a.id].phase == Decided && a in s.parts && s.parts[a].stage == Ready
    && var writes := s.parts[a].request.writes;
      |writes| == 1 && writes[0].tuple.Some? && writes[0].tuple.value in s.items
  }

  function Finished(s: State, a: At): State
    requires MayCommit(s, a)
  {
    var r := s.parts[a].request;
    var w := r.writes[0];
    var item := s.items[w.tuple.value].(value := w.value, stamp := r.commit, owner := None);
    s.(parts := s.parts - {a}, taken := s.taken + {a}, done := s.done + {a}, items := s.items[w.tuple.value := item])
  }

  function Took(s: State, a: At): State
    requires a in s.parts
  {
    s.(parts := s.parts[a := Part(s.parts[a].request, Applying(0))], taken := s.taken + {a})
  }

  lemma TookReachable(s: State, a: At)
    requires Reachable(s) && MayCommit(s, a)
    ensures Reachable(Took(s, a))
  {
    Go(s, DeliverCommit(a.id, a.node), Took(s, a));
  }

  function WithWrite(s: State, a: At): State
    requires MayCommit(s, a)
  {
    Finished(s, a).(parts := s.parts[a := Part(s.parts[a].request, Applying(1))], done := s.done)
  }

  lemma InstalledReachable(s: State, a: At)
    requires Reachable(s) && MayCommit(s, a)
    ensures Reachable(WithWrite(s, a))
  {
    TookReachable(s, a);
    var s1, s2 := Took(s, a), WithWrite(s, a);
    assert DoInstall(s1, a, None).parts == s2.parts;
    Go(s1, Install(a, None), s2);
  }

  /** Commit, its write and its end. */
  lemma CommittedReachable(s: State, a: At)
    requires Reachable(s) && MayCommit(s, a)
    ensures Reachable(Finished(s, a))
  {
    InstalledReachable(s, a);
    var s2 := WithWrite(s, a);
    assert s2.parts - {a} == s.parts - {a};
    Go(s2, Finish(a), Finished(s, a));
  }

  // ----- the transaction -----

  const ID := Id(0, "0123456789abcdef", 7)

  function TupleOn(n: int): Tuple { Tuple(0, 1, n) }

  function RequestTo(n: int): Request {
    Request(PARTICIPANT_REPLY_VERSION, Some(ID), 7, 5, 6, [1, 2], n, [Write(Some(TupleOn(n)), "t", true, n, "new")])
  }

  function TheTxn(phase: Phase): Txn { Txn(5, 6, Cornus, map[1 := RequestTo(1), 2 := RequestTo(2)], phase) }

  function Locked(n: int): Item { Item(n, Some(5), 0, n, "old", 0) }

  /** Both tuples are locked and the requests are on their way. */
  function Sent(): State {
    State(map[ID := TheTxn(Preparing)], {5}, map[TupleOn(1) := Locked(1), TupleOn(2) := Locked(2)],
          map[], map[], map[], {}, {}, {}, {}, {})
  }

  lemma SentReachable()
    ensures Reachable(Sent())
  {
    var free := Item(1, None, 0, 0, "old", 0);
    var items := map[TupleOn(1) := free, TupleOn(2) := free.(home := 2)];
    var s0 := State(map[], {}, items, map[], map[], map[], {}, {}, {}, {}, {});
    assert Init(s0) && Legal(s0, []) && After(s0, []) == s0;
    var s1 := s0.(items := map[TupleOn(1) := Locked(1), TupleOn(2) := free.(home := 2)]);
    Go(s0, LockTuple(TupleOn(1), 5, 0, 1), s1);
    var s2 := s0.(items := Sent().items);
    Go(s1, LockTuple(TupleOn(2), 5, 0, 2), s2);
    RequestsAreConsistent();
    Go(s2, Send(ID, TheTxn(Preparing)), Sent());
  }

  lemma RequestsAreConsistent()
    ensures Consistent(ID, TheTxn(Preparing))
  {
    var txn := TheTxn(Preparing);
    forall n | n in txn.requests ensures RequestOk(ID, txn, n, txn.requests[n]) {
      var r := txn.requests[n];
      assert |ID.incarnation| == 16;
      assert r == RequestTo(n) && n in r.participants && ValidRequest(r);
    }
  }

  /** Both participants are prepared and the coordinator has decided. */
  function Decision(): State {
    Prepared(Prepared(Sent(), At(1, ID)), At(2, ID)).(txns := map[ID := TheTxn(Decided)])
  }

  lemma DecisionReachable()
    ensures Reachable(Decision())
  {
    SentReachable();
    PreparedReachable(Sent(), At(1, ID));
    var s1 := Prepared(Sent(), At(1, ID));
    PreparedReachable(s1, At(2, ID));
    var s2 := Prepared(s1, At(2, ID));
    assert s2.txns[ID := TheTxn(Decided)] == map[ID := TheTxn(Decided)];
    Go(s2, Vote(ID), Decision());
  }

  /** Some run commits a transaction at both its participants and installs both writes. */
  lemma SomeRunCommits()
    ensures exists s :: Reachable(s) && At(1, ID) in s.taken && At(1, ID) in s.done
                        && At(2, ID) in s.taken && At(2, ID) in s.done
                        && TupleOn(1) in s.items && s.items[TupleOn(1)].value == "new"
                        && TupleOn(2) in s.items && s.items[TupleOn(2)].value == "new"
  {
    DecisionReachable();
    var s := Decision();
    CommittedReachable(s, At(1, ID));
    var s1 := Finished(s, At(1, ID));
    CommittedReachable(s1, At(2, ID));
    var s2 := Finished(s1, At(2, ID));
    assert TupleOn(1) != TupleOn(2);
  }
}
