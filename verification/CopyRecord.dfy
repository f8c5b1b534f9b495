/** The manager's record of the newest copy: when it moves, and that only that copy is sent to the next owner. */
module CopyRecord {
  import opened Options
  import opened PageLockTypes
  import opened PageOwnership
  import opened PageSteps
  import PageTheorems
  import opened PageCopies
  import opened CopySteps
  import opened CopyTheorems

  // ----- who sends the page -----

  /** Only the node with the newest copy is told to send the page. */
  ghost predicate NewestSends(d: Data) {
    forall n, m: Node :: n in d.via && d.via[n] == Pended(m) ==> d.newest == Some(m)
  }

  /** Whom a round tells to send the page, in either mode. */
  lemma RoundNamesNewest(d: Data, g: Global)
    requires g.src.Some? && (g.lock == Exclusive ==> |g.holders| == 1)
    requires (d.newest.Some? ==> d.newest.value in g.holders) && (g.holders != [] ==> d.newest.Some?)
    ensures forall m: Node :: RoundSource(d, g) == Pended(m) ==> d.newest == Some(m)
  {
  }

  /** Outside a round nobody is told to send the page. */
  lemma NoRoundNoSender(d: Data)
    requires DataInv(d) && d.s.g.src.None?
    ensures NewestSends(d)
  {
    forall n | n in d.via ensures !d.via[n].Pended? { assert CopyOkIn(d, n); }
  }

  /** It is enough to look at the requester of the round. */
  lemma SourceSends(d: Data)
    requires DataInv(d)
    requires d.s.g.src.Some? && d.s.g.src.value in d.via ==>
      forall m: Node :: d.via[d.s.g.src.value] == Pended(m) ==> d.newest == Some(m)
    ensures NewestSends(d)
  {
    forall k, m: Node | k in d.via && d.via[k] == Pended(m) ensures d.newest == Some(m) { assert CopyOkIn(d, k); }
  }

  lemma AskSends(d: Data, n: Node)
    requires DataInv(d) && NewestSends(d) && May(d, Protocol(Ask(n))) && DataInv(Do(d, Protocol(Ask(n))))
    ensures NewestSends(Do(d, Protocol(Ask(n))))
  {
    var d' := Do(d, Protocol(Ask(n)));
    var a := Asked(d.s, n);
    if a.granted {
      NoRoundNoSender(d');
    } else if a.round {
      AskQueued(d.s, n);
      RoundNamesNewest(d, a.g);
      SourceSends(d');
    }
  }

  /** The round goes on: the newest copy is still there, or has just been sent. */
  lemma StillSends(d: Data, n: Node)
    requires NewestSends(d) && (forall k :: k in d.via ==> d.via[k] != Pended(n)) && !Transfer(Drop(d.s.g, n)).1
    ensures NewestSends(LeaveData(d, n))
  {
  }

  /** A finished round: the record, and the source of the next round's requester. */
  lemma PassedShape(d: Data, n: Node)
    requires GlobalOk(d.s.g) && MayLeave(d.s.g, n) && Transfer(Drop(d.s.g, n)).1
    ensures var next := Transfer(Drop(d.s.g, n)).0;
      var g := AnyUnlock(d.s.g, n).g;
      && next.holders != [] && d.s.g.src.Some? && g.holders == next.holders && g.lock == next.lock
      && (g.lock == Exclusive ==> |g.holders| == 1)
      && LeaveData(d, n).newest == Some(g.holders[0])
      && (g.src.Some? ==> g.pending && LeaveData(d, n) == WithRound(Told(d, n, next, d.s.g.src.value), g))
  {
    PassFacts(d.s.g, n);
  }

  lemma PassedSends(d: Data, d': Data, n: Node)
    requires GlobalOk(d.s.g) && MayLeave(d.s.g, n) && Transfer(Drop(d.s.g, n)).1
    requires d' == LeaveData(d, n).(s := d'.s) && d'.s.g == AnyUnlock(d.s.g, n).g && DataInv(d')
    ensures NewestSends(d')
  {
    PassedShape(d, n);
    var g := d'.s.g;
    if g.src.Some? {
      RoundNamesNewest(Told(d, n, Transfer(Drop(d.s.g, n)).0, d.s.g.src.value), g);
    }
    SourceSends(d');
  }

  lemma LeaveSends(d: Data, e: Step)
    requires DataInv(d) && NewestSends(d) && May(d, Protocol(e)) && Leaving(d, e) && DataInv(Do(d, Protocol(e)))
    ensures NewestSends(Do(d, Protocol(e)))
  {
    var d' := Do(d, Protocol(e));
    var sent := PushOut(d, e.n);
    LeavingFacts(d, e);
    LeavingShape(d, e);
    if Transfer(Drop(d.s.g, e.n)).1 {
      PassedSends(sent, d', e.n);
    } else {
      SentBefore(d, e.n);
      StillSends(sent, e.n);
    }
  }

  /** A node that has its copy and was told to send it has done so when it leaves. */
  lemma SentBefore(d: Data, n: Node)
    requires DataInv(d) && NewestSends(d) && HasCopy(d, n)
    ensures NewestSends(PushOut(d, n)) && forall k :: k in PushOut(d, n).via ==> PushOut(d, n).via[k] != Pended(n)
  {
    forall k | k in PushOut(d, n).via ensures PushOut(d, n).via[k] != Pended(n) {
      if k in d.via { SenderIsSource(d, k, n); }
    }
  }

  lemma SenderIsSource(d: Data, k: Node, n: Node)
    requires DataInv(d) && k in d.via
    ensures d.via[k] == Pended(n) ==> d.s.g.src == Some(k)
  {
    assert CopyOkIn(d, k);
  }

  lemma StaySends(d: Data, a: Action)
    requires NewestSends(d) && May(d, a)
    requires a.Protocol? ==> !a.e.Ask? && !a.e.AskEvict? && !Leaving(d, a.e)
    ensures NewestSends(Do(d, a))
  {
  }

  lemma SendsStep(d: Data, a: Action)
    requires DataInv(d) && NewestSends(d) && May(d, a)
    ensures NewestSends(Do(d, a))
  {
    ActionKeeps(d, a);
    if a.Protocol? && a.e.Ask? { AskSends(d, a.e.n); }
    else if a.Protocol? && a.e.AskEvict? { EvictSends(d, a.e.n); }
    else if a.Protocol? && Leaving(d, a.e) { LeaveSends(d, a.e); }
    else { StaySends(d, a); }
  }

  lemma EvictSends(d: Data, n: Node)
    requires DataInv(d) && NewestSends(d) && May(d, Protocol(AskEvict(n))) && DataInv(Do(d, Protocol(AskEvict(n))))
    ensures NewestSends(Do(d, Protocol(AskEvict(n))))
  {
    if n in d.s.g.holders && !d.s.g.pending { NoRoundNoSender(Do(d, Protocol(AskEvict(n)))); }
  }

  lemma {:induction false} SendsRun(d: Data, run: seq<Action>)
    requires DataInv(d) && NewestSends(d) && Follows(d, run)
    ensures NewestSends(End(d, run))
    decreases |run|
  {
    if run == [] {
    } else {
      ActionKeeps(d, run[0]);
      SendsStep(d, run[0]);
      SendsRun(Do(d, run[0]), run[1..]);
    }
  }

  /** In every run, whoever is told to send the page to its next owner is the node the manager records as the newest. */
  lemma SenderIsNewest(d: Data, n: Node, m: Node)
    requires Reachable(d) && n in d.via && d.via[n] == Pended(m)
    ensures d.newest == Some(m) && m in d.s.g.holders && d.s.g.src == Some(n)
  {
    var d0, run :| Start(d0) && Follows(d0, run) && End(d0, run) == d;
    assert Legal(d0.s, []) && After(d0.s, []) == d0.s;
    forall k | k in d0.s.nodes ensures NodeOkIn(d0.s, k) && CopyOkIn(d0, k) {}
    SendsRun(d0, run);
    ReachableData(d);
    assert CopyOkIn(d, n);
  }

  // ----- when the record moves -----

  /** Of the nodes that still have the page, the first holder or the lowest. */
  ghost predicate TakesOver(d: Data, newest: Option<Node>) {
    match newest
    case None => d.valid == {}
    case Some(m) =>
      m in d.valid && ((d.s.g.holders != [] && m == d.s.g.holders[0]) || forall k :: k in d.valid ==> m <= k)
  }

  /** The node fetches the page from storage, or leaves and hands the record over. */
  ghost predicate RecordMoves(d: Data, d': Data, n: Node) {
    if d.newest.None? then d'.newest == Some(n) && n in d'.via && d'.via[n] == Storage
    else d.newest == Some(n) && n !in d'.valid && TakesOver(d', d'.newest)
  }

  lemma AskMoves(d: Data, n: Node)
    requires DataInv(d) && May(d, Protocol(Ask(n))) && Do(d, Protocol(Ask(n))).newest != d.newest
    ensures RecordMoves(d, Do(d, Protocol(Ask(n))), n)
  {
  }

  lemma EvictMoves(d: Data, n: Node)
    requires DataInv(d) && May(d, Protocol(AskEvict(n))) && Do(d, Protocol(AskEvict(n))).newest != d.newest
    ensures RecordMoves(d, Do(d, Protocol(AskEvict(n))), n)
  {
  }

  /** Too early: whoever stays keeps the record, or the lowest of those who stay gets it. */
  lemma StillMoves(d: Data, d': Data, n: Node)
    requires RecordOk(d) && d.s.g.holders != [] && !Transfer(Drop(d.s.g, n)).1
    requires d' == LeaveData(d, n).(s := d'.s) && d'.newest != d.newest
    ensures RecordMoves(d, d', n)
  {
  }

  lemma PassedMoves(d: Data, d': Data, n: Node)
    requires GlobalOk(d.s.g) && MayLeave(d.s.g, n) && Transfer(Drop(d.s.g, n)).1 && RecordOk(d) && RecordOk(d')
    requires d' == LeaveData(d, n).(s := d'.s) && d'.s.g == AnyUnlock(d.s.g, n).g && d'.newest != d.newest
    requires n !in d'.s.g.holders
    ensures RecordMoves(d, d', n)
  {
    var g := d.s.g;
    PassFacts(g, n);
    DropFacts(g, n);
    var next := Transfer(Drop(g, n)).0;
    assert d'.s.g.holders == next.holders && d'.newest == Some(next.holders[0]);
    assert d.newest.Some? && d.newest.value in g.holders;
  }

  lemma LeaveMoves(d: Data, e: Step)
    requires DataInv(d) && May(d, Protocol(e)) && Leaving(d, e) && Do(d, Protocol(e)).newest != d.newest
    ensures RecordMoves(d, Do(d, Protocol(e)), e.n)
  {
    var d', sent := Do(d, Protocol(e)), PushOut(d, e.n);
    LeavingFacts(d, e);
    LeavingShape(d, e);
    ActionKeeps(d, Protocol(e));
    if Transfer(Drop(d.s.g, e.n)).1 {
      LeaverIsOut(d, e);
      PassedMoves(sent, d', e.n);
    } else {
      StillMoves(sent, d', e.n);
    }
  }

  lemma LeaverIsOut(d: Data, e: Step)
    requires DataInv(d) && May(d, Protocol(e)) && Leaving(d, e) && MayLeave(d.s.g, e.n)
    requires Transfer(Drop(d.s.g, e.n)).1 && Do(d, Protocol(e)).s.g == AnyUnlock(d.s.g, e.n).g
    ensures e.n !in Do(d, Protocol(e)).s.g.holders
  {
    PassedFacts(d.s.g, e.n, e.n);
    assert NodeOkIn(d.s, e.n);
    assert Queued(d.s.g, e.n) ==> d.s.nodes[e.n].request == Waiting;
  }

  lemma StayMoves(d: Data, a: Action)
    requires May(d, a) && (a.Protocol? ==> !a.e.Ask? && !a.e.AskEvict? && !Leaving(d, a.e))
    ensures Do(d, a).newest == d.newest
  {
  }

  /**
   The record of the newest copy moves only when that copy's node gives the page
   up, to a node that has it, or when a first node fetches the page from storage.
   */
  lemma NewestMoves(d: Data, a: Action)
    requires Reachable(d) && May(d, a) && Do(d, a).newest != d.newest
    ensures a.Protocol? && RecordMoves(d, Do(d, a), a.e.n)
  {
    ReachableData(d);
    if !a.Protocol? || !(a.e.Ask? || a.e.AskEvict? || Leaving(d, a.e)) { StayMoves(d, a); }
    else if a.e.Ask? { AskMoves(d, a.e.n); }
    else if a.e.AskEvict? { EvictMoves(d, a.e.n); }
    else { LeaveMoves(d, a.e); }
  }
}
