/** Every action keeps the record, the copies and the sources in order. */
module CopySteps {
  import opened Options
  import opened PageLockTypes
  import opened PageOwnership
  import opened PageSteps
  import PageTheorems
  import opened PageCopies

  // ----- actions that leave the ownership protocol alone -----

  /** While one node uses the page exclusively, every other copy is being thrown away and none is on its way. */
  lemma SoleCopy(d: Data, n: Node, k: Node)
    requires DataInv(d) && n in d.s.nodes && InExclusiveUse(d.s.nodes[n]) && k in d.s.nodes && k != n
    ensures n !in d.via && !Owns(d.s.nodes[k])
    ensures k in d.via ==> d.via[k] == Pended(n)
    ensures k in d.copy ==> d.s.nodes[k].evict == Agreed
  {
    assert NodeOkIn(d.s, n) && NodeOkIn(d.s, k) && CopyOkIn(d, n) && CopyOkIn(d, k);
    assert d.s.g.holders == [n];
    SrcIsQueued(d.s, n);
  }

  /** The requester of a round is in the queue, and has not been granted anything yet. */
  lemma SrcIsQueued(s: State, n: Node)
    requires Inv(s) && n in s.nodes
    ensures s.g.src == Some(n) ==>
      Queued(s.g, n) && s.nodes[n].request == Waiting && !Granted(s.nodes[n], Get(s.grant, n))
  {
    assert NodeOkIn(s, n);
    if s.g.src == Some(n) { assert s.g.queue[0] in s.g.queue; }
  }

  lemma WriteKeeps(d: Data, n: Node)
    requires DataInv(d) && May(d, Write(n))
    ensures DataInv(Do(d, Write(n)))
  {
    var d' := Do(d, Write(n));
    forall k | k in d'.s.nodes ensures CopyOkIn(d', k) {
      assert CopyOkIn(d, k);
      if k == n { OwnerOf(d, n); } else { SoleCopy(d, n, k); }
    }
  }

  lemma OwnerOf(d: Data, n: Node)
    requires DataInv(d) && n in d.s.nodes && InUse(d.s.nodes[n])
    ensures Owns(d.s.nodes[n]) && n !in d.via
  {
    assert NodeOkIn(d.s, n) && CopyOkIn(d, n);
    SrcIsQueued(d.s, n);
  }

  lemma LoadKeeps(d: Data, n: Node)
    requires DataInv(d) && May(d, Load(n))
    ensures DataInv(Do(d, Load(n)))
  {
    var d' := Do(d, Load(n));
    assert CopyOkIn(d, n);
    forall k | k in d'.s.nodes ensures CopyOkIn(d', k) { assert CopyOkIn(d, k); }
  }

  /** A source gives way to its successor; nobody who relies on it minds. */
  lemma SourceMoves(d: Data, d': Data, n: Node)
    requires CopiesOk(d) && n in d.via && n in d.s.nodes && d.via[n] != Has
    requires d.via[n].Pended? && d.via[n].from in d.via ==> d.via[d.via[n].from] != Storage
    requires d'.via.Keys == d.via.Keys && d' == d.(via := d.via[n := d'.via[n]], copy := d'.copy)
    requires n in d'.via && (d'.via[n].Flying? || d'.via[n] == Arrived)
    requires forall k :: k != n ==> (k in d'.copy <==> k in d.copy) && (k in d.copy ==> d'.copy[k] == d.copy[k])
    requires CopyOkIn(d', n)
    ensures CopiesOk(d')
  {
    forall k | k in d'.s.nodes ensures CopyOkIn(d', k) { if k != n { assert CopyOkIn(d, k); } }
    forall k | k in d'.via || k in d'.copy ensures k in d'.s.nodes { if k != n { assert k in d.via || k in d.copy; } }
  }

  lemma PushListedKeeps(d: Data, n: Node, to: Node)
    requires DataInv(d) && May(d, PushListed(n, to))
    ensures DataInv(Do(d, PushListed(n, to)))
  {
    assert CopyOkIn(d, n) && CopyOkIn(d, to);
    SourceMoves(d, Do(d, PushListed(n, to)), to);
  }

  lemma PushArrivesKeeps(d: Data, n: Node)
    requires DataInv(d) && May(d, PushArrives(n))
    ensures DataInv(Do(d, PushArrives(n)))
  {
    assert CopyOkIn(d, n);
    SourceMoves(d, Do(d, PushArrives(n)), n);
  }

  /** The copy one was told to send is on its way. */
  lemma PushOutKeeps(d: Data, n: Node)
    requires DataInv(d) && n in d.s.nodes && Owns(d.s.nodes[n])
    ensures CopiesOk(PushOut(d, n))
    ensures d.s.g.lock.Shared? || OnlyReads(d.s, n) ==> DataInv(PushOut(d, n))
    ensures forall k :: k in PushOut(d, n).via ==> PushOut(d, n).via[k] != Pended(n)
  {
    assert CopyOkIn(d, n) && NodeOkIn(d.s, n);
    if PushOut(d, n) != d {
      assert CopyOkIn(d, d.s.g.src.value);
      SourceMoves(d, PushOut(d, n), d.s.g.src.value);
    }
    forall k | k in PushOut(d, n).via ensures PushOut(d, n).via[k] != Pended(n) { assert CopyOkIn(d, k); }
  }

  // ----- steps of one node that leave the manager alone -----

  /** Only node `n` has changed, and it is in order again. */
  lemma OneNodeData(d: Data, d': Data, n: Node)
    requires DataInv(d) && Inv(d'.s) && n in d.s.nodes && n in d'.s.nodes
    requires d'.s.g == d.s.g && d'.s.nodes == d.s.nodes[n := d'.s.nodes[n]]
    requires forall k :: k != n ==> Get(d'.s.grant, k) == Get(d.s.grant, k)
    requires d'.valid == d.valid && d'.newest == d.newest && d'.version == d.version
    requires d'.via == d.via || (d'.via == d.via - {n} && ListServed(d, n))
    requires d'.copy == d.copy || d'.copy == d.copy - {n}
    requires CopyOkIn(d', n) && (OnlyReads(d.s, n) ==> OnlyReads(d'.s, n))
    ensures DataInv(d')
  {
    OneNodeCopies(d, d', n);
    assert d.s.g.src == Some(n) ==> n in d'.via;
  }

  lemma OneNodeCopies(d: Data, d': Data, n: Node)
    requires DataInv(d) && Inv(d'.s) && n in d.s.nodes && n in d'.s.nodes
    requires d'.s.g == d.s.g && d'.s.nodes == d.s.nodes[n := d'.s.nodes[n]]
    requires forall k :: k != n ==> Get(d'.s.grant, k) == Get(d.s.grant, k)
    requires d'.valid == d.valid && d'.newest == d.newest && d'.version == d.version
    requires d'.via == d.via || (d'.via == d.via - {n} && ListServed(d, n))
    requires d'.copy == d.copy || d'.copy == d.copy - {n}
    requires CopyOkIn(d', n)
    ensures CopiesOk(d')
  {
    forall k | k in d'.s.nodes ensures CopyOkIn(d', k) { if k != n { assert CopyOkIn(d, k); } }
  }

  /** Steps that touch neither the manager nor the copies. */
  predicate IsQuiet(d: Data, e: Step)
    requires MayStep(d, e)
  {
    IsLocal(d.s, e) && !e.FinishEvict? && !e.RemoteOK?
  }

  lemma QuietNode(d: Data, e: Step)
    requires DataInv(d) && MayStep(d, e) && IsQuiet(d, e)
    ensures CopyOkIn(d.(s := Apply(d.s, e)), e.n)
  {
    assert NodeOkIn(d.s, e.n) && CopyOkIn(d, e.n);
  }

  lemma QuietFrame(s: State, e: Step)
    requires Enabled(s, e) && IsLocal(s, e)
    ensures var s' := Apply(s, e);
      && e.n in s.nodes && e.n in s'.nodes && s'.g == s.g && s'.nodes == s.nodes[e.n := s'.nodes[e.n]]
      && (forall k :: k != e.n ==> Get(s'.grant, k) == Get(s.grant, k))
      && (!e.RemoteOK? && OnlyReads(s, e.n) ==> OnlyReads(s', e.n))
  {
  }

  lemma QuietKeeps(d: Data, e: Step)
    requires DataInv(d) && MayStep(d, e) && IsQuiet(d, e)
    ensures DataInv(d.(s := Apply(d.s, e)))
  {
    QuietFrame(d.s, e);
    PageTheorems.StepKeeps(d.s, e);
    QuietNode(d, e);
    OneNodeData(d, d.(s := Apply(d.s, e)), e.n);
  }

  lemma RemoteOKKeeps(d: Data, n: Node)
    requires DataInv(d) && May(d, Protocol(RemoteOK(n)))
    ensures DataInv(Do(d, Protocol(RemoteOK(n))))
  {
    var d' := Do(d, Protocol(RemoteOK(n)));
    PageTheorems.StepKeeps(d.s, RemoteOK(n));
    assert NodeOkIn(d.s, n) && CopyOkIn(d, n);
    SrcIsQueued(d.s, n);
    OneNodeData(d, d', n);
  }

  lemma FinishEvictKeeps(d: Data, n: Node)
    requires DataInv(d) && May(d, Protocol(FinishEvict(n)))
    ensures DataInv(Do(d, Protocol(FinishEvict(n))))
  {
    var d' := Do(d, Protocol(FinishEvict(n)));
    PageTheorems.StepKeeps(d.s, FinishEvict(n));
    assert NodeOkIn(d.s, n) && CopyOkIn(d, n);
    OneNodeData(d, d', n);
  }

  // ----- a request reaches the manager -----

  /** The manager after a request, as far as copies are concerned. */
  lemma AskManager(d: Data, n: Node)
    requires DataInv(d) && May(d, Protocol(Ask(n)))
    ensures var a := Asked(d.s, n);
      && n !in d.via && (n in d.copy ==> n in d.valid) && (n in d.valid ==> Owns(d.s.nodes[n]))
      && (a.granted ==>
            && d.s.g.src == a.g.src == None
            && a.g.holders == if n in d.valid then d.s.g.holders else d.s.g.holders + [n])
      && (!a.granted ==> a.g.holders == d.s.g.holders && a.g.lock == d.s.g.lock)
      && (a.round ==> d.s.g.src == None && a.g.src == Some(n))
      && (!a.granted && !a.round ==> a.g.src == d.s.g.src)
  {
    AskFacts(d.s, n);
    assert NodeOkIn(d.s, n) && CopyOkIn(d, n);
  }

  lemma NewestCopy(d: Data, m: Node)
    requires DataInv(d) && m in d.s.g.holders && m in d.copy
    ensures d.copy[m] == d.version && m in d.s.nodes && (m in d.via ==> d.via[m] != Storage)
  {
    assert NodeOkIn(d.s, m) && CopyOkIn(d, m);
  }

  lemma GrantOther(d: Data, n: Node, k: Node)
    requires DataInv(d) && May(d, Protocol(Ask(n))) && Asked(d.s, n).granted && k in d.s.nodes && k != n
    ensures CopyOkIn(Do(d, Protocol(Ask(n))), k)
  {
    AskManager(d, n);
    assert CopyOkIn(d, k);
    if d.newest.Some? && n !in d.valid { NewestCopy(d, d.newest.value); }
  }

  lemma GrantKeeps(d: Data, n: Node)
    requires DataInv(d) && May(d, Protocol(Ask(n))) && Asked(d.s, n).granted
    ensures DataInv(Do(d, Protocol(Ask(n))))
  {
    var d' := Do(d, Protocol(Ask(n)));
    AskManager(d, n);
    PageTheorems.StepKeeps(d.s, Ask(n));
    assert CopyOkIn(d, n) && NodeOkIn(d'.s, n);
    if d.newest.Some? && n !in d.valid { NewestCopy(d, d.newest.value); }
    forall k | k in d'.s.nodes ensures CopyOkIn(d', k) { if k != n { GrantOther(d, n, k); } }
  }

  lemma RoundSelf(d: Data, n: Node)
    requires DataInv(d) && May(d, Protocol(Ask(n))) && Asked(d.s, n).round
    ensures CopyOkIn(Do(d, Protocol(Ask(n))), n) && SentLate(Do(d, Protocol(Ask(n))))
  {
    AskManager(d, n);
    PageTheorems.StepKeeps(d.s, Ask(n));
    assert CopyOkIn(d, n) && NodeOkIn(Do(d, Protocol(Ask(n))).s, n) && NodeOkIn(d.s, n);
  }

  /** A node that has nothing to do with a request that is queued. */
  lemma Bystander(d: Data, d': Data, k: Node)
    requires k in d.s.nodes && k in d'.s.nodes && d'.s.nodes[k] == d.s.nodes[k] && CopyOkIn(d, k)
    requires Get(d'.s.grant, k) == Get(d.s.grant, k) && d'.copy == d.copy && d'.version == d.version
    requires d'.s.g.holders == d.s.g.holders && (d'.s.g.src == Some(k) <==> d.s.g.src == Some(k))
    requires k in d'.via <==> k in d.via
    requires forall j :: j in d.via ==>
      j in d'.via && d'.via[j] == d.via[j] && (d'.s.g.src == Some(j) ==> d.s.g.src == Some(j))
    requires k in d.via && d.via[k] == Storage && d'.s.g.src.Some? ==>
      d'.s.g.src.value in d'.via && d'.via[d'.s.g.src.value] == Pended(k)
    ensures CopyOkIn(d', k)
  {
  }

  lemma QueuedOther(d: Data, n: Node, k: Node)
    requires DataInv(d) && May(d, Protocol(Ask(n))) && !Asked(d.s, n).granted && k in d.s.nodes && k != n
    ensures CopyOkIn(Do(d, Protocol(Ask(n))), k)
  {
    AskManager(d, n);
    assert CopyOkIn(d, k);
    QueuedSource(d, n, k);
    Bystander(d, Do(d, Protocol(Ask(n))), k);
  }

  /** If the only holder still waits for storage, it is the one to send the page on. */
  lemma QueuedSource(d: Data, n: Node, k: Node)
    requires DataInv(d) && May(d, Protocol(Ask(n))) && !Asked(d.s, n).granted && k in d.s.nodes && k != n
    ensures var d' := Do(d, Protocol(Ask(n)));
      k in d.via && d.via[k] == Storage && d'.s.g.src.Some? ==>
        d'.s.g.src.value in d'.via && d'.via[d'.s.g.src.value] == Pended(k)
  {
    AskManager(d, n);
    assert CopyOkIn(d, k);
  }

  lemma RoundKeeps(d: Data, n: Node)
    requires DataInv(d) && May(d, Protocol(Ask(n))) && Asked(d.s, n).round
    ensures DataInv(Do(d, Protocol(Ask(n))))
  {
    var d' := Do(d, Protocol(Ask(n)));
    AskManager(d, n);
    PageTheorems.StepKeeps(d.s, Ask(n));
    RoundSelf(d, n);
    forall k | k in d'.s.nodes ensures CopyOkIn(d', k) { if k != n { QueuedOther(d, n, k); } }
  }

  lemma JoinSelf(d: Data, n: Node)
    requires DataInv(d) && May(d, Protocol(Ask(n))) && !Asked(d.s, n).granted && !Asked(d.s, n).round
    ensures CopyOkIn(Do(d, Protocol(Ask(n))), n) && SentLate(Do(d, Protocol(Ask(n))))
  {
    AskManager(d, n);
    assert CopyOkIn(d, n) && NodeOkIn(d.s, n);
  }

  lemma JoinKeeps(d: Data, n: Node)
    requires DataInv(d) && May(d, Protocol(Ask(n))) && !Asked(d.s, n).granted && !Asked(d.s, n).round
    ensures DataInv(Do(d, Protocol(Ask(n))))
  {
    var d' := Do(d, Protocol(Ask(n)));
    AskManager(d, n);
    PageTheorems.StepKeeps(d.s, Ask(n));
    JoinSelf(d, n);
    forall k | k in d'.s.nodes ensures CopyOkIn(d', k) { if k != n { QueuedOther(d, n, k); } }
  }

  lemma AskKeepsData(d: Data, n: Node)
    requires DataInv(d) && May(d, Protocol(Ask(n)))
    ensures DataInv(Do(d, Protocol(Ask(n))))
  {
    if Asked(d.s, n).granted { GrantKeeps(d, n); }
    else if Asked(d.s, n).round { RoundKeeps(d, n); }
    else { JoinKeeps(d, n); }
  }

  // ----- a holder gives the page up -----

  /** Node `n` is about to leave with state `l`; it has sent what it had to send. */
  ghost predicate Departs(d: Data, s: State, n: Node, l: Local) {
    && CopiesOk(d) && Leaves(s, n, l)
    && s.g == d.s.g && s.nodes == d.s.nodes && s.grant == d.s.grant
    && n !in d.via && Owns(s.nodes[n])
    && (forall k :: k in d.via ==> d.via[k] != Pended(n))
  }

  /** The round goes on. */
  lemma StillNodeData(d: Data, s: State, n: Node, l: Local, k: Node)
    requires Departs(d, s, n, l) && !Transfer(Drop(s.g, n)).1 && k in s.nodes
    ensures CopyOkIn(LeaveData(d, n).(s := GiveUp(s, n, l)), k)
  {
    StillGlobal(s.g, n);
    DropFacts(s.g, n);
    assert CopyOkIn(d, k);
  }

  lemma StillKeeps(d: Data, s: State, n: Node, l: Local)
    requires Departs(d, s, n, l) && !Transfer(Drop(s.g, n)).1
    ensures DataInv(LeaveData(d, n).(s := GiveUp(s, n, l)))
  {
    var d' := LeaveData(d, n).(s := GiveUp(s, n, l));
    GiveUpKeeps(s, n, l);
    StillGlobal(s.g, n);
    DropFacts(s.g, n);
    forall k | k in d'.s.nodes ensures CopyOkIn(d', k) { StillNodeData(d, s, n, l, k); }
    assert RecordOk(d') by { StillRecord(d, s, n, l); }
  }

  lemma StillRecord(d: Data, s: State, n: Node, l: Local)
    requires Departs(d, s, n, l) && !Transfer(Drop(s.g, n)).1
    ensures RecordOk(LeaveData(d, n).(s := GiveUp(s, n, l)))
  {
    StillGlobal(s.g, n);
    DropFacts(s.g, n);
    assert |Drop(s.g, n).holders| > 0;
    assert Drop(s.g, n).holders[0] in d.valid - {n};
  }

  /** When the page can pass on, only the requester of the round has a source, and it has a copy or a push. */
  lemma OnlyTheNext(d: Data, s: State, n: Node, l: Local)
    requires Departs(d, s, n, l) && Transfer(Drop(s.g, n)).1
    ensures s.g.src.Some? && d.via.Keys == {s.g.src.value} && s.g.src.value in s.nodes && s.g.src.value != n
    ensures var w := s.g.src.value;
      && (d.via[w] == Has || d.via[w] == Arrived || d.via[w].Flying?)
      && (w in d.valid <==> d.via[w] == Has)
  {
    var w := s.g.src.value;
    PassedFacts(s.g, n, w);
    assert NodeOkIn(d.s, w) && CopyOkIn(d, w);
    SrcIsQueued(d.s, w);
    forall k | k in d.via ensures k == w {
      PassedFacts(s.g, n, k);
      assert NodeOkIn(d.s, k) && CopyOkIn(d, k);
    }
    if d.via[w].Pended? { PassedFacts(s.g, n, d.via[w].from); }
  }

  /** The manager after the page has passed on. */
  lemma PassedManager(g: Global, n: Node, k: Node)
    requires GlobalOk(g) && MayLeave(g, n) && Transfer(Drop(g, n)).1
    ensures var next := Transfer(Drop(g, n)).0;
      var after := AnyUnlock(g, n).g;
      && g.src.Some? && after == NextRound(Announced(next)) && next.holders != [] && after.holders == next.holders
      && g.src.value in after.holders && after.lock == next.lock && (after.src.Some? <==> after.pending)
      && (k in after.holders ==> after.src != Some(k))
  {
    PassFacts(g, n);
    PassedFacts(g, n, k);
  }

  /** The sources after the page has passed on. */
  lemma PassedSources(d: Data, s: State, n: Node, l: Local, k: Node)
    requires Departs(d, s, n, l) && Transfer(Drop(s.g, n)).1
    ensures s.g.src.Some?
    ensures var g := AnyUnlock(s.g, n).g;
      var via := LeaveData(d, n).via;
      var w := s.g.src.value;
      && w in g.holders && w in via && w in d.via && via[w] == d.via[w] && g.src != Some(w)
      && (k in via <==> k in g.holders || g.src == Some(k))
      && (k in g.holders && k != w ==> via[k] == Listed(w) && g.src != Some(k))
      && (g.src == Some(k) ==> k !in g.holders && via[k] == Pended(g.holders[0]))
  {
    var w := s.g.src.value;
    OnlyTheNext(d, s, n, l);
    PassedManager(s.g, n, k);
    PassedManager(s.g, n, w);
    InformedAt(d, Transfer(Drop(s.g, n)).0, w, k);
    InformedAt(d, Transfer(Drop(s.g, n)).0, w, w);
    if AnyUnlock(s.g, n).g.src == Some(k) { NotValid(d, s, n, l, k); }
  }

  lemma InformedAt(d: Data, next: Global, w: Node, k: Node)
    requires d.via.Keys == {w} && (w in d.valid ==> d.via[w] == Has)
    ensures k in Informed(d, next, w) <==> k == w || k in next.holders
    ensures k == w ==> Informed(d, next, w)[w] == d.via[w]
    ensures k != w && k in next.holders ==> Informed(d, next, w)[k] == Listed(w)
  {
  }

  lemma NotValid(d: Data, s: State, n: Node, l: Local, k: Node)
    requires Departs(d, s, n, l) && Transfer(Drop(s.g, n)).1 && AnyUnlock(s.g, n).g.src == Some(k)
    ensures k !in d.valid - {n} && k !in AnyUnlock(s.g, n).g.holders && s.g.src != Some(k)
  {
    PassedManager(s.g, n, k);
    PassedFacts(s.g, n, k);
  }

  lemma PassedRecord(d: Data, s: State, n: Node, l: Local)
    requires Departs(d, s, n, l) && Transfer(Drop(s.g, n)).1
    ensures RecordOk(LeaveData(d, n).(s := GiveUp(s, n, l))) && SentLate(LeaveData(d, n).(s := GiveUp(s, n, l)))
  {
    var g := AnyUnlock(s.g, n).g;
    PassFacts(s.g, n);
    PassedSources(d, s, n, l, s.g.src.value);
    if g.src.Some? { PassedSources(d, s, n, l, g.src.value); }
    forall k ensures k in LeaveData(d, n).valid <==> k in g.holders { PassedFacts(s.g, n, k); }
  }

  lemma PassedNext(d: Data, s: State, n: Node, l: Local)
    requires Departs(d, s, n, l) && Transfer(Drop(s.g, n)).1
    ensures s.g.src.Some? && s.g.src.value in s.nodes
    ensures CopyOkIn(LeaveData(d, n).(s := GiveUp(s, n, l)), s.g.src.value)
  {
    var w := s.g.src.value;
    OnlyTheNext(d, s, n, l);
    PassedSources(d, s, n, l, w);
    GiveUpKeeps(s, n, l);
    assert NodeOkIn(GiveUp(s, n, l), w) && CopyOkIn(d, w);
  }

  /** Among the others, exactly the new holders are granted the page, and nobody owns it any more. */
  lemma PassedGranted(s: State, n: Node, l: Local, k: Node)
    requires Leaves(s, n, l) && Transfer(Drop(s.g, n)).1 && k in s.nodes && s.g.src != Some(k)
    ensures var s' := GiveUp(s, n, l);
      && (Granted(s'.nodes[k], Get(s'.grant, k)) <==> k in s'.g.holders) && !Owns(s'.nodes[k])
      && (k != n ==> !Owns(s.nodes[k])) && (k in s'.g.holders ==> s'.nodes[k].evict != Agreed)
  {
    GiveUpKeeps(s, n, l);
    PassedFacts(s.g, n, k);
    assert NodeOkIn(GiveUp(s, n, l), k) && (k != n ==> NodeOkIn(s, k));
  }

  /** If several nodes get the page together, the first of them does not have a copy yet. */
  lemma BatchIsNew(s: State, n: Node, l: Local, k: Node)
    requires Leaves(s, n, l) && Transfer(Drop(s.g, n)).1 && k in AnyUnlock(s.g, n).g.holders && s.g.src != Some(k)
    ensures s.g.src.Some? && s.g.src.value !in s.g.holders
  {
    DropFacts(s.g, n);
    PassFacts(s.g, n);
  }

  /** A node that is neither the one that leaves in favour of others nor the one the round was for. */
  lemma PassedElse(d: Data, d': Data, n: Node, w: Node, k: Node)
    requires k in d.s.nodes && CopyOkIn(d, k) && k !in d.via && k != w && k in d'.s.nodes
    requires d'.version == d.version && d'.copy == d.copy - {n} && w in d'.via
    requires !Owns(d'.s.nodes[k]) && d'.s.g.src != Some(w) && (k == n ==> d'.s.nodes[k].evict != Agreed)
    requires k != n ==> d'.s.nodes[k] == d.s.nodes[k] && !Owns(d.s.nodes[k])
    requires Granted(d'.s.nodes[k], Get(d'.s.grant, k)) <==> k in d'.s.g.holders
    requires k in d'.via <==> k in d'.s.g.holders || d'.s.g.src == Some(k)
    requires k in d'.s.g.holders ==>
      d'.via[k] == Listed(w) && d'.s.g.src != Some(k) && (d'.via[w].Flying? || d'.via[w] == Arrived)
    requires d'.s.g.src == Some(k) ==>
      k !in d'.s.g.holders && d'.s.g.holders != [] && d'.via[k] == Pended(d'.s.g.holders[0])
    ensures CopyOkIn(d', k)
  {
  }

  lemma PassedOtherData(d: Data, s: State, n: Node, l: Local, k: Node)
    requires Departs(d, s, n, l) && Transfer(Drop(s.g, n)).1 && k in s.nodes && s.g.src != Some(k)
    ensures CopyOkIn(LeaveData(d, n).(s := GiveUp(s, n, l)), k)
  {
    OnlyTheNext(d, s, n, l);
    PassedSources(d, s, n, l, k);
    PassedGranted(s, n, l, k);
    if k in AnyUnlock(s.g, n).g.holders { BatchIsNew(s, n, l, k); }
    assert CopyOkIn(d, k);
    PassedElse(d, LeaveData(d, n).(s := GiveUp(s, n, l)), n, s.g.src.value, k);
  }

  lemma PassedDomain(d: Data, s: State, n: Node, l: Local, k: Node)
    requires Departs(d, s, n, l) && Transfer(Drop(s.g, n)).1
    requires k in LeaveData(d, n).via || k in LeaveData(d, n).copy
    ensures k in s.nodes
  {
    GiveUpKeeps(s, n, l);
    PassedSources(d, s, n, l, k);
    PassedFacts(s.g, n, k);
    var g := AnyUnlock(s.g, n).g;
    if g.src == Some(k) { assert g.queue[0] in g.queue; }
  }

  lemma PassKeeps(d: Data, s: State, n: Node, l: Local)
    requires Departs(d, s, n, l) && Transfer(Drop(s.g, n)).1
    ensures DataInv(LeaveData(d, n).(s := GiveUp(s, n, l)))
  {
    var d' := LeaveData(d, n).(s := GiveUp(s, n, l));
    GiveUpKeeps(s, n, l);
    PassedRecord(d, s, n, l);
    forall k | k in d'.s.nodes ensures CopyOkIn(d', k) {
      if s.g.src == Some(k) { PassedNext(d, s, n, l); } else { PassedOtherData(d, s, n, l, k); }
    }
    forall k | k in d'.via || k in d'.copy ensures k in d'.s.nodes { PassedDomain(d, s, n, l, k); }
  }

  lemma LeaveKeeps(d: Data, s: State, n: Node, l: Local)
    requires Departs(d, s, n, l)
    ensures DataInv(LeaveData(d, n).(s := GiveUp(s, n, l)))
  {
    if Transfer(Drop(s.g, n)).1 { PassKeeps(d, s, n, l); } else { StillKeeps(d, s, n, l); }
  }

  lemma UnlockKeepsData(d: Data, n: Node)
    requires DataInv(d) && May(d, Protocol(Unlock(n)))
    ensures DataInv(Do(d, Protocol(Unlock(n))))
  {
    var l := d.s.nodes[n];
    OwnerOf(d, n);
    PushOutKeeps(d, n);
    if Unlatch(l).1 {
      PageTheorems.UnlockLeaves(d.s, n);
      LeaveKeeps(PushOut(d, n), d.s, n, Unlatch(l).0);
    } else {
      assert NodeOkIn(d.s, n);
      QuietKeeps(if l.pending then PushOut(d, n) else d, Unlock(n));
    }
  }

  lemma PendingOwner(d: Data, n: Node)
    requires DataInv(d) && n in d.s.nodes && n in d.s.pend && OnPending(d.s.nodes[n], d.s.pend[n]).1
    ensures Owns(d.s.nodes[n]) && n !in d.via
  {
    assert NodeOkIn(d.s, n) && CopyOkIn(d, n);
  }

  lemma PendingKeepsData(d: Data, n: Node)
    requires DataInv(d) && May(d, Protocol(PendingArrives(n))) && OnPending(d.s.nodes[n], d.s.pend[n]).1
    ensures DataInv(Do(d, Protocol(PendingArrives(n))))
  {
    var l := d.s.nodes[n];
    PendingOwner(d, n);
    PageTheorems.PendingLeaves(d.s, n);
    PushOutKeeps(d, n);
    LeaveKeeps(PushOut(d, n), d.s.(pend := d.s.pend - {n}), n, OnPending(l, d.s.pend[n]).0);
  }

  lemma EvictOther(d: Data, n: Node, k: Node)
    requires DataInv(d) && May(d, Protocol(AskEvict(n))) && n in d.s.g.holders && !d.s.g.pending && k in d.s.nodes
    ensures CopyOkIn(Do(d, Protocol(AskEvict(n))), k)
  {
    DropFacts(d.s.g, n);
    assert CopyOkIn(d, k) && NodeOkIn(d.s, n) && CopyOkIn(d, n);
  }

  lemma EvictKeepsData(d: Data, n: Node)
    requires DataInv(d) && May(d, Protocol(AskEvict(n)))
    ensures DataInv(Do(d, Protocol(AskEvict(n))))
  {
    var d' := Do(d, Protocol(AskEvict(n)));
    PageTheorems.StepKeeps(d.s, AskEvict(n));
    assert NodeOkIn(d.s, n) && CopyOkIn(d, n);
    if n !in d.s.g.holders || d.s.g.pending {
      OneNodeData(d, d', n);
    } else {
      DropFacts(d.s.g, n);
      forall k | k in d'.s.nodes ensures CopyOkIn(d', k) { EvictOther(d, n, k); }
      if d'.s.g.holders != [] { assert d'.s.g.holders[0] in d.valid - {n}; }
    }
  }

  lemma StepKeepsData(d: Data, e: Step)
    requires DataInv(d) && May(d, Protocol(e))
    ensures DataInv(Do(d, Protocol(e)))
  {
    match e
    case Ask(n) => AskKeepsData(d, n);
    case RemoteOK(n) => RemoteOKKeeps(d, n);
    case Unlock(n) => UnlockKeepsData(d, n);
    case PendingArrives(n) =>
      if OnPending(d.s.nodes[n], d.s.pend[n]).1 { PendingKeepsData(d, n); } else { QuietKeeps(d, e); }
    case AskEvict(n) => EvictKeepsData(d, n);
    case FinishEvict(n) => FinishEvictKeeps(d, n);
    case _ => QuietKeeps(d, e);
  }

  lemma ActionKeeps(d: Data, a: Action)
    requires DataInv(d) && May(d, a)
    ensures DataInv(Do(d, a))
  {
    match a
    case Protocol(e) => StepKeepsData(d, e);
    case Write(n) => WriteKeeps(d, n);
    case Load(n) => LoadKeeps(d, n);
    case PushListed(n, to) => PushListedKeeps(d, n, to);
    case PushArrives(n) => PushArrivesKeeps(d, n);
  }
}
