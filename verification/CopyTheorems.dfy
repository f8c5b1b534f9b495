/** Whoever uses the page has its newest version; no write is lost, and the log's conditions on copies hold. */
module CopyTheorems {
  import opened Options
  import opened PageLockTypes
  import opened PageOwnership
  import opened PageSteps
  import PageTheorems
  import opened PageCopies
  import opened CopySteps
  import Log = WriteAheadLog

  // ----- the invariant holds in every run -----

  ghost predicate Reachable(d: Data) {
    exists d0, run :: Start(d0) && Follows(d0, run) && End(d0, run) == d
  }

  lemma {:induction false} RunKeeps(d: Data, run: seq<Action>)
    requires DataInv(d) && PageTheorems.Reachable(d.s) && Follows(d, run)
    ensures DataInv(End(d, run)) && PageTheorems.Reachable(End(d, run).s)
    decreases |run|
  {
    if run == [] {
    } else {
      ActionKeeps(d, run[0]);
      if run[0].Protocol? { PageTheorems.ReachableStep(d.s, run[0].e, Do(d, run[0]).s); }
      RunKeeps(Do(d, run[0]), run[1..]);
    }
  }

  /** Every run of the copies is a run of the ownership protocol, and keeps the copies in order. */
  lemma ReachableData(d: Data)
    requires Reachable(d)
    ensures DataInv(d) && PageTheorems.Reachable(d.s)
  {
    var d0, run :| Start(d0) && Follows(d0, run) && End(d0, run) == d;
    assert Legal(d0.s, []) && After(d0.s, []) == d0.s;
    forall n | n in d0.s.nodes ensures NodeOkIn(d0.s, n) && CopyOkIn(d0, n) {}
    RunKeeps(d0, run);
  }

  lemma {:induction false} OneMoreAction(d0: Data, run: seq<Action>, a: Action)
    requires Follows(d0, run) && May(End(d0, run), a)
    ensures Follows(d0, run + [a]) && End(d0, run + [a]) == Do(End(d0, run), a)
    decreases |run|
  {
    if run == [] {
      assert [] + [a] == [a] && [a][1..] == [];
      assert End(d0, [a]) == End(Do(d0, a), []);
    } else {
      assert (run + [a])[1..] == run[1..] + [a];
      OneMoreAction(Do(d0, run[0]), run[1..], a);
    }
  }

  /** A run goes on with any possible action. */
  lemma ReachableAction(d: Data, a: Action, d': Data)
    requires Reachable(d) && May(d, a) && Do(d, a) == d'
    ensures Reachable(d')
  {
    var d0, run :| Start(d0) && Follows(d0, run) && End(d0, run) == d;
    OneMoreAction(d0, run, a);
  }

  // ----- the newest version -----

  /** Whoever uses the page has its newest version. */
  lemma UsersHaveTheNewest(d: Data, n: Node)
    requires Reachable(d) && n in d.s.nodes && InUse(d.s.nodes[n])
    ensures n in d.copy && d.copy[n] == d.version
  {
    ReachableData(d);
    OwnerOf(d, n);
    assert CopyOkIn(d, n);
  }

  /** While a node uses the page exclusively, no other node has a copy and none is on its way. */
  lemma WriterHasTheOnlyCopy(d: Data, n: Node)
    requires Reachable(d) && n in d.s.nodes && InExclusiveUse(d.s.nodes[n])
    ensures !InFlight(d) && forall k :: HasCopy(d, k) <==> k == n
  {
    ReachableData(d);
    OwnerOf(d, n);
    assert CopyOkIn(d, n) && NodeOkIn(d.s, n);
    forall k | k in d.s.nodes && k != n ensures !HasCopy(d, k) && (k in d.via ==> !d.via[k].Flying?) {
      SoleCopy(d, n, k);
    }
  }

  /** Storage is asked only when no node has a copy and none is on its way. */
  lemma LoadFindsNoCopy(d: Data, n: Node)
    requires Reachable(d) && May(d, Load(n))
    ensures !InFlight(d) && forall k :: !HasCopy(d, k)
  {
    ReachableData(d);
    assert CopyOkIn(d, n) && NodeOkIn(d.s, n);
    forall k | k in d.s.nodes ensures !HasCopy(d, k) && (k in d.via ==> !d.via[k].Flying?) {
      assert CopyOkIn(d, k) && NodeOkIn(d.s, k);
    }
  }

  /** A node whose copy has arrived still asks for the page, so it is not throwing the copy away. */
  lemma ArrivedIsCopy(d: Data, m: Node)
    requires DataInv(d) && m in d.via && d.via[m] == Arrived
    ensures HasCopy(d, m) && d.copy[m] == d.version
  {
    assert CopyOkIn(d, m) && NodeOkIn(d.s, m);
    SrcIsQueued(d.s, m);
  }

  /** While the page has holders and does not come from storage, its newest version is somewhere. */
  lemma VersionIsSomewhere(d: Data, h: Node)
    requires DataInv(d) && h in d.s.g.holders && (h in d.via ==> d.via[h] != Storage)
    ensures InFlight(d) || exists k :: HasCopy(d, k) && d.copy[k] == d.version
  {
    assert CopyOkIn(d, h) && NodeOkIn(d.s, h);
    SrcIsQueued(d.s, h);
    if Owns(d.s.nodes[h]) {
      assert HasCopy(d, h);
    } else if d.via[h] == Arrived {
      ArrivedIsCopy(d, h);
    } else if d.via[h].Listed? && d.via[d.via[h].from] == Arrived {
      ArrivedIsCopy(d, d.via[h].from);
    }
  }

  /** The step makes its node give the page up to the next owner. */
  predicate Leaving(d: Data, e: Step)
    requires MayStep(d, e)
  {
    || (e.Unlock? && Unlatch(d.s.nodes[e.n]).1)
    || (e.PendingArrives? && OnPending(d.s.nodes[e.n], d.s.pend[e.n]).1)
  }

  lemma LeavingFacts(d: Data, e: Step)
    requires DataInv(d) && May(d, Protocol(e)) && Leaving(d, e)
    ensures HasCopy(d, e.n) && e.n in d.s.g.holders && e.n !in d.via
    ensures Do(d, Protocol(e)).s.g == AnyUnlock(d.s.g, e.n).g && MayLeave(d.s.g, e.n)
  {
    if e.Unlock? {
      OwnerOf(d, e.n);
      PageTheorems.UnlockLeaves(d.s, e.n);
    } else {
      PendingOwner(d, e.n);
      PageTheorems.PendingLeaves(d.s, e.n);
    }
    assert CopyOkIn(d, e.n);
  }

  ghost predicate NoneFromStorage(d: Data) {
    forall k :: k in d.via ==> d.via[k] != Storage
  }

  lemma InformedFacts(d: Data, next: Global, w: Node)
    requires NoneFromStorage(d)
    ensures forall k :: k in Informed(d, next, w) ==> Informed(d, next, w)[k] != Storage
  {
  }

  lemma LeaveDataFacts(d: Data, n: Node)
    requires NoneFromStorage(d)
    ensures NoneFromStorage(LeaveData(d, n)) && n !in LeaveData(d, n).copy && LeaveData(d, n).version == d.version
  {
    var (next, granted) := Transfer(Drop(d.s.g, n));
    if d.s.g.src.Some? {
      InformedFacts(d, next, d.s.g.src.value);
    }
  }

  lemma PushOutFacts(d: Data, n: Node)
    requires NoneFromStorage(d)
    ensures NoneFromStorage(PushOut(d, n)) && PushOut(d, n).version == d.version
  {
  }

  lemma LeavingShape(d: Data, e: Step)
    requires DataInv(d) && May(d, Protocol(e)) && Leaving(d, e)
    ensures Do(d, Protocol(e)) == LeaveData(PushOut(d, e.n), e.n).(s := Apply(d.s, e)) && NoneFromStorage(d)
  {
    LeavingFacts(d, e);
    forall k | k in d.via ensures d.via[k] != Storage { assert CopyOkIn(d, k); }
  }

  /** A holder that leaves drops its copy, and the version it had is with somebody else or on its way. */
  lemma LeavingLosesNothing(d: Data, e: Step)
    requires Reachable(d) && May(d, Protocol(e)) && Leaving(d, e)
    ensures var d' := Do(d, Protocol(e));
      && HasCopy(d, e.n) && e.n !in d'.copy && d'.version == d.version
      && (InFlight(d') || exists k :: HasCopy(d', k) && d'.copy[k] == d'.version)
  {
    ReachableData(d);
    LeavingFacts(d, e);
    LeavingShape(d, e);
    PushOutFacts(d, e.n);
    LeaveDataFacts(PushOut(d, e.n), e.n);
    ActionKeeps(d, Protocol(e));
    PassedHolder(d.s.g, e.n);
    VersionIsSomewhere(Do(d, Protocol(e)), AnyUnlock(d.s.g, e.n).g.holders[0]);
  }

  lemma PassedHolder(g: Global, n: Node)
    requires GlobalOk(g) && MayLeave(g, n)
    ensures AnyUnlock(g, n).g.holders != []
  {
    DropFacts(g, n);
    if Transfer(Drop(g, n)).1 { PassFacts(g, n); } else { StillGlobal(g, n); }
  }

  // ----- what the code asserts -----

  /** The assertions about copies, action by action. */
  predicate CopyChecks(d: Data, a: Action)
    requires May(d, a)
  {
    match a
    case PushArrives(n) => n in d.s.nodes && d.s.nodes[n].granting && n !in d.copy
    case Load(n) => n in d.s.nodes && d.s.nodes[n].granting && n !in d.copy
    case PushListed(n, to) => to != n && d.s.nodes[n].lock != Exclusive && to in d.s.nodes && d.s.nodes[to].granting
    case Write(n) => d.copy[n] == d.version
    case Protocol(e) => StepChecks(d, e)
  }

  predicate StepChecks(d: Data, e: Step)
    requires MayStep(d, e)
  {
    var l := d.s.nodes[e.n];
    match e
    case Ask(n) =>
      Asked(d.s, n).granted ==>
        (l.lock == Exclusive || n !in d.valid) && (n !in d.valid ==> d.newest != Some(n))
    case RemoteOK(n) => n in d.copy
    case Unlock(n) => n in d.copy
    case PendingArrives(n) => OnPending(l, d.s.pend[n]).1 ==> n in d.copy
    case CheckEvict(n) => l.mode != NONE ==> n in d.copy
    case AskEvict(n) => n in d.s.g.holders && !d.s.g.pending ==> n in d.valid && n in d.copy
    case FinishEvict(n) => n in d.copy
    case _ => true
  }

  lemma StepChecksHold(d: Data, e: Step)
    requires DataInv(d) && May(d, Protocol(e))
    ensures StepChecks(d, e)
  {
    assert CopyOkIn(d, e.n) && NodeOkIn(d.s, e.n);
    if e.Ask? { AskFacts(d.s, e.n); }
  }

  lemma ListChecksHold(d: Data, n: Node, to: Node)
    requires DataInv(d) && May(d, PushListed(n, to))
    ensures CopyChecks(d, PushListed(n, to))
  {
    assert CopyOkIn(d, n) && NodeOkIn(d.s, n) && CopyOkIn(d, to) && NodeOkIn(d.s, to);
  }

  /**
   A pushed page finds its node asking for it and without a copy; a node that
   reads, sends, evicts or drops a page has it; nobody sends a page to itself.
   */
  lemma CopyChecksHold(d: Data, a: Action)
    requires Reachable(d) && May(d, a)
    ensures CopyChecks(d, a)
  {
    ReachableData(d);
    match a
    case PushArrives(n) =>
      assert CopyOkIn(d, n) && NodeOkIn(d.s, n);
      SrcIsQueued(d.s, n);
    case Load(n) => assert CopyOkIn(d, n) && NodeOkIn(d.s, n);
    case PushListed(n, to) => ListChecksHold(d, n, to);
    case Write(n) => UsersHaveTheNewest(d, n);
    case Protocol(e) => StepChecksHold(d, e);
  }

  // ----- one copy for everybody -----

  /** How far the copy of a node has come. */
  function Stage(v: Source): nat {
    match v
    case Flying(_) => 1
    case Arrived => 2
    case Has => 2
    case _ => 0
  }

  /** The source of node `k` is the same, has come further, or is used up. */
  predicate Advances(d: Data, d': Data, k: Node) {
    k in d.via ==>
      if k in d'.via then d'.via[k] == d.via[k] || Stage(d.via[k]) < Stage(d'.via[k]) else HasData(d, k)
  }

  lemma PushOutAdvances(d: Data, n: Node, k: Node)
    ensures Advances(d, PushOut(d, n), k) && (k in PushOut(d, n).via <==> k in d.via)
  {
  }

  /** Leaving itself takes no source away. */
  lemma LeaveAdvances(d: Data, s: State, n: Node, l: Local, k: Node)
    requires Departs(d, s, n, l) && k in d.via
    ensures k in LeaveData(d, n).via && LeaveData(d, n).via[k] == d.via[k]
  {
    if Transfer(Drop(s.g, n)).1 {
      OnlyTheNext(d, s, n, l);
      PassedSources(d, s, n, l, k);
    }
  }

  lemma UnlockAdvances(d: Data, n: Node, k: Node)
    requires DataInv(d) && May(d, Protocol(Unlock(n)))
    ensures Advances(d, Do(d, Protocol(Unlock(n))), k)
  {
    PushOutAdvances(d, n, k);
    if Unlatch(d.s.nodes[n]).1 && k in d.via {
      OwnerOf(d, n);
      PushOutKeeps(d, n);
      PageTheorems.UnlockLeaves(d.s, n);
      LeaveAdvances(PushOut(d, n), d.s, n, Unlatch(d.s.nodes[n]).0, k);
    }
  }

  lemma PendingAdvances(d: Data, n: Node, k: Node)
    requires DataInv(d) && May(d, Protocol(PendingArrives(n)))
    ensures Advances(d, Do(d, Protocol(PendingArrives(n))), k)
  {
    var l := d.s.nodes[n];
    PushOutAdvances(d, n, k);
    if OnPending(l, d.s.pend[n]).1 && k in d.via {
      PendingOwner(d, n);
      PushOutKeeps(d, n);
      PageTheorems.PendingLeaves(d.s, n);
      LeaveAdvances(PushOut(d, n), d.s.(pend := d.s.pend - {n}), n, OnPending(l, d.s.pend[n]).0, k);
    }
  }

  lemma AskAdvances(d: Data, n: Node, k: Node)
    requires DataInv(d) && May(d, Protocol(Ask(n)))
    ensures Advances(d, Do(d, Protocol(Ask(n))), k)
  {
    AskManager(d, n);
  }

  lemma RestAdvances(d: Data, a: Action, k: Node)
    requires May(d, a) && (a.Protocol? ==> !a.e.Unlock? && !a.e.PendingArrives? && !a.e.Ask?)
    ensures Advances(d, Do(d, a), k)
  {
  }

  lemma StepAdvances(d: Data, e: Step, k: Node)
    requires DataInv(d) && May(d, Protocol(e))
    ensures Advances(d, Do(d, Protocol(e)), k)
  {
    match e
    case Unlock(n) => UnlockAdvances(d, n, k);
    case PendingArrives(n) => PendingAdvances(d, n, k);
    case Ask(n) => AskAdvances(d, n, k);
    case _ => RestAdvances(d, Protocol(e), k);
  }

  /** No step gives a node a second source: each is sent one copy, uses it, and only then asks again. */
  lemma OneSourceEach(d: Data, a: Action, k: Node)
    requires Reachable(d) && May(d, a)
    ensures Advances(d, Do(d, a), k)
  {
    ReachableData(d);
    if a.Protocol? { StepAdvances(d, a.e, k); } else { RestAdvances(d, a, k); }
  }

  // ----- nobody waits in vain -----

  /** Actions by which a round goes on, as opposed to new requests, writes and evictions. */
  predicate Serves(a: Action) {
    match a
    case Protocol(e) => e.PendingArrives? || e.Unlock? || e.SuccessArrives? || e.Notice? || e.RemoteOK?
    case Write(_) => false
    case _ => true
  }

  ghost predicate CanServe(d: Data) { exists a :: May(d, a) && Serves(a) }

  /** A node that has been granted the page and is not using it yet has its copy, or something can be done about it. */
  lemma CopyComes(d: Data, n: Node)
    requires DataInv(d) && n in d.s.nodes && Granted(d.s.nodes[n], Get(d.s.grant, n))
    ensures HasData(d, n) || CanServe(d)
  {
    assert CopyOkIn(d, n);
    SrcIsQueued(d.s, n);
    match d.via[n]
    case Storage => assert May(d, Load(n)) && Serves(Load(n));
    case Flying(_) => assert May(d, PushArrives(n)) && Serves(PushArrives(n));
    case Listed(m) =>
      if d.via[m].Flying? { assert May(d, PushArrives(m)) && Serves(PushArrives(m)); } else { ListMoves(d, m, n); }
    case _ =>
  }

  /** The reader that has to send the page on can do so, or is still to hear that it owns the page. */
  lemma ListMoves(d: Data, m: Node, n: Node)
    requires DataInv(d) && n in d.via && d.via[n] == Listed(m) && m in d.via && d.via[m] == Arrived
    requires n in d.s.nodes && CopyOkIn(d, n)
    ensures CanServe(d)
  {
    assert CopyOkIn(d, m) && NodeOkIn(d.s, m);
    var l := d.s.nodes[m];
    if l.request == Won { assert May(d, PushListed(m, n)) && Serves(PushListed(m, n)); }
    else if l.success { assert May(d, Protocol(Notice(m))) && Serves(Protocol(Notice(m))); }
    else { assert May(d, Protocol(SuccessArrives(m))) && Serves(Protocol(SuccessArrives(m))); }
  }

  /** While requests wait, some step towards serving them can be taken, even though users wait for their copies. */
  lemma AlwaysServes(d: Data)
    requires Reachable(d) && d.s.g.queue != []
    ensures CanServe(d)
  {
    ReachableData(d);
    PageTheorems.NeverStuck(d.s);
    var n :| n in d.s.g.holders && d.s.g.src != Some(n) && PageTheorems.CanMoveOn(d.s, n);
    if Enabled(d.s, RemoteOK(n)) {
      LastStep(d, n);
    } else {
      var e := if Enabled(d.s, PendingArrives(n)) then PendingArrives(n)
               else if Enabled(d.s, Unlock(n)) then Unlock(n)
               else if Enabled(d.s, Notice(n)) then Notice(n)
               else SuccessArrives(n);
      assert May(d, Protocol(e)) && Serves(Protocol(e));
    }
  }

  lemma LastStep(d: Data, n: Node)
    requires DataInv(d) && Enabled(d.s, RemoteOK(n))
    ensures CanServe(d)
  {
    CopyComes(d, n);
    if HasData(d, n) {
      if ListServed(d, n) {
        assert May(d, Protocol(RemoteOK(n))) && Serves(Protocol(RemoteOK(n)));
      } else {
        var k :| k in d.via && d.via[k] == Listed(n);
        assert CopyOkIn(d, n) && CopyOkIn(d, k);
        assert May(d, PushListed(n, k)) && Serves(PushListed(n, k));
      }
    }
  }

  /** A request that only reads could be granted at once, but the copy it would be sent is still to come. */
  predicate CopyIsMissing(d: Data, n: Node)
    requires n in d.s.nodes
  {
    && d.s.nodes[n].lock.Shared? && d.s.g.lock.Shared? && d.s.g.queue == [] && n !in d.s.g.holders
    && d.newest.Some? && d.newest.value !in d.copy
  }

  /** A request waits at the manager only for the newest copy, and then something can be done about that copy. */
  lemma AskWaitsIff(d: Data, n: Node)
    requires Reachable(d) && Enabled(d.s, Ask(n))
    ensures !May(d, Protocol(Ask(n))) <==> CopyIsMissing(d, n)
    ensures CopyIsMissing(d, n) ==> CanServe(d)
  {
    ReachableData(d);
    AskFacts(d.s, n);
    if d.newest.Some? && d.newest.value !in d.copy { MissingComes(d, d.newest.value); }
  }

  lemma MissingComes(d: Data, m: Node)
    requires DataInv(d) && m in d.s.g.holders && m !in d.copy
    ensures CanServe(d)
  {
    assert CopyOkIn(d, m) && NodeOkIn(d.s, m);
    CopyComes(d, m);
  }

  // ----- the log's conditions -----

  /** The page in the model of the log: the same copies, and a push under way if there is one. */
  ghost predicate Mirrors(d: Data, w: Log.State, p: Log.PageNo) {
    && p in w.pages && (forall n :: n in d.s.nodes ==> n in w.logs)
    && (forall n :: n in w.pages[p].at <==> HasCopy(d, n))
    && (Log.InFlight(w, p) <==> InFlight(d))
  }

  /** A node in exclusive use may log a write to the page. */
  lemma LogMayWrite(d: Data, w: Log.State, p: Log.PageNo, n: Node)
    requires Reachable(d) && Mirrors(d, w, p) && n in d.s.nodes && InExclusiveUse(d.s.nodes[n])
    ensures Log.Enabled(w, Log.Write(n, p))
  {
    WriterHasTheOnlyCopy(d, n);
    assert w.pages[p].at == {n};
  }

  /** A node that fetches the page from storage may do so in the model of the log. */
  lemma LogMayLoad(d: Data, w: Log.State, p: Log.PageNo, n: Node)
    requires Reachable(d) && Mirrors(d, w, p) && May(d, Load(n))
    ensures Log.Enabled(w, Log.Load(n, p))
  {
    LoadFindsNoCopy(d, n);
    ReachableData(d);
    assert w.pages[p].at == {};
  }

  /** A push that arrives finds a node without a copy. */
  lemma LogMayArrive(d: Data, w: Log.State, p: Log.PageNo, n: Node)
    requires Reachable(d) && Mirrors(d, w, p) && May(d, PushArrives(n)) && Log.Push(p, n) in w.pushes
    ensures Log.Enabled(w, Log.Arrive(Log.Push(p, n)))
  {
    ReachableData(d);
    CopyChecksHold(d, PushArrives(n));
  }

  lemma InformedFlight(d: Data, next: Global, w: Node, k: Node)
    requires k in Informed(d, next, w) && Informed(d, next, w)[k].Flying?
    ensures InFlight(d)
  {
  }

  lemma LeaveFlight(d: Data, n: Node)
    requires InFlight(LeaveData(d, n))
    ensures InFlight(d)
  {
    var k :| k in LeaveData(d, n).via && LeaveData(d, n).via[k].Flying?;
    var (next, granted) := Transfer(Drop(d.s.g, n));
    if granted && d.s.g.src.Some? && next.holders != [] {
      RoundFlight(Told(d, n, next, d.s.g.src.value), NextRound(Announced(next)), k);
      InformedFlight(d, next, d.s.g.src.value, k);
    }
  }

  lemma RoundFlight(d: Data, g: Global, k: Node)
    requires k in WithRound(d, g).via && WithRound(d, g).via[k].Flying?
    ensures k in d.via && d.via[k] == WithRound(d, g).via[k]
  {
  }

  lemma LeavesAnother(d: Data, e: Step)
    requires Reachable(d) && May(d, Protocol(e)) && Leaving(d, e)
    ensures HasCopy(PushOut(d, e.n), e.n)
    ensures InFlight(PushOut(d, e.n)) || exists k :: k != e.n && HasCopy(PushOut(d, e.n), k)
  {
    ReachableData(d);
    LeavingLosesNothing(d, e);
    LeavingShape(d, e);
    if InFlight(Do(d, Protocol(e))) {
      LeaveFlight(PushOut(d, e.n), e.n);
    } else {
      var k :| HasCopy(Do(d, Protocol(e)), k);
      LeavingCopies(d, e, k);
    }
  }

  /** A holder that leaves may drop its copy: the page is in another buffer pool or on its way. */
  lemma LogMayDrop(d: Data, w: Log.State, p: Log.PageNo, e: Step)
    requires Reachable(d) && May(d, Protocol(e)) && Leaving(d, e) && Mirrors(PushOut(d, e.n), w, p)
    ensures Log.Enabled(w, Log.DropCopy(e.n, p))
  {
    LeavesAnother(d, e);
  }

  lemma LeavingCopies(d: Data, e: Step, k: Node)
    requires May(d, Protocol(e)) && Leaving(d, e) && HasCopy(Do(d, Protocol(e)), k)
    ensures k != e.n && HasCopy(PushOut(d, e.n), k)
  {
  }
}
