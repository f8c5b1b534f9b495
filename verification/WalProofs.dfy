/** The log watermark, the page chains, and write-ahead logging, in every run. */
module WalProofs {
  import opened Options
  import opened WriteAheadLog

  // ----- one log -----

  lemma {:induction false} MaxIsLast(recs: seq<Rec>)
    requires Increasing(recs)
    ensures MaxLsn(recs) == LastLsn(recs)
  {
    if recs == [] {
    } else {
      var front := recs[..|recs| - 1];
      assert Increasing(front);
      MaxIsLast(front);
    }
  }

  /** What is not durable yet has a larger LSN than everything that is. */
  lemma AfterDurable(n: Node, log: Log, i: nat)
    requires LogOk(n, log) && |log.durable| <= i < |Issued(log)|
    ensures Issued(log)[i].lsn > LastLsn(log.durable)
  {
    assert Issued(log)[i] in Issued(log);
    var d := |log.durable|;
    if d > 0 { assert Issued(log)[d - 1] == log.durable[d - 1]; }
  }

  /** A record of the node at or below the watermark is durable. */
  lemma BelowWatermark(n: Node, log: Log, r: Rec)
    requires LogOk(n, log) && r in Issued(log) && r.lsn <= log.persist
    ensures r in log.durable
  {
    var all := Issued(log);
    var i :| 0 <= i < |all| && all[i] == r;
    if i >= |log.durable| { AfterDurable(n, log, i); }
  }

  /** Issuing one more record keeps the log in order. */
  lemma AppendKeeps(n: Node, log: Log, r: Rec)
    requires LogOk(n, log) && r.node == n && r.lsn > log.cur
    ensures LogOk(n, Append(log, r))
    ensures forall q :: q in Issued(log) || q == r ==> q in Issued(Append(log, r))
  {
    assert Issued(Append(log, r)) == Issued(log) + [r];
  }

  lemma TakenKeeps(n: Node, log: Log)
    requires LogOk(n, log) && !log.flushing && log.queued != []
    ensures LogOk(n, Taken(log)) && Issued(Taken(log)) == Issued(log)
  {
    assert Issued(log) == log.durable + log.queued == Issued(Taken(log));
    assert Increasing(log.queued) by { assert log.queued == Issued(log)[|log.durable|..]; }
    MaxIsLast(log.queued);
  }

  lemma StoredKeeps(n: Node, log: Log)
    requires LogOk(n, log) && log.flushing && log.batch != []
    ensures LogOk(n, Stored(log)) && Issued(Stored(log)) == Issued(log) && log.durable <= Stored(log).durable
  {
    assert Issued(Stored(log)) == Issued(log);
    assert LastLsn(Stored(log).durable) == LastLsn(log.batch);
    if log.durable != [] {
      var i, j := |log.durable| - 1, |log.durable| + |log.batch| - 1;
      assert Issued(log)[i] == log.durable[i] && Issued(log)[j] == log.batch[|log.batch| - 1];
    }
  }

  // ----- logs and pages -----

  /** Nothing that was issued or durable is lost. */
  ghost predicate LogsGrow(s: State, s': State) {
    && (forall n :: n in s.logs ==> n in s'.logs)
    && (forall r :: IsIssued(s, r) ==> IsIssued(s', r))
    && (forall r :: IsDurable(s, r) ==> IsDurable(s', r))
  }

  lemma OneLogGrows(s: State, s': State, n: Node)
    requires n in s.logs && n in s'.logs && s'.logs == s.logs[n := s'.logs[n]]
    requires forall r :: r in Issued(s.logs[n]) ==> r in Issued(s'.logs[n])
    requires s.logs[n].durable <= s'.logs[n].durable
    ensures LogsGrow(s, s')
  {}

  /** A page that does not change stays in order while logs grow. */
  lemma SamePage(s: State, s': State, p: PageNo)
    requires p in s.pages && PageOk(s, p) && p in s'.pages && s'.pages[p] == s.pages[p]
    requires forall t: Task :: t.page == p ==> (t in s'.tasks <==> t in s.tasks)
    requires forall m: Push :: m.page == p ==> (m in s'.pushes <==> m in s.pushes)
    requires LogsGrow(s, s')
    ensures PageOk(s', p)
  {
    assert InFlight(s', p) <==> InFlight(s, p);
  }

  lemma LogStepKeeps(s: State, n: Node, log: Log)
    requires Inv(s) && n in s.logs && LogOk(n, log)
    requires (forall r :: r in Issued(s.logs[n]) ==> r in Issued(log)) && s.logs[n].durable <= log.durable
    ensures Inv(PutLog(s, n, log))
  {
    var s' := PutLog(s, n, log);
    OneLogGrows(s, s', n);
    forall p | p in s'.pages ensures PageOk(s', p) { SamePage(s, s', p); }
  }

  /** Appending, flushing and publishing. */
  lemma LogKeeps(s: State, e: Step)
    requires Inv(s) && Enabled(s, e) && IsLogStep(e)
    ensures Inv(Apply(s, e))
  {
    var log := s.logs[e.n];
    assert LogOk(e.n, log);
    match e {
      case Meta(n) =>
        AppendKeeps(n, log, Rec(n, log.cur + 1, 0, None));
        LogStepKeeps(s, n, Append(log, Rec(n, log.cur + 1, 0, None)));
      case TakeBatch(n) =>
        TakenKeeps(n, log);
        LogStepKeeps(s, n, Taken(log));
      case StoreBatch(n) =>
        StoredKeeps(n, log);
        LogStepKeeps(s, n, Stored(log));
      case PublishLsn(n) => LogStepKeeps(s, n, Published(log));
      case MarkReady(n, lsn) => LogStepKeeps(s, n, log.(ready := Max(log.ready, lsn)));
    }
  }

  // ----- a page is written -----

  lemma ChainGrows(p: PageNo, chain: seq<Rec>, r: Rec)
    requires ChainOk(p, chain) && r.page == Some(p) && r.lsn > LastLsn(chain) && r.prev == LastLsn(chain)
    ensures ChainOk(p, chain + [r])
  {}

  lemma WriteLog(s: State, n: Node, p: PageNo)
    requires Inv(s) && Enabled(s, Write(n, p))
    ensures var s' := DoWrite(s, n, p);
      LogOk(n, s'.logs[n]) && LogsGrow(s, s') && forall r :: r in s'.pages[p].chain ==> IsIssued(s', r)
  {
    var s' := DoWrite(s, n, p);
    var r := Rec(n, NextLsn(s.logs[n].cur, LastLsn(s.pages[p].chain)), LastLsn(s.pages[p].chain), Some(p));
    AppendKeeps(n, s.logs[n], r);
    OneLogGrows(s, s', n);
    assert PageOk(s, p);
  }

  lemma WrittenPage(s: State, n: Node, p: PageNo)
    requires Inv(s) && Enabled(s, Write(n, p))
    ensures PageOk(DoWrite(s, n, p), p)
  {
    var s' := DoWrite(s, n, p);
    WriteLog(s, n, p);
    assert PageOk(s, p);
    var chain, chain' := s.pages[p].chain, s'.pages[p].chain;
    ChainGrows(p, chain, chain'[|chain|]);
    assert CopyOk(s, s.pages[p], n);
    assert DurableBut(s', chain', n);
    assert !InFlight(s, p) && !InFlight(s', p);
  }

  lemma WriteKeeps(s: State, n: Node, p: PageNo)
    requires Inv(s) && Enabled(s, Write(n, p))
    ensures Inv(DoWrite(s, n, p))
  {
    var s' := DoWrite(s, n, p);
    WriteLog(s, n, p);
    forall q | q in s'.pages ensures PageOk(s', q) {
      if q != p { SamePage(s, s', q); } else { WrittenPage(s, n, p); }
    }
  }

  // ----- a page leaves, arrives, is dropped or loaded -----

  /** The watermark covers the page's last record, so it covers all records of that node on it. */
  lemma WatermarkCovers(s: State, p: PageNo, n: Node)
    requires p in s.pages && n in s.logs && LogOk(n, s.logs[n]) && ChainOk(p, s.pages[p].chain)
    requires forall r :: r in s.pages[p].chain ==> IsIssued(s, r)
    requires DurableBut(s, s.pages[p].chain, n) && LastLsn(s.pages[p].chain) <= s.logs[n].persist
    ensures AllDurable(s, s.pages[p].chain)
  {
    var chain := s.pages[p].chain;
    forall r | r in chain && r.node == n ensures IsDurable(s, r) {
      assert r.lsn <= LastLsn(chain);
      BelowWatermark(n, s.logs[n], r);
    }
  }

  /** wait_log_flush has returned: the whole chain is durable. */
  lemma CoveredIsDurable(s: State, n: Node, p: PageNo)
    requires Inv(s) && HasCopy(s, n, p) && Covered(s, n, p)
    ensures AllDurable(s, s.pages[p].chain)
  {
    assert PageOk(s, p);
    assert CopyOk(s, s.pages[p], n);
    if n in s.pages[p].dirty { WatermarkCovers(s, p, n); }
  }

  /** A scheduled push runs only when the whole chain is durable. */
  lemma RunnableIsDurable(s: State, t: Task)
    requires Inv(s) && Enabled(s, RunTask(t))
    ensures AllDurable(s, s.pages[t.page].chain)
  {
    assert PageOk(s, t.page);
    assert TaskOk(s, t, s.pages[t.page]);
    if !t.can {
      if t.wait == 0 { assert s.pages[t.page].chain == []; } else { WatermarkCovers(s, t.page, t.from); }
    }
  }

  /** The page a step works on; zero for a step of the log. */
  function PageOf(e: Step): PageNo {
    match e
    case Write(_, p) => p
    case Clean(_, p) => p
    case PushNow(_, p, _) => p
    case PushLater(_, p, _) => p
    case RunTask(t) => t.page
    case Arrive(m) => m.page
    case DropCopy(_, p) => p
    case Evict(_, p) => p
    case Load(_, p) => p
    case _ => 0
  }

  predicate IsLogStep(e: Step) {
    e.Meta? || e.TakeBatch? || e.StoreBatch? || e.PublishLsn? || e.MarkReady?
  }

  /** Pushes: the page itself does not change, a new copy gets under way. */
  lemma PushedPage(s: State, e: Step)
    requires Inv(s) && Enabled(s, e) && (e.PushNow? || e.PushLater? || e.RunTask?)
    ensures PageOk(Apply(s, e), PageOf(e))
  {
    var p := PageOf(e);
    assert PageOk(s, p);
    if e.PushNow? { CoveredIsDurable(s, e.n, p); }
    if e.PushLater? { LaterOk(s, e.n, p, e.to); }
    if e.RunTask? {
      RunnableIsDurable(s, e.t);
      assert Push(p, e.t.to) in Apply(s, e).pushes;
    }
    FlightOk(s, Apply(s, e), p);
  }

  /** More copies on their way. */
  lemma FlightOk(s: State, s': State, p: PageNo)
    requires p in s.pages && PageOk(s, p) && s'.logs == s.logs && s'.pages == s.pages
    requires forall t: Task :: t in s'.tasks && t.page == p ==> t in s.tasks || TaskOk(s, t, s.pages[p])
    requires forall m: Push :: m in s'.pushes && m.page == p ==> m in s.pushes || AllDurable(s, s.pages[p].chain)
    requires s.pages[p].at != {} || InFlight(s', p) || AllDurable(s, s.pages[p].chain)
    ensures PageOk(s', p)
  {
    assert forall r :: (IsDurable(s', r) <==> IsDurable(s, r)) && (IsIssued(s', r) <==> IsIssued(s, r));
  }

  /** A copy is cleaned, arrives, goes away or is loaded from storage. */
  lemma CopiedPage(s: State, e: Step)
    requires Inv(s) && Enabled(s, e) && (e.Clean? || e.Arrive? || e.DropCopy? || e.Evict? || e.Load?)
    ensures PageOk(Apply(s, e), PageOf(e))
  {
    var p := PageOf(e);
    assert PageOk(s, p);
    if e.Clean? || e.Evict? { CoveredIsDurable(s, e.n, p); }
    CopiesOk(s, Apply(s, e), p);
  }

  /** Fewer or cleaner copies of a page whose chain is durable where it has to be. */
  lemma CopiesOk(s: State, s': State, p: PageNo)
    requires p in s.pages && PageOk(s, p) && p in s'.pages && s'.logs == s.logs && s'.tasks == s.tasks
    requires s'.pages[p].chain == s.pages[p].chain && s'.pages[p].dirty <= s.pages[p].dirty * s'.pages[p].at
    requires forall m: Push :: m.page == p && m in s'.pushes ==> m in s.pushes
    requires AllDurable(s, s.pages[p].chain)
             || (s'.pushes == s.pushes && s'.pages[p].at <= s.pages[p].at
                 && s'.pages[p].dirty == s.pages[p].dirty * s'.pages[p].at && (s'.pages[p].at == {} ==> InFlight(s, p)))
    requires forall n :: n in s'.pages[p].at ==> n in s.logs
    ensures PageOk(s', p)
  {
    assert s'.pushes == s.pushes ==> (InFlight(s', p) <==> InFlight(s, p));
    assert forall r :: IsDurable(s', r) <==> IsDurable(s, r);
  }

  lemma MovedPage(s: State, e: Step)
    requires Inv(s) && Enabled(s, e) && !IsLogStep(e) && !e.Write?
    ensures PageOf(e) in Apply(s, e).pages && PageOk(Apply(s, e), PageOf(e))
  {
    if e.PushNow? || e.PushLater? || e.RunTask? { PushedPage(s, e); } else { CopiedPage(s, e); }
  }

  lemma LaterOk(s: State, n: Node, p: PageNo, to: Node)
    requires Inv(s) && HasCopy(s, n, p)
    ensures TaskOk(s, NewTask(s, n, p, to), s.pages[p])
  {
    assert PageOk(s, p);
    assert CopyOk(s, s.pages[p], n);
    var t := NewTask(s, n, p, to);
    if Covered(s, n, p) { CoveredIsDurable(s, n, p); }
    else if t.can { WatermarkCovers(s, p, n); }
  }

  lemma MoveKeeps(s: State, e: Step)
    requires Inv(s) && Enabled(s, e) && !IsLogStep(e) && !e.Write?
    ensures Inv(Apply(s, e))
  {
    var s' := Apply(s, e);
    MovedPage(s, e);
    forall q | q in s'.pages ensures PageOk(s', q) {
      if q != PageOf(e) { SamePage(s, s', q); }
    }
  }

  lemma StepKeeps(s: State, e: Step)
    requires Inv(s) && Enabled(s, e)
    ensures Inv(Apply(s, e))
  {
    if IsLogStep(e) { LogKeeps(s, e); }
    else if e.Write? { WriteKeeps(s, e.n, e.p); }
    else { MoveKeeps(s, e); }
  }

  lemma {:induction false} RunKeeps(s: State, steps: seq<Step>)
    requires Inv(s) && Legal(s, steps)
    ensures Inv(After(s, steps))
    decreases |steps|
  {
    if steps == [] {
    } else {
      StepKeeps(s, steps[0]);
      RunKeeps(Apply(s, steps[0]), steps[1..]);
    }
  }

  ghost predicate Reachable(s: State) {
    exists s0, steps :: Init(s0) && Legal(s0, steps) && After(s0, steps) == s
  }

  lemma ReachableInv(s: State)
    requires Reachable(s)
    ensures Inv(s)
  {
    var s0, steps :| Init(s0) && Legal(s0, steps) && After(s0, steps) == s;
    RunKeeps(s0, steps);
  }

  // ----- main results -----

  /**
   Durable, in-flight and queued records of a node together are strictly
   LSN-increasing, so once the watermark has reached `lsn`, as it has when
   wait_log_flush(lsn) returns, every record the node issued at or below `lsn`
   is durable.
   */
  lemma WatermarkIsSafe(s: State, n: Node, lsn: nat, r: Rec)
    requires Reachable(s) && n in s.logs && lsn <= s.logs[n].persist
    requires r in Issued(s.logs[n]) && r.lsn <= lsn
    ensures r in s.logs[n].durable && Increasing(Issued(s.logs[n]))
  {
    ReachableInv(s);
    BelowWatermark(n, s.logs[n], r);
  }

  /** Whichever nodes wrote it, a page's records have increasing LSNs and each names its predecessor exactly. */
  lemma ChainAcrossNodes(s: State, p: PageNo, i: nat)
    requires Reachable(s) && p in s.pages && i < |s.pages[p].chain|
    ensures var chain := s.pages[p].chain;
      && IsIssued(s, chain[i])
      && (if i == 0 then chain[i].prev == 0 else chain[i].prev == chain[i - 1].lsn < chain[i].lsn)
  {
    ReachableInv(s);
    assert PageOk(s, p);
  }

  /** No other node ever sees a page whose log is not durable: on arrival every record is. */
  lemma WalBeforeArrival(s: State, m: Push)
    requires Reachable(s) && Enabled(s, Arrive(m))
    ensures AllDurable(s, s.pages[m.page].chain)
  {
    ReachableInv(s);
    assert PageOk(s, m.page);
  }

  /** Ownership is given up by eviction only with a durable chain. */
  lemma WalBeforeEviction(s: State, n: Node, p: PageNo)
    requires Reachable(s) && Enabled(s, Evict(n, p))
    ensures AllDurable(s, s.pages[p].chain)
  {
    ReachableInv(s);
    CoveredIsDurable(s, n, p);
  }

  /** At any time, the only records of a page that a copy may be ahead of are its own node's. */
  lemma OnlyOwnRecordsAreVolatile(s: State, n: Node, p: PageNo, r: Rec)
    requires Reachable(s) && HasCopy(s, n, p) && r in s.pages[p].chain && !IsDurable(s, r)
    ensures r.node == n && n in s.pages[p].dirty
  {
    ReachableInv(s);
    assert PageOk(s, p);
    assert CopyOk(s, s.pages[p], n);
  }
}
