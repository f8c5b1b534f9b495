/**
 The waits for the log end: a clean page is let go at once, a page that its node
 has written as soon as the node's own flush has caught up, and nothing but that
 flush is waited for.
 */
module LogProgress {
  import opened Options
  import opened WriteAheadLog
  import opened WalProofs

  // ----- who wrote a dirty page last -----

  predicate LastBy(chain: seq<Rec>, n: Node) {
    chain != [] && chain[|chain| - 1].node == n
  }

  /** Between two flushes the watermark is on the last durable record. */
  predicate CaughtUp(log: Log) {
    !log.flushing ==> log.persist == LastLsn(log.durable)
  }

  /** Whatever waits, waits for a record of its own node. */
  ghost predicate WaitsForItself(s: State) {
    && (forall n :: n in s.logs ==> CaughtUp(s.logs[n]))
    && (forall p, n :: p in s.pages && n in s.pages[p].dirty ==> LastBy(s.pages[p].chain, n))
    && (forall t :: t in s.tasks && !t.can ==> t.page in s.pages && LastBy(s.pages[t.page].chain, t.from))
  }

  lemma LogCatchesUp(s: State, e: Step, n: Node)
    requires Inv(s) && Enabled(s, e) && n in s.logs && CaughtUp(s.logs[n])
    ensures n in Apply(s, e).logs && CaughtUp(Apply(s, e).logs[n])
  {
    assert LogOk(n, s.logs[n]);
  }

  lemma DirtyIsOwn(s: State, e: Step, p: PageNo, n: Node)
    requires Inv(s) && WaitsForItself(s) && Enabled(s, e) && p in Apply(s, e).pages && n in Apply(s, e).pages[p].dirty
    ensures LastBy(Apply(s, e).pages[p].chain, n)
  {
    if e.Write? { WriterIsLast(s, e.n, e.p, p, n); } else { OnlyWritesAppend(s, e, p); }
  }

  lemma WriterIsLast(s: State, w: Node, q: PageNo, p: PageNo, n: Node)
    requires Inv(s) && WaitsForItself(s) && Enabled(s, Write(w, q))
    requires p in DoWrite(s, w, q).pages && n in DoWrite(s, w, q).pages[p].dirty
    ensures LastBy(DoWrite(s, w, q).pages[p].chain, n)
  {
    assert PageOk(s, q);
    assert s.pages[q].dirty <= {w};
  }

  lemma OnlyWritesAppend(s: State, e: Step, p: PageNo)
    requires Enabled(s, e) && !e.Write? && p in Apply(s, e).pages
    ensures p in s.pages && Apply(s, e).pages[p].chain == s.pages[p].chain
    ensures Apply(s, e).pages[p].dirty <= s.pages[p].dirty
  {
  }

  lemma TaskIsOwn(s: State, e: Step, t: Task)
    requires Inv(s) && WaitsForItself(s) && Enabled(s, e) && t in Apply(s, e).tasks && !t.can
    ensures t.page in Apply(s, e).pages && LastBy(Apply(s, e).pages[t.page].chain, t.from)
  {
    assert t in s.tasks ==> InFlight(s, t.page);
  }

  lemma OwnStep(s: State, e: Step)
    requires Inv(s) && WaitsForItself(s) && Enabled(s, e)
    ensures WaitsForItself(Apply(s, e))
  {
    var s' := Apply(s, e);
    forall n | n in s'.logs ensures CaughtUp(s'.logs[n]) { LogCatchesUp(s, e, n); }
    forall p, n | p in s'.pages && n in s'.pages[p].dirty ensures LastBy(s'.pages[p].chain, n) {
      DirtyIsOwn(s, e, p, n);
    }
    forall t | t in s'.tasks && !t.can ensures t.page in s'.pages && LastBy(s'.pages[t.page].chain, t.from) {
      TaskIsOwn(s, e, t);
    }
  }

  lemma {:induction false} OwnRun(s: State, steps: seq<Step>)
    requires Inv(s) && WaitsForItself(s) && Legal(s, steps)
    ensures WaitsForItself(After(s, steps))
    decreases |steps|
  {
    if steps == [] {
    } else {
      StepKeeps(s, steps[0]);
      OwnStep(s, steps[0]);
      OwnRun(Apply(s, steps[0]), steps[1..]);
    }
  }

  lemma ReachableWaits(s: State)
    requires Reachable(s)
    ensures Inv(s) && WaitsForItself(s)
  {
    ReachableInv(s);
    var s0, steps :| Init(s0) && Legal(s0, steps) && After(s0, steps) == s;
    OwnRun(s0, steps);
  }

  // ----- who is let go -----

  /** The watermark has reached everything the node has written to the page. */
  predicate OwnPublished(s: State, n: Node, p: PageNo)
    requires n in s.logs && p in s.pages
  {
    forall r :: r in s.pages[p].chain && r.node == n ==> r.lsn <= s.logs[n].persist
  }

  /** If the last record of a page is the node's own, covering it is covering all of the node's. */
  lemma LastCovers(chain: seq<Rec>, n: Node, persist: nat)
    requires Increasing(chain) && LastBy(chain, n)
    ensures LastLsn(chain) <= persist <==> forall r :: r in chain && r.node == n ==> r.lsn <= persist
  {
    var last := |chain| - 1;
    assert chain[last] in chain;
    forall r | r in chain ensures r.lsn <= LastLsn(chain) {
      var i :| 0 <= i < |chain| && chain[i] == r;
      assert i < last ==> chain[i].lsn < chain[last].lsn;
    }
  }

  /** wait_log_flush returns if and only if the page is clean or the node's own records on it are published. */
  lemma LetGoIff(s: State, n: Node, p: PageNo)
    requires Reachable(s) && HasCopy(s, n, p)
    ensures Enabled(s, Clean(n, p)) <==> n !in s.pages[p].dirty || OwnPublished(s, n, p)
  {
    ReachableWaits(s);
    assert PageOk(s, p);
    if n in s.pages[p].dirty { LastCovers(s.pages[p].chain, n, s.logs[n].persist); }
  }

  /** A clean copy waits for nothing: it can be sent, scheduled and run, or evicted at once. */
  lemma CleanGoesAtOnce(s: State, n: Node, p: PageNo, to: Node)
    requires Reachable(s) && HasCopy(s, n, p) && n !in s.pages[p].dirty && to != n
    ensures Enabled(s, Clean(n, p)) && Enabled(s, Evict(n, p))
    ensures Enabled(s, PushNow(n, p, to)) && Push(p, to) in Apply(s, PushNow(n, p, to)).pushes
    ensures Enabled(s, PushLater(n, p, to))
    ensures exists t :: MayRunTo(Apply(s, PushLater(n, p, to)), t, n, p, to)
  {
    LetGoIff(s, n, p);
    assert MayRunTo(Apply(s, PushLater(n, p, to)), NewTask(s, n, p, to), n, p, to);
  }

  /** A page that is let go is clean, and may then be sent or evicted. */
  lemma LetGoMayLeave(s: State, n: Node, p: PageNo, to: Node)
    requires Reachable(s) && Enabled(s, Clean(n, p)) && to != n
    ensures var s' := Apply(s, Clean(n, p));
      && HasCopy(s', n, p) && n !in s'.pages[p].dirty && s'.pages[p].chain == s.pages[p].chain
      && Enabled(s', PushNow(n, p, to)) && Enabled(s', Evict(n, p))
      && AllDurable(s', s'.pages[p].chain)
  {
    ReachableInv(s);
    CoveredIsDurable(s, n, p);
  }

  /** A push of the page from one node to the other is scheduled and may run. */
  predicate MayRunTo(s: State, t: Task, n: Node, p: PageNo, to: Node) {
    t in s.tasks && t.page == p && t.from == n && t.to == to && Enabled(s, RunTask(t))
  }

  /** The flush has stored and published everything the node has issued, and has told the push scheduler. */
  predicate Flushed(log: Log) {
    forall r :: r in Issued(log) ==> r in log.durable && r.lsn <= log.persist && r.lsn <= log.ready
  }

  /** Once the flush has caught up, every copy of the node is let go and every push it has scheduled may run. */
  lemma FlushedLetsGo(s: State, n: Node)
    requires Reachable(s) && n in s.logs && Flushed(s.logs[n])
    ensures forall p :: HasCopy(s, n, p) ==> Enabled(s, Clean(n, p))
    ensures forall t :: t in s.tasks && t.from == n ==> Enabled(s, RunTask(t))
  {
    ReachableWaits(s);
    forall p | HasCopy(s, n, p) ensures Enabled(s, Clean(n, p)) {
      LetGoIff(s, n, p);
      assert PageOk(s, p);
      assert forall r :: r in s.pages[p].chain && r.node == n ==> IsIssued(s, r);
    }
    forall t | t in s.tasks && t.from == n ensures Enabled(s, RunTask(t)) {
      assert PageOk(s, t.page);
      assert TaskOk(s, t, s.pages[t.page]);
      if !t.can {
        var chain := s.pages[t.page].chain;
        assert chain[|chain| - 1] in chain && IsIssued(s, chain[|chain| - 1]);
      }
    }
  }

  // ----- the flush itself -----

  /** The step belongs to the flush of node `n`. */
  predicate IsFlush(e: Step, n: Node) {
    e == TakeBatch(n) || e == StoreBatch(n) || e == PublishLsn(n) || (e.MarkReady? && e.n == n)
  }

  /** The flush of node `n` alone leads from `s` to `s'`. */
  ghost predicate FlushLeads(s: State, s': State, n: Node) {
    exists steps :: Legal(s, steps) && (forall e :: e in steps ==> IsFlush(e, n)) && After(s, steps) == s'
  }

  lemma {:induction false} OneMore(s0: State, steps: seq<Step>, e: Step)
    requires Legal(s0, steps) && Enabled(After(s0, steps), e)
    ensures Legal(s0, steps + [e]) && After(s0, steps + [e]) == Apply(After(s0, steps), e)
    decreases |steps|
  {
    if steps == [] {
      assert [] + [e] == [e] && [e][1..] == [];
      assert After(s0, [e]) == After(Apply(s0, e), []);
    } else {
      assert (steps + [e])[1..] == steps[1..] + [e];
      OneMore(Apply(s0, steps[0]), steps[1..], e);
    }
  }

  lemma GoOn(s0: State, s: State, n: Node, e: Step)
    requires FlushLeads(s0, s, n) && Enabled(s, e) && IsFlush(e, n)
    ensures FlushLeads(s0, Apply(s, e), n)
  {
    var steps :| Legal(s0, steps) && (forall e :: e in steps ==> IsFlush(e, n)) && After(s0, steps) == s;
    OneMore(s0, steps, e);
    assert forall f :: f in steps + [e] ==> IsFlush(f, n);
  }

  /** Nothing is queued or on its way to storage. */
  predicate Idle(log: Log) { !log.flushing && log.queued == [] && log.batch == [] }

  function NextFlush(n: Node, log: Log): Step {
    if !log.flushing then TakeBatch(n) else if log.batch != [] then StoreBatch(n) else PublishLsn(n)
  }

  /** How many steps the flush still has to take. */
  function ToFlush(log: Log): nat {
    (if log.queued != [] then 3 else 0) + (if !log.flushing then 0 else if log.batch != [] then 2 else 1)
  }

  /** Only the log of node `n` has moved on, and it has issued nothing new. */
  predicate SameBut(s: State, s': State, n: Node) {
    && s'.pages == s.pages && s'.tasks == s.tasks && s'.pushes == s.pushes && n in s.logs && n in s'.logs
    && s'.logs == s.logs[n := s'.logs[n]] && Issued(s'.logs[n]) == Issued(s.logs[n])
  }

  lemma SameOn(s: State, s1: State, s2: State, n: Node)
    requires SameBut(s, s1, n) && SameBut(s1, s2, n)
    ensures SameBut(s, s2, n)
  {
  }

  /** A flush that is not done always has its next step, and comes closer to its end by it. */
  lemma FlushGoesOn(s: State, n: Node)
    requires Inv(s) && WaitsForItself(s) && n in s.logs && !Idle(s.logs[n])
    ensures Enabled(s, NextFlush(n, s.logs[n]))
    ensures var s' := Apply(s, NextFlush(n, s.logs[n]));
      && Inv(s') && WaitsForItself(s') && SameBut(s, s', n)
      && ToFlush(s'.logs[n]) < ToFlush(s.logs[n])
  {
    var log := s.logs[n];
    assert LogOk(n, log);
    var e := NextFlush(n, log);
    if e.TakeBatch? { TakenKeeps(n, log); }
    if e.StoreBatch? { StoredKeeps(n, log); }
    StepKeeps(s, e);
    OwnStep(s, e);
  }

  lemma {:induction false} FlushOut(s0: State, s: State, n: Node) returns (s': State)
    requires FlushLeads(s0, s, n) && Inv(s) && WaitsForItself(s) && n in s.logs
    ensures FlushLeads(s0, s', n) && Inv(s') && WaitsForItself(s') && SameBut(s, s', n) && Idle(s'.logs[n])
    decreases ToFlush(s.logs[n])
  {
    if Idle(s.logs[n]) {
      s' := s;
    } else {
      FlushGoesOn(s, n);
      var e := NextFlush(n, s.logs[n]);
      GoOn(s0, s, n, e);
      var s1 := Apply(s, e);
      s' := FlushOut(s0, s1, n);
      SameOn(s, s1, s', n);
    }
  }

  lemma IdleIsFlushed(n: Node, log: Log)
    requires LogOk(n, log) && CaughtUp(log) && Idle(log) && log.ready == log.persist
    ensures Flushed(log)
  {
    assert Issued(log) == log.durable;
    var d := log.durable;
    assert forall i :: 0 <= i < |d| ==> d[i].lsn <= LastLsn(d);
  }

  /** All the node had issued is durable, all its copies are let go, and all its pushes may run. */
  ghost predicate NothingWaits(s: State, s': State, n: Node)
    requires n in s.logs && n in s'.logs
  {
    && (forall r :: r in Issued(s.logs[n]) ==> r in s'.logs[n].durable)
    && (forall p :: HasCopy(s, n, p) ==> Enabled(s', Clean(n, p)))
    && (forall t :: t in s.tasks && t.from == n ==> Enabled(s', RunTask(t)))
  }

  lemma ThenNothingWaits(s: State, s': State, n: Node)
    requires Reachable(s') && SameBut(s, s', n) && Flushed(s'.logs[n])
    ensures NothingWaits(s, s', n)
  {
    FlushedLetsGo(s', n);
    forall p | HasCopy(s, n, p) ensures Enabled(s', Clean(n, p)) { assert HasCopy(s', n, p); }
  }

  /** The push scheduler is told how far the flush has come. */
  lemma TellScheduler(s0: State, s: State, n: Node) returns (s': State)
    requires FlushLeads(s0, s, n) && Inv(s) && WaitsForItself(s) && n in s.logs && Idle(s.logs[n])
    ensures FlushLeads(s0, s', n) && SameBut(s, s', n) && Flushed(s'.logs[n])
  {
    var log := s.logs[n];
    var e := MarkReady(n, log.persist);
    assert LogOk(n, log) && CaughtUp(log);
    GoOn(s0, s, n, e);
    s' := Apply(s, e);
    assert s'.logs[n] == log.(ready := log.persist);
    IdleIsFlushed(n, s'.logs[n]);
  }

  /**
   From every state of every run, the flush of the node alone reaches a state
   with the same pages and pushes in which nothing waits for the log any more.
   */
  lemma WaitsEnd(s: State, n: Node)
    requires Reachable(s) && n in s.logs
    ensures exists s' :: FlushLeads(s, s', n) && SameBut(s, s', n) && NothingWaits(s, s', n)
  {
    ReachableWaits(s);
    assert Legal(s, []) && After(s, []) == s;
    var s1 := FlushOut(s, s, n);
    var s2 := TellScheduler(s, s1, n);
    SameOn(s, s1, s2, n);
    FlushIsRun(s, s2, n);
    ThenNothingWaits(s, s2, n);
  }

  lemma FlushIsRun(s: State, s': State, n: Node)
    requires Reachable(s) && FlushLeads(s, s', n)
    ensures Reachable(s')
  {
    var s0, before :| Init(s0) && Legal(s0, before) && After(s0, before) == s;
    var steps :| Legal(s, steps) && (forall e :: e in steps ==> IsFlush(e, n)) && After(s, steps) == s';
    Join(s0, before, steps);
  }

  lemma {:induction false} Join(s: State, a: seq<Step>, b: seq<Step>)
    requires Legal(s, a) && Legal(After(s, a), b)
    ensures Legal(s, a + b) && After(s, a + b) == After(After(s, a), b)
    decreases |a|
  {
    if a == [] {
      assert a + b == b;
    } else {
      assert (a + b)[1..] == a[1..] + b;
      Join(Apply(s, a[0]), a[1..], b);
    }
  }
}
