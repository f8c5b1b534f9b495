/**
 Nobody waits for a page in vain: a node that was told to give it up only
 drains, and from every state of every run any node can come to use the page,
 shared or exclusively, whoever has it now.
 */
module PageProgress {
  import opened Options
  import opened PageLockTypes
  import opened PageOwnership
  import opened PageSteps
  import opened PageTheorems

  // ----- a node that was told to leave only drains -----

  /** The threads of the node that have or wait for the page. */
  function Users(l: Local): nat {
    match l.lock
    case Shared(n) => n
    case Exclusive => 1
  }

  /**
   While a node is told to give the page up, no step of anybody adds a user to
   it; each of its unlocks takes one away; and it stays told until the last one
   has gone and it has left the holders.
   */
  lemma ToldOnlyDrains(s: State, e: Step, n: Node)
    requires Reachable(s) && Enabled(s, e) && n in s.nodes && s.nodes[n].pending
    ensures e != LockShared(n) && e != LockExclusive(n)
    ensures n in Apply(s, e).nodes && Users(Apply(s, e).nodes[n]) <= Users(s.nodes[n])
    ensures e == Unlock(n) ==> Users(Apply(s, e).nodes[n]) == Users(s.nodes[n]) - 1
    ensures var l := Apply(s, e).nodes[n];
      l.pending || (l.lock == Shared(0) && l.mode == NONE && n !in Apply(s, e).g.holders)
  {
    ReachableInv(s);
    assert NodeOkIn(s, n);
    OneNode(s, e);
    if e.n == n { ToldMove(s, e); }
    StepKeeps(s, e);
    if !Apply(s, e).nodes[n].pending { LeftHolders(Apply(s, e), n); }
  }

  /** A step changes the lock of its own node only. */
  lemma OneNode(s: State, e: Step)
    requires Enabled(s, e)
    ensures e.n in Apply(s, e).nodes && Apply(s, e).nodes == s.nodes[e.n := Apply(s, e).nodes[e.n]]
  {
  }

  lemma ToldMove(s: State, e: Step)
    requires Enabled(s, e) && NodeOkIn(s, e.n) && s.nodes[e.n].pending
    ensures !e.LockShared? && !e.LockExclusive?
    ensures e.n in Apply(s, e).nodes
    ensures var l, l' := s.nodes[e.n], Apply(s, e).nodes[e.n];
      && Users(l') == (if e.Unlock? then Users(l) - 1 else Users(l))
      && (l'.pending || (l'.lock == Shared(0) && l'.mode == NONE && l'.request == Idle && !l'.success))
      && (e.n in s.grant && !l'.pending ==> l.request == Waiting)
  {
  }

  lemma LeftHolders(s: State, n: Node)
    requires Inv(s) && n in s.nodes && s.nodes[n].mode == NONE && s.nodes[n].request == Idle
    ensures n !in s.g.holders
  {
    assert NodeOkIn(s, n);
  }

  // ----- a run goes on -----

  /** Some run leads from `s` to `s'`. */
  ghost predicate Leads(s: State, s': State) {
    exists steps :: Legal(s, steps) && After(s, steps) == s'
  }

  lemma Advance(s0: State, s: State, e: Step) returns (s': State)
    requires Leads(s0, s) && Inv(s) && Enabled(s, e)
    ensures s' == Apply(s, e) && Leads(s0, s') && Inv(s')
  {
    var steps :| Legal(s0, steps) && After(s0, steps) == s;
    OneMore(s0, steps, e);
    StepKeeps(s, e);
    s' := Apply(s, e);
  }

  // ----- a holder that stands in the way leaves -----

  /** The next step of a holder that was told, or is about to be told, to leave. */
  function NextMove(s: State, h: Node): Step
    requires h in s.nodes
  {
    var l := s.nodes[h];
    if h in s.pend then PendingArrives(h)
    else if !l.granting then Unlock(h)
    else if l.request == Won then RemoteOK(h)
    else if l.success then Notice(h)
    else SuccessArrives(h)
  }

  /** How many steps such a holder is away from leaving, at most. */
  function ToLeave(s: State, h: Node): nat
    requires h in s.nodes
  {
    var l := s.nodes[h];
    (if h in s.pend then 1 else 0) + Users(l)
    + (if !l.granting then 0 else if l.request == Won then 1 else if l.success then 2 else 3)
  }

  predicate InTheWay(s: State, h: Node) {
    h in s.nodes && h in s.g.holders && s.g.pending && s.g.src != Some(h)
  }

  /** The queue has not changed, and whoever waits in it still waits for the same. */
  ghost predicate StillQueued(s: State, s': State) {
    forall m :: m in s.nodes && Queued(s.g, m) ==>
      m in s'.nodes && s'.nodes[m].request == Waiting && s'.nodes[m].lock == s.nodes[m].lock
  }

  /** The holder has left, and the head of the queue has been served or one holder less is in its way. */
  ghost predicate HasLeft(s: State, s': State) {
    StillQueued(s, s') && s'.nodes.Keys == s.nodes.Keys &&
    if s'.g.queue == s.g.queue then s'.g.pending && |s'.g.holders| < |s.g.holders|
    else |s'.g.queue| < |s.g.queue| && !Queued(s'.g, s.g.queue[0].node)
  }

  /** The manager has nothing to do yet. */
  lemma LocalMove(s: State, h: Node)
    requires Inv(s) && InTheWay(s, h) && Enabled(s, NextMove(s, h)) && IsLocal(s, NextMove(s, h))
    ensures var s' := Apply(s, NextMove(s, h));
      s'.g == s.g && InTheWay(s', h) && StillQueued(s, s') && s'.nodes.Keys == s.nodes.Keys
      && ToLeave(s', h) < ToLeave(s, h)
  {
    assert NodeOkIn(s, h);
    forall m | m in s.nodes && Queued(s.g, m) ensures s.nodes[m].request == Waiting { assert NodeOkIn(s, m); }
  }

  /** A holder in the way gives the page up: the round ends, or one holder less is in its way. */
  lemma ManagerMoves(g: Global, h: Node)
    requires GlobalOk(g) && MayLeave(g, h)
    ensures var g' := AnyUnlock(g, h).g;
      if g'.queue == g.queue then g'.pending && |g'.holders| < |g.holders|
      else |g'.queue| < |g.queue| && !Queued(g', g.queue[0].node)
  {
    DropFacts(g, h);
    if Transfer(Drop(g, h)).1 {
      TransferAdvances(g, h);
      PassedFacts(g, h, g.queue[0].node);
    } else {
      StillGlobal(g, h);
    }
  }

  lemma GlobalMove(s: State, h: Node)
    requires Inv(s) && InTheWay(s, h) && Enabled(s, NextMove(s, h)) && !IsLocal(s, NextMove(s, h))
    ensures HasLeft(s, Apply(s, NextMove(s, h)))
  {
    assert NodeOkIn(s, h);
    LeaverState(s, h);
    OthersStill(s, Apply(s, NextMove(s, h)), h);
    ManagerMoves(s.g, h);
  }

  lemma OthersStill(s: State, s': State, h: Node)
    requires Inv(s) && h in s.nodes && h in s'.nodes && s'.nodes == s.nodes[h := s'.nodes[h]]
    requires s'.nodes[h].request == s.nodes[h].request
    requires s.nodes[h].request == Waiting ==> s'.nodes[h].lock == s.nodes[h].lock
    ensures StillQueued(s, s') && s'.nodes.Keys == s.nodes.Keys
  {
    forall m | m in s.nodes && Queued(s.g, m) ensures s.nodes[m].request == Waiting { assert NodeOkIn(s, m); }
  }

  lemma LeaverState(s: State, h: Node)
    requires h in s.nodes && NodeOkIn(s, h) && InTheWay(s, h)
    requires Enabled(s, NextMove(s, h)) && !IsLocal(s, NextMove(s, h))
    ensures var s' := Apply(s, NextMove(s, h));
      && s'.g == AnyUnlock(s.g, h).g && h in s'.nodes && s'.nodes == s.nodes[h := s'.nodes[h]]
      && s'.nodes[h].request == s.nodes[h].request
      && (s.nodes[h].request == Waiting ==> s'.nodes[h].lock == s.nodes[h].lock)
  {
  }

  lemma {:induction false} LeaveOne(s0: State, s: State, h: Node) returns (s': State)
    requires Leads(s0, s) && Inv(s) && InTheWay(s, h)
    ensures Leads(s0, s') && Inv(s') && HasLeft(s, s')
    decreases ToLeave(s, h)
  {
    assert NodeOkIn(s, h);
    ToldCanMove(s, h);
    var e := NextMove(s, h);
    var s1 := Advance(s0, s, e);
    if IsLocal(s, e) {
      LocalMove(s, h);
      s' := LeaveOne(s0, s1, h);
      StillOn(s, s1, s');
    } else {
      GlobalMove(s, h);
      s' := s1;
    }
  }

  lemma StillOn(s: State, s1: State, s2: State)
    requires StillQueued(s, s1) && s1.g.queue == s.g.queue && |s1.g.holders| <= |s.g.holders|
    requires s1.nodes.Keys == s.nodes.Keys && HasLeft(s1, s2) && s.g.queue != []
    ensures HasLeft(s, s2)
  {
    assert forall m :: Queued(s.g, m) <==> Queued(s1.g, m);
  }

  // ----- the head of the queue is served -----

  /** The head of the queue has been served; everybody else in it still waits or has been served with it. */
  ghost predicate HeadServed(s: State, s': State)
    requires s.g.queue != []
  {
    && StillQueued(s, s') && s'.nodes.Keys == s.nodes.Keys
    && |s'.g.queue| < |s.g.queue| && !Queued(s'.g, s.g.queue[0].node)
  }

  lemma {:induction false} ServeHead(s0: State, s: State) returns (s': State)
    requires Leads(s0, s) && Inv(s) && s.g.queue != []
    ensures Leads(s0, s') && Inv(s') && HeadServed(s, s')
    decreases |s.g.holders|
  {
    var h :| h in s.g.holders && h != s.g.queue[0].node;
    s' := LeaveOne(s0, s, h);
    if s'.g.queue == s.g.queue {
      var s1 := s';
      s' := ServeHead(s0, s1);
      ServedOn(s, s1, s');
    }
  }

  lemma ServedOn(s: State, s1: State, s2: State)
    requires s.g.queue != [] && s1.g.queue == s.g.queue && StillQueued(s, s1) && s1.nodes.Keys == s.nodes.Keys
    requires HeadServed(s1, s2)
    ensures HeadServed(s, s2)
  {
    assert forall m :: Queued(s.g, m) <==> Queued(s1.g, m);
  }

  // ----- every request is served -----

  /** The node has asked and has been granted the page, in the mode it asked for. */
  lemma {:induction false} ServeRequest(s0: State, s: State, n: Node) returns (s': State)
    requires Leads(s0, s) && Inv(s) && n in s.nodes && s.nodes[n].request == Waiting
    ensures Leads(s0, s') && Inv(s') && n in s'.nodes && s'.nodes[n].request == Waiting && !Queued(s'.g, n)
    ensures s'.nodes[n].lock == s.nodes[n].lock
    decreases |s.g.queue|
  {
    if !Queued(s.g, n) {
      s' := s;
    } else {
      var s1 := ServeHead(s0, s);
      s' := ServeRequest(s0, s1, n);
    }
  }

  /** A node that has been granted the page comes to use it. */
  lemma GrantedUses(s0: State, s: State, n: Node) returns (s': State)
    requires Leads(s0, s) && Inv(s) && n in s.nodes && (s.nodes[n].request == Waiting || s.nodes[n].request == Won)
    requires !Queued(s.g, n)
    ensures Leads(s0, s') && Inv(s') && n in s'.nodes && InUse(s'.nodes[n]) && s'.nodes[n].lock == s.nodes[n].lock
  {
    s' := s;
    assert NodeOkIn(s, n);
    if s'.nodes[n].request == Waiting && !s'.nodes[n].success { s' := Advance(s0, s', SuccessArrives(n)); }
    if s'.nodes[n].request == Waiting { s' := Advance(s0, s', Notice(n)); }
    s' := Advance(s0, s', RemoteOK(n));
    assert NodeOkIn(s', n);
  }

  /** A node that has asked, or is about to ask, comes to use the page in the mode it asks for. */
  lemma AskerUses(s0: State, s: State, n: Node) returns (s': State)
    requires Leads(s0, s) && Inv(s) && n in s.nodes && s.nodes[n].granting
    ensures Leads(s0, s') && Inv(s') && n in s'.nodes && InUse(s'.nodes[n]) && s'.nodes[n].lock == s.nodes[n].lock
  {
    s' := s;
    assert NodeOkIn(s, n);
    if s'.nodes[n].request == Sending {
      s' := Advance(s0, s', Ask(n));
      assert NodeOkIn(s', n);
    }
    if s'.nodes[n].request == Waiting { s' := ServeRequest(s0, s', n); }
    assert NodeOkIn(s', n);
    s' := GrantedUses(s0, s', n);
  }

  /** From every state of every run, whoever has asked for the page can come to use it in the mode it asked for. */
  lemma EveryRequestIsServed(s: State, n: Node)
    requires Reachable(s) && n in s.nodes && s.nodes[n].granting
    ensures exists s' :: Leads(s, s') && n in s'.nodes && InUse(s'.nodes[n]) && s'.nodes[n].lock == s.nodes[n].lock
  {
    ReachableInv(s);
    assert Legal(s, []) && After(s, []) == s;
    var s1 := AskerUses(s, s, n);
  }

  // ----- any node can write -----

  /** Nothing goes on at the node. */
  predicate Quiet(l: Local) {
    l.lock == Shared(0) && !l.granting && !l.pending && !l.evicting
  }

  lemma {:induction false} UsersLeave(s0: State, s: State, n: Node) returns (s': State)
    requires Leads(s0, s) && Inv(s) && n in s.nodes && !s.nodes[n].granting && !s.nodes[n].evicting
    ensures Leads(s0, s') && Inv(s') && n in s'.nodes && Quiet(s'.nodes[n])
    decreases Users(s.nodes[n])
  {
    assert NodeOkIn(s, n);
    if s.nodes[n].lock == Shared(0) {
      s' := s;
    } else {
      var s1 := Advance(s0, s, Unlock(n));
      s' := UsersLeave(s0, s1, n);
    }
  }

  lemma EvictionEnds(s0: State, s: State, n: Node) returns (s': State)
    requires Leads(s0, s) && Inv(s) && n in s.nodes && s.nodes[n].evicting
    ensures Leads(s0, s') && Inv(s') && n in s'.nodes && Quiet(s'.nodes[n])
  {
    s' := s;
    assert NodeOkIn(s, n);
    if s'.nodes[n].evict == Begun { s' := Advance(s0, s', CheckEvict(n)); }
    if s'.nodes[n].evict == Checked { s' := Advance(s0, s', AskEvict(n)); }
    if s'.nodes[n].evict == Agreed { s' := Advance(s0, s', FinishEvict(n)); }
    assert NodeOkIn(s', n);
  }

  lemma CalmDown(s0: State, s: State, n: Node) returns (s': State)
    requires Leads(s0, s) && Inv(s) && n in s.nodes
    ensures Leads(s0, s') && Inv(s') && n in s'.nodes && Quiet(s'.nodes[n])
  {
    assert NodeOkIn(s, n);
    if s.nodes[n].evicting {
      s' := EvictionEnds(s0, s, n);
    } else {
      s' := s;
      if s.nodes[n].granting { s' := AskerUses(s0, s, n); }
      assert NodeOkIn(s', n);
      s' := UsersLeave(s0, s', n);
    }
  }

  /** A quiet node latches the page and comes to use it. */
  lemma LatchAndUse(s0: State, s: State, n: Node, x: bool) returns (s': State)
    requires Leads(s0, s) && Inv(s) && n in s.nodes && Quiet(s.nodes[n])
    ensures Leads(s0, s') && Inv(s') && n in s'.nodes && InUse(s'.nodes[n])
    ensures s'.nodes[n].lock == if x then Exclusive else Shared(1)
  {
    s' := Advance(s0, s, if x then LockExclusive(n) else LockShared(n));
    if s'.nodes[n].granting { s' := AskerUses(s0, s', n); }
  }

  /** The node uses the page: exclusively, or shared by one thread. */
  predicate UsesAs(s: State, n: Node, x: bool) {
    n in s.nodes && InUse(s.nodes[n]) && s.nodes[n].lock == if x then Exclusive else Shared(1)
  }

  /** From every state of every run, any node can come to use the page, shared or exclusively. */
  lemma AnyNodeCanUse(s: State, n: Node, x: bool)
    requires Reachable(s) && n in s.nodes
    ensures exists s' :: Leads(s, s') && UsesAs(s', n, x)
  {
    ReachableInv(s);
    assert Legal(s, []) && After(s, []) == s;
    var s1 := CalmDown(s, s, n);
    var s2 := LatchAndUse(s, s1, n, x);
  }

  // ----- an eviction that nobody objects to -----

  /** A page that counts as released is not owned. */
  ghost predicate ReleasedIsFree(s: State) {
    forall n :: n in s.nodes && s.nodes[n].released ==> s.nodes[n].mode == NONE
  }

  lemma ReleasedStep(s: State, e: Step)
    requires ReleasedIsFree(s) && Enabled(s, e)
    ensures ReleasedIsFree(Apply(s, e))
  {
    OneNode(s, e);
    ReleasedOne(s, e);
  }

  lemma ReleasedOne(s: State, e: Step)
    requires Enabled(s, e) && (s.nodes[e.n].released ==> s.nodes[e.n].mode == NONE) && e.n in Apply(s, e).nodes
    ensures Apply(s, e).nodes[e.n].released ==> Apply(s, e).nodes[e.n].mode == NONE
  {
    if e.Unlock? { assert Apply(s, e).nodes[e.n] == Unlatch(s.nodes[e.n]).0; }
    if e.PendingArrives? { assert Apply(s, e).nodes[e.n] == OnPending(s.nodes[e.n], s.pend[e.n]).0; }
  }

  lemma {:induction false} ReleasedRun(s: State, steps: seq<Step>)
    requires ReleasedIsFree(s) && Legal(s, steps)
    ensures ReleasedIsFree(After(s, steps))
    decreases |steps|
  {
    if steps == [] {
    } else {
      ReleasedStep(s, steps[0]);
      ReleasedRun(Apply(s, steps[0]), steps[1..]);
    }
  }

  /**
   In every run, a quiet owner evicts the page in four steps when nobody waits
   for it: it is then no holder any more. While somebody waits, the manager
   refuses, and the node is a quiet owner again.
   */
  lemma EvictionIff(s: State, n: Node)
    requires Reachable(s) && n in s.nodes && Quiet(s.nodes[n]) && s.nodes[n].mode != NONE
    ensures Legal(s, [BeginEvict(n), CheckEvict(n), AskEvict(n)])
    ensures var s' := After(s, [BeginEvict(n), CheckEvict(n), AskEvict(n)]);
      if s.g.queue == []
      then Enabled(s', FinishEvict(n)) && GaveUp(s, Apply(s', FinishEvict(n)), n)
      else s' == s
  {
    ReachableInv(s);
    ReachableReleased(s);
    assert NodeOkIn(s, n);
    EvictionStates(s, n);
    ThreeSteps(s, BeginEvict(n), CheckEvict(n), AskEvict(n));
    if s.g.queue == [] { EvictionAgreed(s, n); }
  }

  /** The node with its eviction at this stage. */
  function Evicting(s: State, n: Node, stage: Eviction): State
    requires n in s.nodes
  {
    Put(s, n, s.nodes[n].(evicting := true, evict := stage))
  }

  lemma EvictionStates(s: State, n: Node)
    requires n in s.nodes && Quiet(s.nodes[n]) && s.nodes[n].mode != NONE && !s.nodes[n].released
    requires s.nodes[n].evict == NoEvict && n in s.g.holders && (s.g.pending <==> s.g.queue != [])
    ensures Enabled(s, BeginEvict(n)) && Apply(s, BeginEvict(n)) == Evicting(s, n, Begun)
    ensures Enabled(Evicting(s, n, Begun), CheckEvict(n))
    ensures Apply(Evicting(s, n, Begun), CheckEvict(n)) == Evicting(s, n, Checked)
    ensures Enabled(Evicting(s, n, Checked), AskEvict(n))
    ensures Apply(Evicting(s, n, Checked), AskEvict(n)) ==
      if s.g.queue == [] then Evicting(s, n, Agreed).(g := Drop(s.g, n)) else s
  {
    assert Evicting(s, n, Begun).nodes[n := Evicting(s, n, Checked).nodes[n]] == Evicting(s, n, Checked).nodes;
    assert Evicting(s, n, Checked).nodes[n := Evicting(s, n, Agreed).nodes[n]] == Evicting(s, n, Agreed).nodes;
    assert Evicting(s, n, Checked).nodes[n := s.nodes[n]] == s.nodes;
  }

  lemma EvictionAgreed(s: State, n: Node)
    requires n in s.nodes && GlobalOk(s.g) && n in s.g.holders && Quiet(s.nodes[n])
    ensures var s' := Evicting(s, n, Agreed).(g := Drop(s.g, n));
      Enabled(s', FinishEvict(n)) && GaveUp(s, Apply(s', FinishEvict(n)), n)
  {
    DropFacts(s.g, n);
  }

  /** The node does not own the page any more, and the manager knows; everybody else is as before. */
  predicate GaveUp(s: State, s': State, n: Node) {
    && n in s'.nodes && Quiet(s'.nodes[n]) && s'.nodes[n].mode == NONE && n !in s'.g.holders
    && s'.nodes - {n} == s.nodes - {n} && s'.g.queue == s.g.queue
  }

  lemma ReachableReleased(s: State)
    requires Reachable(s)
    ensures ReleasedIsFree(s)
  {
    var s0, steps :| Init(s0) && Legal(s0, steps) && After(s0, steps) == s;
    ReleasedRun(s0, steps);
  }

  lemma ThreeSteps(s: State, a: Step, b: Step, c: Step)
    requires Enabled(s, a) && Enabled(Apply(s, a), b) && Enabled(Apply(Apply(s, a), b), c)
    ensures Legal(s, [a, b, c]) && After(s, [a, b, c]) == Apply(Apply(Apply(s, a), b), c)
  {
    var s1 := Apply(s, a);
    var s2 := Apply(s1, b);
    assert [a, b, c][1..] == [b, c] && [b, c][1..] == [c] && [c][1..] == [];
    assert Legal(s2, [c]) && After(s2, [c]) == After(Apply(s2, c), []);
    assert Legal(s1, [b, c]) && After(s1, [b, c]) == Apply(s2, c);
  }
}
