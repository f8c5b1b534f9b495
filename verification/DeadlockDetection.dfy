/**
 The deadlock detector on the edges that the protocol maintains: in every
 reachable state its verdict is about the real lock waits, a deadlock can be
 resolved by nothing but rolling a member back, and a walk whose hops are
 answered one after the other while the run goes on is still right.
 */
module DeadlockDetection {
  import opened Options
  import opened LockWaitTypes
  import opened Handoff
  import opened HandoffInv
  import opened HandoffPin
  import opened HandoffDeliver
  import opened HandoffReserve
  import opened HandoffTheorems
  import opened ChainWalk
  import opened WaitGraph

  // ----- all hops answered in one state -----

  function AskIn(s: State): Ask { (hop: nat, w: Waiter) => Edge(s, w) }

  /** The transaction `n` real waits away from `t`. */
  function Chain(s: State, t: Ts, n: nat): Option<Ts> {
    if n == 0 then Some(t)
    else match Chain(s, t, n - 1)
      case None => None
      case Some(u) => BlockedBy(s, u)
  }

  lemma {:induction false} ChainStays(s: State, t: Ts, i: nat, n: nat)
    requires i <= n && Chain(s, t, n).Some?
    ensures Chain(s, t, i).Some?
    decreases n - i
  {
    if i == n {
    } else {
      ChainStays(s, t, i + 1, n);
    }
  }

  /** A circle of real waits is visible in the recorded edges, hop by hop. */
  lemma {:induction false} CircleIsVisible(s: State, t: Ts, n: nat, i: nat)
    requires Inv(s) && n >= 1 && Chain(s, t, n) == Some(t) && i < n
    ensures t in s.txns && Edge(s, Waiter(t, s.txns[t].home)).Some?
    ensures var first := Edge(s, Waiter(t, s.txns[t].home)).value;
      var v := Chain(s, t, i + 1);
      v.Some? && v.value in s.txns && At(first, AskIn(s), i) == Some(Waiter(v.value, s.txns[v.value].home))
    decreases i
  {
    ChainStays(s, t, 1, n);
    ChainStays(s, t, i + 1, n);
    assert Chain(s, t, 0) == Some(t) && Chain(s, t, 1) == BlockedBy(s, t);
    if i == 0 {
      if n > 1 { ChainStays(s, t, 2, n); assert Chain(s, t, 2) == BlockedBy(s, BlockedBy(s, t).value); }
      RealEdge(s, t);
    } else {
      CircleIsVisible(s, t, n, i - 1);
      var u := Chain(s, t, i).value;
      assert Chain(s, t, i + 1) == BlockedBy(s, u);
      if i + 1 < n {
        ChainStays(s, t, i + 2, n);
        assert Chain(s, t, i + 2) == BlockedBy(s, BlockedBy(s, u).value);
      }
      RealEdge(s, u);
    }
  }

  /** Recorded edges that lead back to a waiting transaction are real, hop by hop. */
  lemma {:induction false} ReturnIsReal(s: State, t: Ts, i: nat, j: nat)
    requires Inv(s) && AllTurnedOk(s) && t in s.txns && Edge(s, Waiter(t, s.txns[t].home)).Some? && j <= i
    requires Reaches(Edge(s, Waiter(t, s.txns[t].home)).value, AskIn(s), i, t)
    ensures var first := Edge(s, Waiter(t, s.txns[t].home)).value;
      At(first, AskIn(s), j).Some? && Chain(s, t, j + 1) == Some(At(first, AskIn(s), j).value.ts)
    decreases j
  {
    var me := Waiter(t, s.txns[t].home);
    var first := Edge(s, me).value;
    NothingBeforeIsMissing(first, AskIn(s), j, i);
    var w := if j == 0 then me else At(first, AskIn(s), j - 1).value;
    if j == 0 { assert Chain(s, t, 0) == Some(t); } else { ReturnIsReal(s, t, i, j - 1); }
    assert Edge(s, w) == At(first, AskIn(s), j);
    EdgeHome(s, w);
    if j < i {
      NothingBeforeIsMissing(first, AskIn(s), j + 1, i);
      assert At(first, AskIn(s), j + 1) == Edge(s, Edge(s, w).value);
    }
    AnsweredEdge(s, w);
  }

  lemma EdgesAreStable(s: State, first: Waiter)
    requires Inv(s) && AllTurnedOk(s) && Home(s, first.ts, first.node)
    ensures Stable(first, AskIn(s))
  {
    forall i: nat, j: nat | Meets(first, AskIn(s), i, j) ensures At(first, AskIn(s), i) == At(first, AskIn(s), j) {
      HopHome(s, first, i);
      HopHome(s, first, j);
    }
  }

  lemma HopHome(s: State, first: Waiter, i: nat)
    requires Inv(s) && AllTurnedOk(s) && Home(s, first.ts, first.node) && At(first, AskIn(s), i).Some?
    ensures Home(s, At(first, AskIn(s), i).value.ts, At(first, AskIn(s), i).value.node)
  {
    if i > 0 { EdgeHome(s, At(first, AskIn(s), i - 1).value); }
  }

  /**
   In every reachable state, whatever handoffs, registrations and updates are
   under way, the detector reports a deadlock if and only if at most 128
   transactions really wait for each other in a circle through the caller, and
   answers "no deadlock" only if there is no such circle of any length.
   */
  lemma DetectorIsExact(s: State, t: Ts, k: Key)
    requires Reachable(s) && IsWaiting(s, t, k)
    ensures var first := Waiter(s.waits[t].holder, s.waits[t].holderNode);
      && (Expected(t, first, AskIn(s)) == Deadlock <==> exists n: nat :: 1 <= n <= 128 && Chain(s, t, n) == Some(t))
      && (Expected(t, first, AskIn(s)) == NoDeadlock ==> forall n: nat :: 1 <= n ==> Chain(s, t, n) != Some(t))
  {
    ReachableInv(s);
    ReachableTurned(s);
    var me := Waiter(t, s.txns[t].home);
    var first := Edge(s, me).value;
    EdgeHome(s, me);
    EdgesAreStable(s, first);
    WalkIsExact(t, first, AskIn(s));
    if Expected(t, first, AskIn(s)) == Deadlock {
      var i: nat :| i < MAX_CHAIN_HOPS && Reaches(first, AskIn(s), i, t);
      ReturnIsReal(s, t, i, i);
      assert Chain(s, t, i + 1) == Some(t);
    }
    forall n: nat | 1 <= n && Chain(s, t, n) == Some(t) ensures Reaches(first, AskIn(s), n - 1, t) {
      CircleIsVisible(s, t, n, n - 1);
    }
  }

  /** Every circle the detector speaks of has at least two members. */
  lemma CircleHasTwo(s: State, t: Ts, n: nat)
    requires Reachable(s) && n >= 1 && Chain(s, t, n) == Some(t)
    ensures n >= 2 && Chain(s, t, 1).Some? && Chain(s, t, 1).value != t
  {
    ReachableInv(s);
    ChainStays(s, t, 1, n);
    assert Chain(s, t, 0) == Some(t) && Chain(s, t, 1) == BlockedBy(s, t);
    NotByItself(s, t);
  }

  // ----- a deadlock does not go away by itself -----

  /** `t` waits for a tuple that a member of `group` owns. */
  predicate BlockedIn(s: State, t: Ts, group: set<Ts>) {
    BlockedBy(s, t).Some? && BlockedBy(s, t).value in group
  }

  /** Everybody in `group` waits for a tuple that a member of `group` owns. */
  predicate Deadlocked(s: State, group: set<Ts>) {
    forall t :: t in group ==> BlockedIn(s, t, group)
  }

  /** The transactions of the first `n` places of a chain. */
  ghost function Members(s: State, t: Ts, n: nat): set<Ts> {
    if n == 0 then {}
    else Members(s, t, n - 1) + (if Chain(s, t, n - 1).Some? then {Chain(s, t, n - 1).value} else {})
  }

  lemma {:induction false} MemberAt(s: State, t: Ts, n: nat, i: nat)
    requires i < n && Chain(s, t, i).Some?
    ensures Chain(s, t, i).value in Members(s, t, n)
    decreases n
  {
    if i < n - 1 { MemberAt(s, t, n - 1, i); }
  }

  lemma {:induction false} PlaceOf(s: State, t: Ts, n: nat, u: Ts) returns (i: nat)
    requires u in Members(s, t, n)
    ensures i < n && Chain(s, t, i) == Some(u)
  {
    if u in Members(s, t, n - 1) { i := PlaceOf(s, t, n - 1, u); } else { i := n - 1; }
  }

  /** A chain that returns to its start is a deadlock of its members. */
  lemma CircleIsDeadlock(s: State, t: Ts, n: nat)
    requires n > 0 && Chain(s, t, n) == Some(t)
    ensures t in Members(s, t, n) && Deadlocked(s, Members(s, t, n))
  {
    var group := Members(s, t, n);
    assert Chain(s, t, 0) == Some(t);
    MemberAt(s, t, n, 0);
    forall u | u in group ensures BlockedIn(s, u, group) {
      var i := PlaceOf(s, t, n, u);
      assert Chain(s, t, i + 1) == BlockedBy(s, u);
      if i + 1 < n {
        ChainStays(s, t, i + 1, n);
        MemberAt(s, t, n, i + 1);
      }
    }
  }

  /** `t`'s node answers that `t` waits for `v`. */
  predicate Names(s: State, t: Ts, v: Ts) {
    && t in s.txns && Edge(s, Waiter(t, s.txns[t].home)).Some?
    && Edge(s, Waiter(t, s.txns[t].home)).value.ts == v
  }

  /** A pin changes only records that name the unlocking holder, which is on its way out. */
  lemma PinKeepsName(s: State, s': State, k: Key, h: Handoff, t: Ts, v: Ts)
    requires Inv(s) && Pinnable(s, k, h) && Pins(s, s', k, h) && Names(s, t, v) && !IsEnding(s, v)
    ensures Names(s', t, v)
  {
    assert KeyInv(s, k);
    assert RelOk(s, k);
    PinEdges(s, s', k, h, t);
  }

  /** A holder update changes only records that still name the unlocking holder. */
  lemma UpdateKeepsName(s: State, m: Msg, t: Ts, v: Ts)
    requires Inv(s) && m.Update? && m in s.msgs && Names(s, t, v) && !IsEnding(s, v)
    ensures Names(DoDeliver(s, m), t, v)
  {
    assert KeyInv(s, m.key);
    UpdateFacts(s, m, t);
    if IsWaiting(s, t, m.key) { assert QueuedOk(s, t, m.key); }
    if m.key in s.rels { assert RelOk(s, m.key); }
  }

  lemma MessageKeepsName(s: State, m: Msg, t: Ts, v: Ts)
    requires Inv(s) && CanDeliver(s, m) && Names(s, t, v) && !IsEnding(s, v)
    ensures Names(DoDeliver(s, m), t, v)
  {
    DeliveryKeepsTxns(s, m);
    assert KeyInv(s, m.key);
    if m.Publish? {
      PublishFacts(s, m);
      assert MsgOk(s, m);
    } else if m.Update? {
      UpdateKeepsName(s, m, t, v);
    } else if PinsThere(s, m.key, m.h) {
      AcceptPinnable(s, m.key, m.h);
      AcceptPins(s, m.key, m.h);
      PinKeepsName(s, DeliverReserve(s, m.key, m.h), m.key, m.h, t, v);
    } else {
      RefusedReserve(s, m.key, m.h);
    }
  }

  lemma PopKeepsName(s: State, k: Key, t: Ts, v: Ts)
    requires Inv(s) && CanPop(s, k) && Names(s, t, v) && !IsEnding(s, v)
    ensures Names(DoPop(s, k), t, v)
  {
    assert KeyInv(s, k);
    if Popped(s, k).Some? {
      var h := Popped(s, k).value.0;
      if PinsHere(s, k, h) {
        PopPinnable(s, k, h);
        PopPins(s, k, h);
        PinKeepsName(s, DoPop(s, k), k, h, t, v);
      }
    }
  }

  lemma RegistrationKeepsName(s: State, u: Ts, t: Ts, v: Ts)
    requires Inv(s) && CanRegister(s, u) && Names(s, t, v) && !IsEnding(s, v)
    ensures Names(DoRegister(s, u), t, v)
  {
    assert LocalOk(s, t);
    if u == t && RegisterAnswer(s, u).1 { TurnedAwayFromEnding(s, u); }
  }

  lemma TurnKeepsName(s: State, u: Ts, t: Ts, v: Ts)
    requires Inv(s) && AllTurnedOk(s) && CanTurn(s, u) && Names(s, t, v) && !IsEnding(s, v)
    ensures Names(DoTurn(s, u), t, v)
  {
    assert TurnedOk(s, u);
  }

  /** Steps of an unlock that send messages or write the tuple. */
  predicate IsRelease(e: Step) {
    e.Freeze? || e.Updated? || e.Take? || e.Install? || e.Publication? || e.Accept?
  }

  lemma ReleaseKeepsName(s: State, e: Step, t: Ts, v: Ts)
    requires Enabled(s, e) && Names(s, t, v) && IsRelease(e)
    ensures Names(Apply(s, e), t, v)
  {
  }

  lemma OtherKeepsName(s: State, e: Step, t: Ts, v: Ts)
    requires Inv(s) && Enabled(s, e) && Names(s, t, v) && e != Victim(t)
    requires !e.Deliver? && !e.Pop? && !e.Registration? && !e.Turn? && !IsRelease(e)
    ensures Names(Apply(s, e), t, v)
  {
    assert LocalOk(s, t);
  }

  /** An answer stays true until the transaction is rolled back or the one it names is on its way out. */
  lemma NameStays(s: State, e: Step, t: Ts, v: Ts)
    requires Inv(s) && AllTurnedOk(s) && Enabled(s, e) && Names(s, t, v) && !IsEnding(s, v) && e != Victim(t)
    ensures Names(Apply(s, e), t, v)
  {
    if e.Deliver? { MessageKeepsName(s, e.m, t, v); }
    else if e.Pop? { PopKeepsName(s, e.k, t, v); }
    else if IsRelease(e) { ReleaseKeepsName(s, e, t, v); }
    else { OwnStepKeepsName(s, e, t, v); }
  }

  lemma OwnStepKeepsName(s: State, e: Step, t: Ts, v: Ts)
    requires Inv(s) && AllTurnedOk(s) && Enabled(s, e) && Names(s, t, v) && !IsEnding(s, v) && e != Victim(t)
    requires !e.Deliver? && !e.Pop? && !IsRelease(e)
    ensures Names(Apply(s, e), t, v)
  {
    if e.Registration? { RegistrationKeepsName(s, e.t, t, v); }
    else if e.Turn? { TurnKeepsName(s, e.t, t, v); }
    else { OtherKeepsName(s, e, t, v); }
  }

  /** Whoever is named waiting is not on its way out. */
  lemma NamedIsRunning(s: State, t: Ts, v: Ts)
    requires Inv(s) && Names(s, t, v)
    ensures !IsEnding(s, t)
  {
    assert LocalOk(s, t);
  }

  /** Answers that close up are a deadlock of those who gave them. */
  lemma NamesCloseUp(s: State, group: set<Ts>, next: map<Ts, Ts>)
    requires Inv(s) && AllTurnedOk(s)
    requires forall t :: t in group ==> t in next && next[t] in group && Names(s, t, next[t])
    ensures Deadlocked(s, group)
  {
    forall t | t in group ensures BlockedIn(s, t, group) {
      var w := Waiter(t, s.txns[t].home);
      assert Names(s, next[t], next[next[t]]);
      EdgeHome(s, w);
      AnsweredEdge(s, w);
    }
  }

  predicate IsVictimIn(e: Step, group: set<Ts>) { e.Victim? && e.t in group }

  lemma DeadlockStep(s: State, e: Step, group: set<Ts>)
    requires Inv(s) && AllTurnedOk(s) && Enabled(s, e) && Deadlocked(s, group) && !IsVictimIn(e, group)
    ensures Deadlocked(Apply(s, e), group)
  {
    var s' := Apply(s, e);
    forall t | t in group ensures BlockedIn(s, t, group) && Names(s', t, BlockedBy(s, t).value) {
      assert BlockedIn(s, t, group) && BlockedIn(s, BlockedBy(s, t).value, group);
      RealEdge(s, t);
      NameStays(s, e, t, BlockedBy(s, t).value);
    }
    StepKeeps(s, e);
    StepTurned(s, e);
    NamesCloseUp(s', group, map t | t in group :: BlockedBy(s, t).value);
  }

  lemma {:induction false} DeadlockRun(s: State, steps: seq<Step>, group: set<Ts>)
    requires Inv(s) && AllTurnedOk(s) && Legal(s, steps) && Deadlocked(s, group)
    requires forall i :: 0 <= i < |steps| ==> !IsVictimIn(steps[i], group)
    ensures Deadlocked(After(s, steps), group)
    decreases |steps|
  {
    if steps == [] {
    } else {
      DeadlockStep(s, steps[0], group);
      StepKeeps(s, steps[0]);
      StepTurned(s, steps[0]);
      DeadlockRun(Apply(s, steps[0]), steps[1..], group);
    }
  }

  /** No run resolves a deadlock unless it rolls one of the members back. */
  lemma DeadlockIsPermanent(s: State, steps: seq<Step>, group: set<Ts>)
    requires Reachable(s) && Legal(s, steps) && Deadlocked(s, group)
    requires forall i :: 0 <= i < |steps| ==> !IsVictimIn(steps[i], group)
    ensures Deadlocked(After(s, steps), group)
  {
    ReachableInv(s);
    ReachableTurned(s);
    DeadlockRun(s, steps, group);
  }
}
