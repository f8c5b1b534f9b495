/**
 The walk as it really happens: its hops are answered one after the other, each
 in a later state of the run. If it closes, the transactions it has met are
 deadlocked when it closes, or one of them was rolled back meanwhile. If they
 wait in a circle through the caller when it starts, and none of them is rolled
 back meanwhile, it closes.
 */
module DeadlockInTime {
  import opened Options
  import opened LockWaitTypes
  import opened Handoff
  import opened HandoffInv
  import opened HandoffTheorems
  import opened ChainWalk
  import opened WaitGraph
  import opened DeadlockDetection

  // ----- traces -----

  lemma {:induction false} TraceStep(s: State, steps: seq<Step>, p: nat)
    requires Legal(s, steps) && p < |steps|
    ensures Enabled(Trace(s, steps)[p], steps[p])
    ensures Trace(s, steps)[p + 1] == Apply(Trace(s, steps)[p], steps[p])
    decreases |steps|
  {
    if p > 0 {
      TraceStep(Apply(s, steps[0]), steps[1..], p - 1);
    } else {
      assert Trace(s, steps) == [s] + Trace(Apply(s, steps[0]), steps[1..]);
    }
  }

  lemma {:induction false} TraceOk(s: State, steps: seq<Step>, p: nat)
    requires Inv(s) && AllTurnedOk(s) && Legal(s, steps) && p <= |steps|
    ensures Inv(Trace(s, steps)[p]) && AllTurnedOk(Trace(s, steps)[p])
    decreases p
  {
    if p == 0 {
    } else {
      TraceOk(s, steps, p - 1);
      TraceStep(s, steps, p - 1);
      StepKeeps(Trace(s, steps)[p - 1], steps[p - 1]);
      StepTurned(Trace(s, steps)[p - 1], steps[p - 1]);
    }
  }

  ghost predicate IsStep(a: State, e: Step, b: State) { Enabled(a, e) && b == Apply(a, e) }

  ghost predicate IsSound(s: State) { Inv(s) && AllTurnedOk(s) }

  /** A run given by its states: `steps[p]` leads from `tr[p]` to `tr[p + 1]`. */
  ghost predicate IsRun(tr: seq<State>, steps: seq<Step>) {
    && |tr| == |steps| + 1
    && (forall p :: 0 <= p < |tr| ==> IsSound(tr[p]))
    && (forall p :: 0 <= p < |steps| ==> IsStep(tr[p], steps[p], tr[p + 1]))
  }

  lemma TraceIsRun(s: State, steps: seq<Step>)
    requires Inv(s) && AllTurnedOk(s) && Legal(s, steps)
    ensures IsRun(Trace(s, steps), steps)
  {
    forall p | 0 <= p <= |steps| ensures IsSound(Trace(s, steps)[p]) { TraceOk(s, steps, p); }
    forall p | 0 <= p < |steps| ensures IsStep(Trace(s, steps)[p], steps[p], Trace(s, steps)[p + 1]) {
      TraceStep(s, steps, p);
    }
  }

  /** Whoever still runs in a later state was not on its way out before. */
  lemma {:induction false} RunningBefore(tr: seq<State>, steps: seq<Step>, p: nat, q: nat, t: Ts)
    requires IsRun(tr, steps) && p <= q < |tr| && !IsEnding(tr[q], t)
    ensures !IsEnding(tr[p], t)
    decreases q - p
  {
    if p == q {
    } else {
      RunningBefore(tr, steps, p + 1, q, t);
      assert IsStep(tr[p], steps[p], tr[p + 1]);
      if IsEnding(tr[p], t) { OnceEnding(tr[p], steps[p], t); }
    }
  }

  // ----- answers read one after the other -----

  /** The one that follows in a circle. */
  function After1(who: seq<Ts>, i: nat): Ts
    requires i < |who|
  {
    if i + 1 < |who| then who[i + 1] else who[0]
  }

  /** `who[i]` answered in state `at[i]` that it waits for the next one, the last one for the first. */
  ghost predicate Reads(tr: seq<State>, at: seq<nat>, who: seq<Ts>) {
    && |at| == |who| > 0
    && (forall i, j :: 0 <= i <= j < |at| ==> at[i] <= at[j])
    && (forall i :: 0 <= i < |at| ==> at[i] < |tr|)
    && (forall i {:trigger After1(who, i)} :: 0 <= i < |who| ==> Names(tr[at[i]], who[i], After1(who, i)))
  }

  /** Nobody who has answered is rolled back before the last answer. */
  ghost predicate NoVictim(steps: seq<Step>, at: seq<nat>, who: seq<Ts>)
    requires |at| == |who| > 0
  {
    forall i, p :: 0 <= i < |who| && at[i] <= p < at[|at| - 1] && p < |steps| ==> steps[p] != Victim(who[i])
  }

  /** All answers read so far still hold. */
  ghost predicate StillHold(s: State, at: seq<nat>, who: seq<Ts>, p: nat)
    requires |at| == |who|
  {
    forall i {:trigger After1(who, i)} :: 0 <= i < |who| && at[i] <= p ==> Names(s, who[i], After1(who, i))
  }

  lemma NextIsRunning(tr: seq<State>, steps: seq<Step>, at: seq<nat>, who: seq<Ts>, p: nat, i: nat)
    requires IsRun(tr, steps) && Reads(tr, at, who)
    requires p < |tr| && i < |who| && at[i] <= p && StillHold(tr[p], at, who, p)
    ensures !IsEnding(tr[p], After1(who, i))
  {
    var j := if i + 1 < |who| then i + 1 else 0;
    var q := if at[j] <= p then p else at[j];
    assert Names(tr[q], who[j], After1(who, j));
    assert IsSound(tr[q]);
    NamedIsRunning(tr[q], who[j], After1(who, j));
    RunningBefore(tr, steps, p, q, who[j]);
  }

  lemma {:induction false} AnswersHold(tr: seq<State>, steps: seq<Step>, at: seq<nat>, who: seq<Ts>, p: nat)
    requires IsRun(tr, steps) && Reads(tr, at, who) && NoVictim(steps, at, who) && p <= at[|at| - 1]
    ensures StillHold(tr[p], at, who, p)
    decreases p
  {
    if p > 0 { AnswersHold(tr, steps, at, who, p - 1); }
    forall i | 0 <= i < |who| && at[i] <= p ensures Names(tr[p], who[i], After1(who, i)) {
      if at[i] < p { AnswerStays(tr, steps, at, who, p - 1, i); }
    }
  }

  lemma AnswerStays(tr: seq<State>, steps: seq<Step>, at: seq<nat>, who: seq<Ts>, p: nat, i: nat)
    requires IsRun(tr, steps) && Reads(tr, at, who) && NoVictim(steps, at, who)
    requires p < at[|at| - 1] && i < |who| && at[i] <= p && StillHold(tr[p], at, who, p)
    ensures Names(tr[p + 1], who[i], After1(who, i))
  {
    assert IsSound(tr[p]) && IsStep(tr[p], steps[p], tr[p + 1]);
    NextIsRunning(tr, steps, at, who, p, i);
    NameStays(tr[p], steps[p], who[i], After1(who, i));
  }

  function Everyone(who: seq<Ts>): set<Ts> { set t | t in who }

  /** Answers that all hold at once and close up are a deadlock. */
  lemma NamesInCircle(s: State, who: seq<Ts>)
    requires Inv(s) && AllTurnedOk(s)
    requires forall i {:trigger After1(who, i)} :: 0 <= i < |who| ==> Names(s, who[i], After1(who, i))
    ensures Deadlocked(s, Everyone(who))
  {
    forall t | t in Everyone(who) ensures BlockedIn(s, t, Everyone(who)) {
      var i :| 0 <= i < |who| && who[i] == t;
      var j := if i + 1 < |who| then i + 1 else 0;
      assert Names(s, who[i], After1(who, i)) && Names(s, who[j], After1(who, j));
      EdgeHome(s, Waiter(t, s.txns[t].home));
      AnsweredEdge(s, Waiter(t, s.txns[t].home));
    }
  }

  /** Answers read one after the other that close up are a deadlock in the state of the last one. */
  lemma ClosedReadsAreDeadlock(tr: seq<State>, steps: seq<Step>, at: seq<nat>, who: seq<Ts>)
    requires IsRun(tr, steps) && Reads(tr, at, who) && NoVictim(steps, at, who)
    ensures Deadlocked(tr[at[|at| - 1]], Everyone(who))
  {
    var last := at[|at| - 1];
    AnswersHold(tr, steps, at, who, last);
    assert IsSound(tr[last]);
    NamesInCircle(tr[last], who);
  }

  // ----- the walk -----

  /** Hop `i` is answered in state `at[i + 1]`; the caller has read its own edge in state `at[0]`. */
  function AskDuring(tr: seq<State>, at: seq<nat>): Ask {
    (hop: nat, w: Waiter) => if hop + 1 < |at| && at[hop + 1] < |tr| then Edge(tr[at[hop + 1]], w) else None
  }

  /** The walk's members after `n` hops: the caller, then everybody it has asked. */
  function Met(me: Ts, first: Waiter, ask: Ask, n: nat): (who: seq<Ts>)
    ensures |who| == n + 1 && who[0] == me
  {
    if n == 0 then [me]
    else Met(me, first, ask, n - 1)
         + [if At(first, ask, n - 1).Some? then At(first, ask, n - 1).value.ts else me]
  }

  lemma {:induction false} MetAt(me: Ts, first: Waiter, ask: Ask, n: nat, i: nat)
    requires 1 <= i <= n && At(first, ask, i - 1).Some?
    ensures Met(me, first, ask, n)[i] == At(first, ask, i - 1).value.ts
    decreases n
  {
    if i < n { MetAt(me, first, ask, n - 1, i); }
  }

  /** The times of a walk: they do not go back, and lie in the run. */
  ghost predicate Times(at: seq<nat>, states: nat) {
    && |at| > 0
    && (forall i, j :: 0 <= i <= j < |at| ==> at[i] <= at[j])
    && (forall i :: 0 <= i < |at| ==> at[i] < states)
  }

  lemma OneRead(tr: seq<State>, at: seq<nat>, me: Ts, first: Waiter, n: nat, i: nat)
    requires Times(at, |tr|) && Names(tr[at[0]], me, first.ts)
    requires Closes(me, first, AskDuring(tr, at), n) && i <= n
    ensures var who := Met(me, first, AskDuring(tr, at), n);
      i < |at| && Names(tr[at[i]], who[i], After1(who, i))
  {
    var ask := AskDuring(tr, at);
    if i > 0 {
      assert At(first, ask, i) == ask(i - 1, At(first, ask, i - 1).value);
      MetAt(me, first, ask, n, i);
    }
    if i < n { MetAt(me, first, ask, n, i + 1); }
  }

  lemma ClosedWalkReads(tr: seq<State>, at: seq<nat>, me: Ts, first: Waiter, n: nat)
    requires Times(at, |tr|) && Names(tr[at[0]], me, first.ts) && Closes(me, first, AskDuring(tr, at), n)
    ensures n < |at| && Reads(tr, at[..n + 1], Met(me, first, AskDuring(tr, at), n))
  {
    OneRead(tr, at, me, first, n, n);
    forall i | 0 <= i <= n
      ensures Names(tr[at[i]], Met(me, first, AskDuring(tr, at), n)[i], After1(Met(me, first, AskDuring(tr, at), n), i))
    {
      OneRead(tr, at, me, first, n, i);
    }
  }

  /** A member of `group` was rolled back between the states `from` and `to`. */
  ghost predicate RolledBack(steps: seq<Step>, group: set<Ts>, from: nat, to: nat) {
    exists p :: from <= p < to && p < |steps| && IsVictimIn(steps[p], group)
  }

  /** What a closed walk of `n` hops has found. */
  ghost predicate Found(tr: seq<State>, steps: seq<Step>, at: seq<nat>, group: set<Ts>, n: nat)
    requires n < |at| && at[n] < |tr|
  {
    Deadlocked(tr[at[n]], group) || RolledBack(steps, group, at[0], at[n])
  }

  lemma ClosedWalkFinds(tr: seq<State>, steps: seq<Step>, at: seq<nat>, me: Ts, first: Waiter, n: nat)
    requires IsRun(tr, steps) && Times(at, |tr|) && Names(tr[at[0]], me, first.ts)
    requires Closes(me, first, AskDuring(tr, at), n)
    ensures n < |at| && Found(tr, steps, at, Everyone(Met(me, first, AskDuring(tr, at), n)), n)
  {
    var who := Met(me, first, AskDuring(tr, at), n);
    ClosedWalkReads(tr, at, me, first, n);
    var times := at[..n + 1];
    if NoVictim(steps, times, who) {
      ClosedReadsAreDeadlock(tr, steps, times, who);
    } else {
      var i, p :| 0 <= i < |who| && times[i] <= p < times[n] && p < |steps| && steps[p] == Victim(who[i]);
      assert at[0] <= p && who[i] in who && IsVictimIn(steps[p], Everyone(who));
    }
  }

  /**
   Over any run, with any times for the answers: if the walk reports a deadlock,
   then the caller and those it has asked are deadlocked in the state of the
   last answer, unless one of them was rolled back meanwhile.
   */
  lemma WalkInTimeIsSound(s: State, steps: seq<Step>, at: seq<nat>, me: Ts, first: Waiter)
    requires Reachable(s) && Legal(s, steps) && Times(at, |steps| + 1) && Names(Trace(s, steps)[at[0]], me, first.ts)
    requires Expected(me, first, AskDuring(Trace(s, steps), at)) == Deadlock
    ensures exists n: nat ::
              && n < MAX_CHAIN_HOPS && n < |at| && Closes(me, first, AskDuring(Trace(s, steps), at), n)
              && Found(Trace(s, steps), steps, at, Everyone(Met(me, first, AskDuring(Trace(s, steps), at), n)), n)
  {
    ReachableInv(s);
    ReachableTurned(s);
    TraceIsRun(s, steps);
    var n: nat :| n < MAX_CHAIN_HOPS && Closes(me, first, AskDuring(Trace(s, steps), at), n);
    ClosedWalkFinds(Trace(s, steps), steps, at, me, first, n);
  }

  // ----- a circle that is there is found -----

  /** The transactions of the first `n` places of a chain, in order. */
  function Places(s: State, t: Ts, n: nat): (who: seq<Ts>)
    ensures |who| == n
  {
    if n == 0 then []
    else Places(s, t, n - 1) + [if Chain(s, t, n - 1).Some? then Chain(s, t, n - 1).value else t]
  }

  lemma {:induction false} PlacesAt(s: State, t: Ts, n: nat, i: nat)
    requires i < n && Chain(s, t, i).Some?
    ensures Places(s, t, n)[i] == Chain(s, t, i).value
    decreases n
  {
    if i < n - 1 { PlacesAt(s, t, n - 1, i); }
  }

  /** Everybody's node answers that it waits for the next one. */
  ghost predicate Circling(s: State, who: seq<Ts>) {
    forall i {:trigger After1(who, i)} :: 0 <= i < |who| ==> Names(s, who[i], After1(who, i))
  }

  lemma CircleIsNamed(s: State, t: Ts, n: nat)
    requires Inv(s) && n >= 1 && Chain(s, t, n) == Some(t)
    ensures Circling(s, Places(s, t, n))
  {
    var who := Places(s, t, n);
    forall i | 0 <= i < |who| ensures Names(s, who[i], After1(who, i)) {
      ChainStays(s, t, i, n);
      ChainStays(s, t, i + 1, n);
      PlacesAt(s, t, n, i);
      PlacesAt(s, t, n, 0);
      assert Chain(s, t, i + 1) == BlockedBy(s, who[i]);
      if i + 1 < n {
        PlacesAt(s, t, n, i + 1);
        ChainStays(s, t, i + 2, n);
        assert Chain(s, t, i + 2) == BlockedBy(s, who[i + 1]);
      } else {
        ChainStays(s, t, 1, n);
        assert Chain(s, t, 0) == Some(t) && Chain(s, t, 1) == BlockedBy(s, t);
      }
      RealEdge(s, who[i]);
    }
  }

  lemma CirclingStays(s: State, e: Step, who: seq<Ts>)
    requires IsSound(s) && Enabled(s, e) && Circling(s, who) && !IsVictimIn(e, Everyone(who))
    ensures Circling(Apply(s, e), who)
  {
    forall i | 0 <= i < |who| ensures Names(Apply(s, e), who[i], After1(who, i)) {
      var j := if i + 1 < |who| then i + 1 else 0;
      assert Names(s, who[i], After1(who, i)) && Names(s, who[j], After1(who, j)) && who[i] in who;
      NamedIsRunning(s, who[j], After1(who, j));
      NameStays(s, e, who[i], After1(who, i));
    }
  }

  lemma {:induction false} CirclingInRun(tr: seq<State>, steps: seq<Step>, who: seq<Ts>, p: nat, q: nat)
    requires IsRun(tr, steps) && p <= q < |tr| && Circling(tr[p], who) && !RolledBack(steps, Everyone(who), p, q)
    ensures Circling(tr[q], who)
    decreases q
  {
    if p == q {
    } else {
      CirclingInRun(tr, steps, who, p, q - 1);
      assert IsSound(tr[q - 1]) && IsStep(tr[q - 1], steps[q - 1], tr[q]);
      CirclingStays(tr[q - 1], steps[q - 1], who);
    }
  }

  lemma {:induction false} HomeInRun(tr: seq<State>, steps: seq<Step>, t: Ts, p: nat, q: nat)
    requires IsRun(tr, steps) && p <= q < |tr| && t in tr[p].txns
    ensures t in tr[q].txns && tr[q].txns[t].home == tr[p].txns[t].home
    decreases q - p
  {
    if p == q {
    } else {
      assert IsStep(tr[p], steps[p], tr[p + 1]);
      OnceEnding(tr[p], steps[p], t);
      HomeInRun(tr, steps, t, p + 1, q);
    }
  }

  /** What is asked while the circle lasts: the place of each member at its home. */
  ghost predicate Follows(s: State, who: seq<Ts>, first: Waiter, ask: Ask, i: nat)
    requires i < |who|
  {
    After1(who, i) in s.txns && At(first, ask, i) == Some(Waiter(After1(who, i), s.txns[After1(who, i)].home))
  }

  lemma FirstFollows(s: State, who: seq<Ts>, ask: Ask)
    requires IsSound(s) && who != [] && Circling(s, who)
    ensures who[0] in s.txns && Edge(s, Waiter(who[0], s.txns[who[0]].home)).Some?
    ensures Follows(s, who, Edge(s, Waiter(who[0], s.txns[who[0]].home)).value, ask, 0)
  {
    assert Names(s, who[0], After1(who, 0));
    EdgeHome(s, Waiter(who[0], s.txns[who[0]].home));
  }

  lemma {:induction false} WalkFollows(
      tr: seq<State>, steps: seq<Step>, at: seq<nat>, who: seq<Ts>, first: Waiter, i: nat)
    requires IsRun(tr, steps) && Times(at, |tr|) && i < |who| <= |at| && Circling(tr[at[0]], who)
    requires !RolledBack(steps, Everyone(who), at[0], at[|who| - 1])
    requires Follows(tr[at[0]], who, first, AskDuring(tr, at), 0)
    ensures Follows(tr[at[0]], who, first, AskDuring(tr, at), i)
    decreases i
  {
    if i == 0 {
    } else {
      WalkFollows(tr, steps, at, who, first, i - 1);
      AnswerInRun(tr, steps, at, who, i);
    }
  }

  lemma AnswerInRun(tr: seq<State>, steps: seq<Step>, at: seq<nat>, who: seq<Ts>, i: nat)
    requires IsRun(tr, steps) && Times(at, |tr|) && 1 <= i < |who| <= |at| && Circling(tr[at[0]], who)
    requires !RolledBack(steps, Everyone(who), at[0], at[|who| - 1])
    ensures who[i] in tr[at[0]].txns && After1(who, i) in tr[at[0]].txns
    ensures var s0 := tr[at[0]];
      Edge(tr[at[i]], Waiter(who[i], s0.txns[who[i]].home)) ==
      Some(Waiter(After1(who, i), s0.txns[After1(who, i)].home))
  {
    var s0, s := tr[at[0]], tr[at[i]];
    var u, v := who[i], After1(who, i);
    var j := if i + 1 < |who| then i + 1 else 0;
    assert !RolledBack(steps, Everyone(who), at[0], at[i]);
    CirclingInRun(tr, steps, who, at[0], at[i]);
    assert Names(s, u, v) && Names(s0, u, v) && Names(s0, who[j], After1(who, j)) && IsSound(s);
    HomeInRun(tr, steps, u, at[0], at[i]);
    HomeInRun(tr, steps, v, at[0], at[i]);
    EdgeHome(s, Waiter(u, s.txns[u].home));
  }

  /**
   Over any run, with any times for the answers: if at most 128 transactions
   wait in a circle through the caller when it reads its own edge, and none of
   them is rolled back until the walk is done, the walk reports the deadlock.
   */
  lemma WalkInTimeIsComplete(s: State, steps: seq<Step>, at: seq<nat>, me: Ts, n: nat)
    requires Reachable(s) && Legal(s, steps) && Times(at, |steps| + 1) && 1 <= n <= MAX_CHAIN_HOPS && n <= |at|
    requires Chain(Trace(s, steps)[at[0]], me, n) == Some(me)
    requires !RolledBack(steps, Everyone(Places(Trace(s, steps)[at[0]], me, n)), at[0], at[n - 1])
    ensures var tr := Trace(s, steps);
      && me in tr[at[0]].txns && Edge(tr[at[0]], Waiter(me, tr[at[0]].txns[me].home)).Some?
      && Expected(me, Edge(tr[at[0]], Waiter(me, tr[at[0]].txns[me].home)).value, AskDuring(tr, at)) == Deadlock
  {
    ReachableInv(s);
    ReachableTurned(s);
    TraceIsRun(s, steps);
    CircleIsFound(Trace(s, steps), steps, at, me, n);
  }

  lemma CircleIsFound(tr: seq<State>, steps: seq<Step>, at: seq<nat>, me: Ts, n: nat)
    requires IsRun(tr, steps) && Times(at, |tr|) && 1 <= n <= MAX_CHAIN_HOPS && n <= |at|
    requires Chain(tr[at[0]], me, n) == Some(me)
    requires !RolledBack(steps, Everyone(Places(tr[at[0]], me, n)), at[0], at[n - 1])
    ensures me in tr[at[0]].txns && Edge(tr[at[0]], Waiter(me, tr[at[0]].txns[me].home)).Some?
    ensures Expected(me, Edge(tr[at[0]], Waiter(me, tr[at[0]].txns[me].home)).value, AskDuring(tr, at)) == Deadlock
  {
    var s0 := tr[at[0]];
    var who := Places(s0, me, n);
    assert IsSound(s0);
    CircleIsNamed(s0, me, n);
    assert Chain(s0, me, 0) == Some(me);
    PlacesAt(s0, me, n, 0);
    FirstFollows(s0, who, AskDuring(tr, at));
    var first := Edge(s0, Waiter(me, s0.txns[me].home)).value;
    forall i: nat | i < n ensures At(first, AskDuring(tr, at), i) == At(first, AskIn(s0), i) {
      WalkFollows(tr, steps, at, who, first, i);
      SameAsAtOnce(s0, me, n, first, i);
    }
    SameWalk(s0, me, n, first, AskDuring(tr, at));
  }

  /** The walk with all hops answered in one state goes round the same circle. */
  lemma SameAsAtOnce(s: State, me: Ts, n: nat, first: Waiter, i: nat)
    requires IsSound(s) && 1 <= n && Chain(s, me, n) == Some(me) && i < n && me in s.txns
    requires Edge(s, Waiter(me, s.txns[me].home)) == Some(first)
    ensures var v := After1(Places(s, me, n), i);
      v in s.txns && At(first, AskIn(s), i) == Some(Waiter(v, s.txns[v].home))
  {
    CircleIsVisible(s, me, n, i);
    assert Chain(s, me, 0) == Some(me);
    PlacesAt(s, me, n, 0);
    if i + 1 < n { PlacesAt(s, me, n, i + 1); }
  }

  lemma SameWalk(s: State, me: Ts, n: nat, first: Waiter, ask: Ask)
    requires IsSound(s) && 1 <= n <= MAX_CHAIN_HOPS && Chain(s, me, n) == Some(me) && me in s.txns
    requires Edge(s, Waiter(me, s.txns[me].home)) == Some(first)
    requires forall i: nat :: i < n ==> At(first, ask, i) == At(first, AskIn(s), i)
    ensures Expected(me, first, ask) == Deadlock
  {
    EdgeHome(s, Waiter(me, s.txns[me].home));
    EdgesAreStable(s, first);
    CircleIsVisible(s, me, n, n - 1);
    FirstReturnIsSimple(me, first, AskIn(s), n - 1);
    var i: nat :| i <= n - 1 && Closes(me, first, AskIn(s), i);
    SameCloses(me, first, AskIn(s), ask, i);
  }

  lemma SameCloses(me: Ts, first: Waiter, a: Ask, b: Ask, i: nat)
    requires Closes(me, first, a, i) && forall j: nat :: j <= i ==> At(first, b, j) == At(first, a, j)
    ensures Closes(me, first, b, i)
  {
    assert forall j: nat, k: nat :: j < k < i ==> (Meets(first, b, j, k) <==> Meets(first, a, j, k));
  }
}
