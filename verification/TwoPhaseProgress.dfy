/**
 What each step does to a tuple, and that no commit hangs: a transaction can be
 committed at all its participants exactly while its locks are where its
 requests expect them, and always once it is decided.
 */
module TwoPhaseProgress {
  import opened Options
  import opened PreparedTxn
  import opened TwoPhaseCommit
  import opened TwoPhaseProofs

  // ----- what a step does to a tuple -----

  /** A released tuple is free, or names the successor and, as both of its nodes, the successor's node. */
  predicate Handed(was: Item, now: Item, next: Option<Successor>) {
    now.home == was.home &&
    match next
    case None => now.owner == None && now.holderNode == was.holderNode && now.lockNode == was.lockNode
    case Some(n) => now.owner == Some(n.ts) && now.holderNode == n.node && now.lockNode == n.node
  }

  /** The step installs a write to the tuple. */
  predicate Writes(s: State, e: Step, t: Tuple) {
    && e.Install? && e.a in s.parts && s.parts[e.a].stage.Applying?
    && s.parts[e.a].stage.k < |s.parts[e.a].request.writes|
    && s.parts[e.a].request.writes[s.parts[e.a].stage.k].tuple == Some(t)
  }

  /** A tuple changes only by being locked, unlocked or written, and exactly in the fields that belong to it. */
  lemma TupleChanges(s: State, e: Step, t: Tuple)
    requires Enabled(s, e) && t in s.items
    ensures Apply(s, e).items.Keys == s.items.Keys
    ensures var was, now := s.items[t], Apply(s, e).items[t];
      if Writes(s, e, t) then
        var r := s.parts[e.a].request;
        Handed(was, now, e.next) && now.value == r.writes[s.parts[e.a].stage.k].value && now.stamp == r.commit
      else if e.UnlockTuple? && e.t == t then
        Handed(was, now, e.next) && now.value == was.value && now.stamp == was.stamp
      else if e.LockTuple? && e.t == t then now == Item(was.home, Some(e.ts), e.holder, e.node, was.value, was.stamp)
      else now == was
  {
    match e
    case DeliverPrepare(id, n) => assert DoDeliverPrepare(s, id, n).items == s.items;
    case CheckWrite(a) => assert DoCheckWrite(s, a).items == s.items;
    case DeliverCommit(id, n) => assert DoDeliverCommit(s, id, n).items == s.items;
    case _ =>
  }

  // ----- a run goes on -----

  /** Some run leads from `s` to `s'`. */
  ghost predicate Leads(s: State, s': State) {
    exists steps :: Legal(s, steps) && After(s, steps) == s'
  }

  lemma Stay(s: State)
    ensures Leads(s, s)
  {
    assert Legal(s, []) && After(s, []) == s;
  }

  lemma GoOn(s0: State, s: State, e: Step)
    requires Leads(s0, s) && Enabled(s, e)
    ensures Leads(s0, Apply(s, e))
  {
    var steps :| Legal(s0, steps) && After(s0, steps) == s;
    OneMore(s0, steps, e);
  }

  // ----- a decided transaction is installed -----

  /** The step a participant of a decided transaction takes next. */
  function NextStep(s: State, a: At): Step
    requires a in s.parts
  {
    match s.parts[a].stage
    case Applying(k) => if k < |s.parts[a].request.writes| then Install(a, None) else Finish(a)
    case Ready => DeliverCommit(a.id, a.node)
    case _ => Mark(a)
  }

  /** How many steps a participant still has to take. */
  function ToGo(s: State, a: At): nat
    requires a in s.parts
  {
    match s.parts[a].stage
    case Applying(k) => if k <= |s.parts[a].request.writes| then |s.parts[a].request.writes| - k else 0
    case Ready => |s.parts[a].request.writes| + 1
    case _ => |s.parts[a].request.writes| + 2
  }

  /** A participant of a decided transaction always has its next step, and comes closer to its end by it. */
  lemma NeverHeldUp(s: State, a: At)
    requires Inv(s) && InTxn(s, a) && s.txns[a.id].phase == Decided && a !in s.done
    ensures a in s.parts && Enabled(s, NextStep(s, a))
    ensures var s' := Apply(s, NextStep(s, a));
      && Inv(s') && s'.txns == s.txns && s.done <= s'.done
      && (a in s'.done || (a in s'.parts && ToGo(s', a) < ToGo(s, a)))
  {
    AfterTheVote(s, a.id, a.node);
    assert SlotOk(s, a) && PartOk(s, a);
    if s.parts[a].stage.Applying? && s.parts[a].stage.k < |s.parts[a].request.writes| {
      assert LockedFor(s.items, s.parts[a].request, s.parts[a].stage.k);
    }
    StepKeeps(s, NextStep(s, a));
  }

  lemma {:induction false} FinishOne(s0: State, s: State, a: At) returns (s': State)
    requires Leads(s0, s) && Inv(s) && InTxn(s, a) && s.txns[a.id].phase == Decided
    ensures Leads(s0, s') && Inv(s') && a in s'.done && s'.txns == s.txns && s.done <= s'.done
    decreases if a in s.done then 0 else 1 + (if a in s.parts then ToGo(s, a) else 0)
  {
    if a in s.done {
      s' := s;
    } else {
      NeverHeldUp(s, a);
      var e := NextStep(s, a);
      GoOn(s0, s, e);
      s' := FinishOne(s0, Apply(s, e), a);
    }
  }

  ghost predicate AllDone(s: State, id: Id) {
    id in s.txns && forall n :: n in s.txns[id].requests ==> At(n, id) in s.done
  }

  function Undone(s: State, id: Id): set<int>
    requires id in s.txns
  {
    set n | n in s.txns[id].requests && At(n, id) !in s.done
  }

  lemma {:induction false} FinishAll(s0: State, s: State, id: Id) returns (s': State)
    requires Leads(s0, s) && Inv(s) && id in s.txns && s.txns[id].phase == Decided
    ensures Leads(s0, s') && AllDone(s', id) && s'.txns == s.txns
    decreases |Undone(s, id)|
  {
    if Undone(s, id) == {} {
      forall n | n in s.txns[id].requests ensures At(n, id) in s.done { assert n !in Undone(s, id); }
      s' := s;
    } else {
      var n :| n in Undone(s, id);
      var s1 := FinishOne(s0, s, At(n, id));
      FewerUndone(s, s1, id, n);
      s' := FinishAll(s0, s1, id);
    }
  }

  lemma FewerUndone(s: State, s1: State, id: Id, n: int)
    requires id in s.txns && s1.txns == s.txns && s.done <= s1.done && n in Undone(s, id) && At(n, id) in s1.done
    ensures |Undone(s1, id)| < |Undone(s, id)|
  {
    var more := Undone(s, id) - {n};
    assert Undone(s1, id) <= more;
    SmallerSet(Undone(s1, id), more);
  }

  lemma SmallerSet(a: set<int>, b: set<int>)
    requires a <= b
    ensures |a| <= |b|
  {
    assert b == a + (b - a);
  }

  // ----- a transaction with its locks is decided -----

  /** Every participant finds the locks that its request needs. */
  ghost predicate Agreed(s: State, id: Id)
    requires id in s.txns
  {
    forall n :: n in s.txns[id].requests ==> LockedFrom(s.items, s.txns[id].requests[n], 0)
  }

  /** The step by which a participant comes closer to its YES. */
  function NextVote(s: State, a: At): Step {
    if a !in s.parts then DeliverPrepare(a.id, a.node)
    else match s.parts[a].stage
      case Checking(k) => if k < |s.parts[a].request.writes| then CheckWrite(a) else LogPrepare(a)
      case Logging => if a in s.durable then Mark(a) else Flush(a)
      case _ => DeliverPrepare(a.id, a.node)
  }

  /** How many steps a participant is away from its YES. */
  function ToVote(s: State, a: At): nat
    requires InTxn(s, a)
  {
    var n := |s.txns[a.id].requests[a.node].writes|;
    if a in s.yes then 0
    else if a !in s.parts then n + 5
    else match s.parts[a].stage
      case Checking(k) => if k <= n then n - k + 4 else 4
      case Logging => if a in s.durable then 2 else 3
      case _ => 1
  }

  /** A participant that finds its locks always has its next step, and comes closer to its YES by it. */
  lemma NeverRefused(s: State, a: At)
    requires Inv(s) && InTxn(s, a) && s.txns[a.id].phase == Preparing && a !in s.yes
    requires LockedFrom(s.items, s.txns[a.id].requests[a.node], 0)
    ensures Enabled(s, NextVote(s, a))
    ensures var s' := Apply(s, NextVote(s, a));
      Inv(s') && s'.txns == s.txns && s'.items == s.items && s.yes <= s'.yes && ToVote(s', a) < ToVote(s, a)
  {
    assert SlotOk(s, a);
    if a in s.parts {
      assert PartOk(s, a);
      if s.parts[a].stage.Checking? && s.parts[a].stage.k < |s.parts[a].request.writes| {
        assert LockedFor(s.items, s.parts[a].request, s.parts[a].stage.k);
      }
    }
    StepKeeps(s, NextVote(s, a));
  }

  lemma {:induction false} VoteOne(s0: State, s: State, a: At) returns (s': State)
    requires Leads(s0, s) && Inv(s) && InTxn(s, a) && s.txns[a.id].phase == Preparing
    requires LockedFrom(s.items, s.txns[a.id].requests[a.node], 0)
    ensures Leads(s0, s') && Inv(s') && a in s'.yes && s'.txns == s.txns && s'.items == s.items && s.yes <= s'.yes
    decreases ToVote(s, a)
  {
    if a in s.yes {
      s' := s;
    } else {
      NeverRefused(s, a);
      var e := NextVote(s, a);
      GoOn(s0, s, e);
      s' := VoteOne(s0, Apply(s, e), a);
    }
  }

  function Silent(s: State, id: Id): set<int>
    requires id in s.txns
  {
    set n | n in s.txns[id].requests && At(n, id) !in s.yes
  }

  lemma {:induction false} VoteAll(s0: State, s: State, id: Id) returns (s': State)
    requires Leads(s0, s) && Inv(s) && id in s.txns && s.txns[id].phase == Preparing && Agreed(s, id)
    ensures Leads(s0, s') && Inv(s') && s'.txns == s.txns && AllYes(s', id, s.txns[id])
    decreases |Silent(s, id)|
  {
    if Silent(s, id) == {} {
      forall n | n in s.txns[id].requests ensures At(n, id) in s.yes { assert n !in Silent(s, id); }
      s' := s;
    } else {
      var n :| n in Silent(s, id);
      var s1 := VoteOne(s0, s, At(n, id));
      assert Silent(s1, id) <= Silent(s, id) - {n};
      SmallerSet(Silent(s1, id), Silent(s, id) - {n});
      s' := VoteAll(s0, s1, id);
    }
  }

  /** All have voted: the coordinator decides. */
  lemma Decide(s0: State, s: State, id: Id) returns (s': State)
    requires Leads(s0, s) && Inv(s) && id in s.txns && s.txns[id].phase == Preparing && AllYes(s, id, s.txns[id])
    ensures Leads(s0, s') && Inv(s') && id in s'.txns && s'.txns[id] == s.txns[id].(phase := Decided)
  {
    s' := s;
    if s.txns[id].variant == CornusOpt {
      forall n | n in s.txns[id].requests
        ensures At(n, id) in s.durable && s.durable[At(n, id)] == s.txns[id].requests[n]
      {
        assert InTxn(s, At(n, id)) && SlotOk(s, At(n, id));
      }
      s' := Advance(s0, s', Notify(id));
    }
    s' := Advance(s0, s', Vote(id));
    if s'.txns[id].phase == Voted { s' := Advance(s0, s', LogDecision(id)); }
  }

  lemma Advance(s0: State, s: State, e: Step) returns (s': State)
    requires Leads(s0, s) && Inv(s) && Enabled(s, e)
    ensures s' == Apply(s, e) && Leads(s0, s') && Inv(s')
  {
    GoOn(s0, s, e);
    StepKeeps(s, e);
    s' := Apply(s, e);
  }

  // ----- exactly then -----

  lemma DurableIsLocked(s: State, a: At)
    requires Inv(s) && InTxn(s, a) && s.txns[a.id].phase == Preparing
    ensures a in s.durable ==> LockedFrom(s.items, s.txns[a.id].requests[a.node], 0)
  {
    assert SlotOk(s, a);
    if a in s.durable { assert PartOk(s, a); }
  }

  /** A participant whose locks are gone before its record was written never votes. */
  lemma HopelessStep(s: State, e: Step, id: Id, n: int)
    requires Inv(s) && Enabled(s, e) && id in s.txns && s.txns[id].phase == Preparing && n in s.txns[id].requests
    requires !LockedFrom(s.items, s.txns[id].requests[n], 0)
    ensures var s' := Apply(s, e);
      && id in s'.txns && s'.txns[id] == s.txns[id] && !LockedFrom(s'.items, s.txns[id].requests[n], 0)
  {
    var a := At(n, id);
    var r := s.txns[id].requests[n];
    DurableIsLocked(s, a);
    if e == Vote(id) { VotesAreDurable(s, id); }
    SameTxn(s, e, id);
    StartEnded(s, a);
    var i :| 0 <= i < |r.writes| && !LockedFor(s.items, r, i);
    StaysUnlocked(s, e, r, i);
  }

  /** A transaction that has not got its votes changes by its votes only. */
  lemma SameTxn(s: State, e: Step, id: Id)
    requires Enabled(s, e) && id in s.txns && s.txns[id].phase == Preparing && e != Vote(id)
    ensures id in Apply(s, e).txns && Apply(s, e).txns[id] == s.txns[id]
  {
  }

  /** A transaction that is ending gets no lock any more. */
  lemma StaysUnlocked(s: State, e: Step, r: Request, i: nat)
    requires Enabled(s, e) && r.start in s.ended && i < |r.writes| && !LockedFor(s.items, r, i)
    ensures !LockedFor(Apply(s, e).items, r, i)
  {
    var w := r.writes[i];
    if w.tuple.Some? && w.tuple.value in s.items {
      TupleChanges(s, e, w.tuple.value);
    } else {
      SameTuples(s, e);
    }
  }

  lemma SameTuples(s: State, e: Step)
    requires Enabled(s, e)
    ensures Apply(s, e).items.Keys == s.items.Keys
  {
    if t :| t in s.items { TupleChanges(s, e, t); }
  }

  lemma {:induction false} HopelessRun(s: State, steps: seq<Step>, id: Id, n: int)
    requires Inv(s) && Legal(s, steps) && id in s.txns && s.txns[id].phase == Preparing && n in s.txns[id].requests
    requires !LockedFrom(s.items, s.txns[id].requests[n], 0)
    ensures Inv(After(s, steps)) && id in After(s, steps).txns && After(s, steps).txns[id] == s.txns[id]
    decreases |steps|
  {
    if steps == [] {
    } else {
      HopelessStep(s, steps[0], id, n);
      StepKeeps(s, steps[0]);
      HopelessRun(Apply(s, steps[0]), steps[1..], id, n);
    }
  }

  lemma NotDone(s: State, id: Id, n: int)
    requires Inv(s) && id in s.txns && s.txns[id].phase == Preparing && n in s.txns[id].requests
    ensures At(n, id) !in s.done
  {
    assert InTxn(s, At(n, id)) && SlotOk(s, At(n, id));
  }

  /**
   From any state of any run, some continuation commits the transaction at all
   its participants if and only if it is past its votes, or every participant
   still finds the locks its request needs.
   */
  lemma CanCommitIff(s: State, id: Id)
    requires Reachable(s) && id in s.txns
    ensures (exists s' :: Leads(s, s') && AllDone(s', id)) <==> s.txns[id].phase != Preparing || Agreed(s, id)
  {
    ReachableInv(s);
    Stay(s);
    if s.txns[id].phase != Preparing || Agreed(s, id) {
      var s1 := Carry(s, id);
      assert Leads(s, s1) && AllDone(s1, id);
    } else {
      var n :| n in s.txns[id].requests && !LockedFrom(s.items, s.txns[id].requests[n], 0);
      forall s' | Leads(s, s') ensures !AllDone(s', id) {
        var steps :| Legal(s, steps) && After(s, steps) == s';
        HopelessRun(s, steps, id, n);
        NotDone(s', id, n);
      }
    }
  }

  lemma Carry(s: State, id: Id) returns (s': State)
    requires Inv(s) && id in s.txns && (s.txns[id].phase != Preparing || Agreed(s, id))
    ensures Leads(s, s') && AllDone(s', id)
  {
    Stay(s);
    s' := s;
    if s.txns[id].phase == Preparing {
      s' := VoteAll(s, s', id);
      s' := Decide(s, s', id);
    } else if s.txns[id].phase == Voted {
      s' := Advance(s, s', LogDecision(id));
    }
    s' := FinishAll(s, s', id);
  }

  // ----- what a decision needs -----

  /** The optimised variant decides on the durable records alone: no participant has to answer. */
  lemma OptimisedDecides(s: State, id: Id)
    requires Reachable(s) && id in s.txns && s.txns[id].variant == CornusOpt && s.txns[id].phase == Preparing
    requires forall n :: n in s.txns[id].requests ==> At(n, id) in s.durable
    ensures Legal(s, [Notify(id), Vote(id)]) && id in After(s, [Notify(id), Vote(id)]).txns
    ensures After(s, [Notify(id), Vote(id)]).txns[id].phase == Decided
  {
    ReachableInv(s);
    assert AllDurable(s, id, s.txns[id]) by {
      forall n | n in s.txns[id].requests ensures s.durable[At(n, id)] == s.txns[id].requests[n] {
        assert InTxn(s, At(n, id)) && SlotOk(s, At(n, id));
      }
    }
    var s1 := s.(notes := s.notes + {id});
    assert Enabled(s, Notify(id)) && Apply(s, Notify(id)) == s1 && Enabled(s1, Vote(id));
    TwoSteps(s, Notify(id), Vote(id));
  }

  lemma TwoSteps(s: State, a: Step, b: Step)
    requires Enabled(s, a) && Enabled(Apply(s, a), b)
    ensures Legal(s, [a, b]) && After(s, [a, b]) == Apply(Apply(s, a), b)
  {
    OneMore(s, [], a);
    assert [] + [a] == [a] && [a] + [b] == [a, b];
    OneMore(s, [a], b);
  }

  /** The other variants decide on the answers; the baseline also writes its decision down first. */
  lemma AnswersDecide(s: State, id: Id)
    requires id in s.txns && s.txns[id].variant != CornusOpt && s.txns[id].phase == Preparing
    ensures Enabled(s, Vote(id)) <==> forall n :: n in s.txns[id].requests ==> At(n, id) in s.yes
    ensures Enabled(s, Vote(id)) ==>
      Apply(s, Vote(id)).txns[id].phase == if s.txns[id].variant == Baseline then Voted else Decided
  {
  }

  // ----- decision records -----

  /** Only the baseline variant writes a decision record, and only once it is written is the transaction decided. */
  ghost predicate RecordsOk(s: State) {
    && (forall id :: id in s.decisions <==>
          id in s.txns && s.txns[id].variant == Baseline && s.txns[id].phase == Decided)
    && (forall id :: id in s.txns && s.txns[id].phase == Voted ==> s.txns[id].variant == Baseline)
  }

  lemma RecordsStep(s: State, e: Step)
    requires RecordsOk(s) && Enabled(s, e)
    ensures RecordsOk(Apply(s, e))
  {
    var s' := Apply(s, e);
    if !(e.Send? || e.Vote? || e.LogDecision?) { OtherSteps(s, e); }
  }

  lemma OtherSteps(s: State, e: Step)
    requires Enabled(s, e) && !(e.Send? || e.Vote? || e.LogDecision?)
    ensures Apply(s, e).txns == s.txns && Apply(s, e).decisions == s.decisions
  {
  }

  lemma {:induction false} RecordsRun(s: State, steps: seq<Step>)
    requires RecordsOk(s) && Legal(s, steps)
    ensures RecordsOk(After(s, steps))
    decreases |steps|
  {
    if steps == [] {
    } else {
      RecordsStep(s, steps[0]);
      RecordsRun(Apply(s, steps[0]), steps[1..]);
    }
  }

  /** In every run a decision record is there if and only if the transaction is decided and of the baseline variant. */
  lemma DecisionRecordIff(s: State, id: Id)
    requires Reachable(s)
    ensures id in s.decisions <==> id in s.txns && s.txns[id].variant == Baseline && s.txns[id].phase == Decided
    ensures id in s.txns && s.txns[id].phase == Voted ==> s.txns[id].variant == Baseline
  {
    var s0, steps :| Init(s0) && Legal(s0, steps) && After(s0, steps) == s;
    RecordsRun(s0, steps);
  }
}
