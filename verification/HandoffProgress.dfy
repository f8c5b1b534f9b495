/**
 No unlock hangs. In every run an unlock under way has a next step or a message
 still to arrive, each of which brings it closer to its end by a measure that no
 other step raises.
 */
module HandoffProgress {
  import opened Options
  import opened LockWaitTypes
  import opened Handoff
  import opened HandoffInv
  import opened HandoffUnlock
  import opened HandoffPin
  import opened HandoffReserve
  import opened HandoffTheorems

  // ----- a remote reservation is made by its message alone -----

  ghost predicate Heard(s: State) {
    forall k, h {:trigger Reserve(k, h)} ::
      StageIs(s, k, Asking(h)) && IsReserved(s, h.next.ts, k, h.source, h.version) ==> Reserve(k, h) in s.delivered
  }

  predicate IsWaitStep(e: Step) { e.Enroll? || e.Registration? || e.Turn? || e.Wake? || e.Victim? }

  predicate IsQuietStep(e: Step) {
    e.Freeze? || e.Updated? || e.Take? || e.Publication? || e.Accept? || e.Finish?
  }

  lemma QuietSteps(s: State, e: Step)
    requires Enabled(s, e) && IsQuietStep(e)
    ensures Apply(s, e).waits == s.waits && Apply(s, e).txns == s.txns
  {
  }

  lemma WaitSteps(s: State, e: Step, t: Ts, k: Key, source: Ts, version: nat)
    requires Inv(s) && Enabled(s, e) && IsWaitStep(e) && IsReserved(Apply(s, e), t, k, source, version)
    ensures IsReserved(s, t, k, source, version)
  {
    assert LocalOk(s, t);
  }

  lemma LookSteps(s: State, e: Step, t: Ts, k: Key, source: Ts, version: nat)
    requires Enabled(s, e) && (e.Begin? || e.LockFree? || e.Own? || e.See? || e.End? || e.Install?)
    requires IsReserved(Apply(s, e), t, k, source, version)
    ensures IsReserved(s, t, k, source, version)
  {
  }

  /** Steps that pin nobody leave every other flag and reservation alone. */
  lemma PhaseSteps(s: State, e: Step, t: Ts, k: Key, source: Ts, version: nat)
    requires Inv(s) && Enabled(s, e) && !e.Pop? && !e.Deliver?
    requires IsReserved(Apply(s, e), t, k, source, version)
    ensures IsReserved(s, t, k, source, version)
  {
    if IsQuietStep(e) { QuietSteps(s, e); }
    else if IsWaitStep(e) { WaitSteps(s, e, t, k, source, version); }
    else { LookSteps(s, e, t, k, source, version); }
  }

  lemma PinningPop(s: State, j: Key, t: Ts, k: Key, source: Ts, version: nat)
    requires Inv(s) && CanPop(s, j) && IsReserved(DoPop(s, j), t, k, source, version) && j != k
    ensures IsReserved(s, t, k, source, version)
  {
    assert KeyInv(s, j);
    if Popped(s, j).Some? {
      var h := Popped(s, j).value.0;
      if PinsHere(s, j, h) {
        PopPinnable(s, j, h);
        PopPins(s, j, h);
        if t in s.waits { PinEdges(s, DoPop(s, j), j, h, t); }
      }
    }
  }

  lemma PinningDelivery(s: State, m: Msg, t: Ts, k: Key, source: Ts, version: nat)
    requires Inv(s) && CanDeliver(s, m) && IsReserved(DoDeliver(s, m), t, k, source, version)
    ensures IsReserved(s, t, k, source, version) || (m.Reserve? && m.key == k && Outstanding(s, k, m.h))
  {
    if m.Reserve? {
      var h := m.h;
      assert KeyInv(s, m.key);
      if PinsThere(s, m.key, h) {
        AcceptPinnable(s, m.key, h);
        AcceptPins(s, m.key, h);
        if t in s.waits { PinEdges(s, DeliverReserve(s, m.key, h), m.key, h, t); }
      } else {
        RefusedReserve(s, m.key, h);
      }
    }
  }

  /** The stage of a remote reservation that is not new was there before. */
  lemma AskedBefore(s: State, e: Step, k: Key, h: Handoff)
    requires Enabled(s, e) && StageIs(Apply(s, e), k, Asking(h)) && e != Pop(k)
    ensures StageIs(s, k, Asking(h))
  {
    if !IsUnlockStep(e) { OtherStepsLeaveUnlocks(s, e); }
  }

  lemma HeardStep(s: State, e: Step, k: Key, h: Handoff)
    requires Inv(s) && Heard(s) && Enabled(s, e)
    requires StageIs(Apply(s, e), k, Asking(h)) && IsReserved(Apply(s, e), h.next.ts, k, h.source, h.version)
    ensures Reserve(k, h) in Apply(s, e).delivered
  {
    var t := h.next.ts;
    if e == Pop(k) {
      AskedIsUnreserved(s, k, h);
    } else {
      AskedBefore(s, e, k, h);
      if e.Pop? { PinningPop(s, e.k, t, k, h.source, h.version); }
      else if e.Deliver? { PinningDelivery(s, e.m, t, k, h.source, h.version); }
      else { PhaseSteps(s, e, t, k, h.source, h.version); }
      assert Reserve(k, h) in s.delivered || e == Deliver(Reserve(k, h));
      DeliveredStays(s, e, Reserve(k, h));
    }
  }

  lemma DeliveredStays(s: State, e: Step, m: Msg)
    requires Enabled(s, e)
    ensures m in s.delivered || e == Deliver(m) ==> m in Apply(s, e).delivered
  {
    if e.Deliver? && e.m.Reserve? { assert DeliverReserve(s, e.m.key, e.m.h).delivered == s.delivered; }
  }

  /** A candidate on another node is only asked by this step. */
  lemma AskedIsUnreserved(s: State, k: Key, h: Handoff)
    requires Inv(s) && CanPop(s, k) && StageIs(DoPop(s, k), k, Asking(h))
    ensures !IsReserved(DoPop(s, k), h.next.ts, k, h.source, h.version)
  {
    assert KeyInv(s, k);
    HeadFacts(s, k, h);
  }

  lemma {:induction false} HeardRun(s: State, steps: seq<Step>)
    requires Inv(s) && Heard(s) && Legal(s, steps)
    ensures Heard(After(s, steps))
    decreases |steps|
  {
    if steps == [] {
    } else {
      StepKeeps(s, steps[0]);
      HeardOne(s, steps[0]);
      HeardRun(Apply(s, steps[0]), steps[1..]);
    }
  }

  lemma HeardOne(s: State, e: Step)
    requires Inv(s) && Heard(s) && Enabled(s, e)
    ensures Heard(Apply(s, e))
  {
    var s' := Apply(s, e);
    forall k, h | StageIs(s', k, Asking(h)) && IsReserved(s', h.next.ts, k, h.source, h.version)
      ensures Reserve(k, h) in s'.delivered
    {
      HeardStep(s, e, k, h);
    }
  }

  lemma ReachableHeard(s: State)
    requires Reachable(s)
    ensures Inv(s) && Heard(s)
  {
    ReachableInv(s);
    var s0, steps :| Init(s0) && Legal(s0, steps) && After(s0, steps) == s;
    HeardRun(s0, steps);
  }

  // ----- an unlock goes on -----

  /** Every holder update of this handoff that was ever sent has arrived. */
  ghost predicate AllHeard(s: State, k: Key, h: Handoff) {
    forall m :: m in s.msgs && m.Update? && m.key == k && m.version == h.version ==> m in s.delivered
  }

  /** The candidate on another node is reserved, and its node still has to answer. */
  predicate Reserved(s: State, k: Key, h: Handoff) {
    StageIs(s, k, Asking(h)) && IsReserved(s, h.next.ts, k, h.source, h.version)
  }

  lemma UpdatesWereSent(s: State, k: Key, h: Handoff)
    requires Base(s) && KeyInv(s, k) && (Reserved(s, k, h) || StageIs(s, k, Updating(h)))
    ensures UpdateMsgs(k, h) <= s.msgs
  {
    assert RelOk(s, k);
  }

  /** Once its holder updates have arrived, the node that has made a reservation goes on at once. */
  lemma AnswerGoesOn(s: State, k: Key, h: Handoff)
    requires Reachable(s) && AllHeard(s, k, h)
    ensures Reserved(s, k, h) ==> Enabled(s, Accept(k, h))
    ensures StageIs(s, k, Updating(h)) ==> Enabled(s, Updated(k))
  {
    ReachableHeard(s);
    assert KeyInv(s, k);
    if Reserved(s, k, h) || StageIs(s, k, Updating(h)) {
      UpdatesWereSent(s, k, h);
      assert AllUpdated(s, k, h);
    }
    if Reserved(s, k, h) {
      assert RelOk(s, k) && MsgOk(s, Reserve(k, h));
    }
  }

  /** The step belongs to the unlock of `k`: one of its own steps, a fresh answer, or a message that arrives first. */
  predicate IsMove(s: State, k: Key, e: Step) {
    match e
    case Pop(j) => j == k
    case Updated(j) => j == k
    case Take(j, _) => j == k
    case Install(j) => j == k
    case Publication(j) => j == k
    case Accept(j, h) => j == k && StageIs(s, k, Asking(h)) && !Replied(s, k, h)
    case Deliver(m) => m.key == k && m !in s.delivered
    case _ => false
  }

  predicate Replied(s: State, k: Key, h: Handoff) {
    Reply(k, h, true) in s.msgs || Reply(k, h, false) in s.msgs
  }

  ghost predicate CanMove(s: State, k: Key) { exists e :: Enabled(s, e) && IsMove(s, k, e) }

  lemma AskingGoesOn(s: State, k: Key, h: Handoff)
    requires Inv(s) && StageIs(s, k, Asking(h))
    ensures CanMove(s, k)
  {
    assert KeyInv(s, k);
    assert RelOk(s, k) && MsgOk(s, Reserve(k, h));
    if Reserve(k, h) !in s.delivered {
      assert Enabled(s, Deliver(Reserve(k, h))) && IsMove(s, k, Deliver(Reserve(k, h)));
    } else if Replied(s, k, h) {
      var ok := Reply(k, h, true) in s.msgs;
      assert Enabled(s, Take(k, ok)) && IsMove(s, k, Take(k, ok));
    } else {
      assert MsgOk(s, Accepting(k, h));
      UpdatesWereSent(s, k, h);
      DistributionGoesOn(s, k, h);
    }
  }

  lemma DistributionGoesOn(s: State, k: Key, h: Handoff)
    requires UpdateMsgs(k, h) <= s.msgs
    requires StageIs(s, k, Updating(h)) || (StageIs(s, k, Asking(h)) && Accepting(k, h) in s.msgs && !Replied(s, k, h))
    ensures CanMove(s, k)
  {
    if AllUpdated(s, k, h) {
      var e := if StageIs(s, k, Updating(h)) then Updated(k) else Accept(k, h);
      assert Enabled(s, e) && IsMove(s, k, e);
    } else {
      var m :| m in UpdateMsgs(k, h) && m !in s.delivered;
      assert Enabled(s, Deliver(m)) && IsMove(s, k, Deliver(m));
    }
  }

  /** In every state of every run, an unlock under way has a step to take or a message still to arrive. */
  lemma UnlockGoesOn(s: State, k: Key)
    requires Inv(s) && k in s.rels
    ensures CanMove(s, k)
  {
    assert KeyInv(s, k);
    assert RelOk(s, k);
    match s.rels[k].stage
    case Frozen => assert Enabled(s, Pop(k)) && IsMove(s, k, Pop(k));
    case Asking(h) => AskingGoesOn(s, k, h);
    case Updating(h) =>
      UpdatesWereSent(s, k, h);
      DistributionGoesOn(s, k, h);
    case Ready(_) => assert Enabled(s, Install(k)) && IsMove(s, k, Install(k));
    case Empty => assert Enabled(s, Install(k)) && IsMove(s, k, Install(k));
    case Installed(_) => assert Enabled(s, Publication(k)) && IsMove(s, k, Publication(k));
  }
}
