/** The steps of a transaction keep the invariant. */
module HandoffTxnSteps {
  import opened LockWaitTypes
  import opened Handoff
  import opened HandoffInv
  import opened HandoffFrame

  lemma BeginKeeps(s: State, t: Ts, n: Node)
    requires Inv(s) && CanBegin(s, t)
    ensures Inv(DoBegin(s, t, n))
  {
    var s' := DoBegin(s, t, n);
    forall j ensures KeyInv(s', j) { FrameKey(s, s', j); }
  }

  lemma EndKeeps(s: State, t: Ts)
    requires Inv(s) && CanEnd(s, t)
    ensures Inv(DoEnd(s, t))
  {
    var s' := DoEnd(s, t);
    forall j ensures KeyInv(s', j) { FrameKey(s, s', j); }
  }

  lemma EnrollKeeps(s: State, t: Ts)
    requires Inv(s) && CanEnroll(s, t)
    ensures Inv(DoEnroll(s, t))
  {
    var s' := DoEnroll(s, t);
    forall j ensures KeyInv(s', j) { FrameKey(s, s', j); }
  }

  lemma TurnKeeps(s: State, t: Ts)
    requires Inv(s) && CanTurn(s, t)
    ensures Inv(DoTurn(s, t))
  {
    var s' := DoTurn(s, t);
    forall j ensures KeyInv(s', j) { FrameKey(s, s', j); }
  }

  lemma FinishKeeps(s: State, t: Ts, n: Node)
    requires Inv(s) && CanFinish(s, t, n)
    ensures Inv(DoFinish(s, t, n))
  {
    var s' := DoFinish(s, t, n);
    forall j ensures KeyInv(s', j) {
      assert KeyInv(s, j);
      FrameKey(s, s', j);
    }
  }

  lemma SeeKeeps(s: State, t: Ts, k: Key)
    requires Inv(s) && CanSee(s, t, k)
    ensures Inv(DoSee(s, t, k))
  {
    var s' := DoSee(s, t, k);
    assert KeyInv(s, k);
    assert OwnOk(s, t, k);
    forall j ensures KeyInv(s', j) { FrameKey(s, s', j); }
  }

  // ----- a transaction takes a tuple -----

  lemma LockKeeps(s: State, t: Ts, k: Key, n: Node)
    requires Inv(s) && CanLock(s, t, k)
    ensures Inv(DoLock(s, t, k, n))
  {
    var s' := DoLock(s, t, k, n);
    forall j ensures KeyInv(s', j) {
      if j != k { FrameKey(s, s', j); } else { LockKey(s, t, k, n); }
    }
  }

  lemma LockKey(s: State, t: Ts, k: Key, n: Node)
    requires Base(s) && KeyInv(s, k) && CanLock(s, t, k)
    ensures KeyInv(DoLock(s, t, k, n), k)
  {
    LockKeyParts(s, t, k, n);
    LockKeyMsgs(s, t, k, n);
  }

  lemma LockKeyMsgs(s: State, t: Ts, k: Key, n: Node)
    requires Base(s) && KeyInv(s, k) && CanLock(s, t, k)
    ensures MsgPart(DoLock(s, t, k, n), k)
  {
    var s' := DoLock(s, t, k, n);
    assert Line(s', k) == Line(s, k);
    forall m | m in s'.msgs && m.key == k ensures MsgOk(s', m) { assert MsgOk(s, m); }
  }

  lemma LockKeyParts(s: State, t: Ts, k: Key, n: Node)
    requires Base(s) && KeyInv(s, k) && CanLock(s, t, k)
    ensures var s' := DoLock(s, t, k, n);
      LockPart(s', k) && LineOk(s', k) && RelPart(s', k) && QueuePart(s', k) && WaitPart(s', k)
      && SeenPart(s', k) && OwnPart(s', k) && GonePart(s', k)
  {
    var s' := DoLock(s, t, k, n);
    assert KeyInv(s, k);
    assert OwnOk(s, t, k);
    assert forall m :: QId(m, k) !in s.queues;
    assert Line(s', k) == [];
  }

  lemma OwnKeeps(s: State, t: Ts, k: Key)
    requires Inv(s) && CanOwn(s, t, k)
    ensures Inv(DoOwn(s, t, k))
  {
    var s' := DoOwn(s, t, k);
    forall j ensures KeyInv(s', j) {
      if j != k { FrameKey(s, s', j); } else { OwnKey(s, t, k); }
    }
  }

  lemma OwnKey(s: State, t: Ts, k: Key)
    requires Inv(s) && CanOwn(s, t, k)
    ensures KeyInv(DoOwn(s, t, k), k)
  {
    OwnKeyParts(s, t, k);
    OwnKeyMsgs(s, t, k);
  }

  lemma OwnKeyParts(s: State, t: Ts, k: Key)
    requires Base(s) && KeyInv(s, k) && CanOwn(s, t, k)
    ensures var s' := DoOwn(s, t, k);
      LockPart(s', k) && LineOk(s', k) && RelPart(s', k) && QueuePart(s', k) && WaitPart(s', k)
      && SeenPart(s', k) && OwnPart(s', k) && GonePart(s', k)
  {
    var s' := DoOwn(s, t, k);
    assert KeyInv(s, k);
    assert OwnOk(s, t, k);
    assert Line(s', k) == Line(s, k);
  }

  lemma OwnKeyMsgs(s: State, t: Ts, k: Key)
    requires Base(s) && KeyInv(s, k) && CanOwn(s, t, k)
    ensures MsgPart(DoOwn(s, t, k), k)
  {
    var s' := DoOwn(s, t, k);
    assert KeyInv(s, k);
    assert Line(s', k) == Line(s, k);
    forall m | m in s'.msgs && m.key == k ensures MsgOk(s', m) { assert MsgOk(s, m); }
  }

  lemma WakeKeeps(s: State, t: Ts)
    requires Inv(s) && CanWake(s, t)
    ensures Inv(DoWake(s, t))
  {
    var s' := DoWake(s, t);
    var k := s.txns[t].phase.key;
    forall j ensures KeyInv(s', j) {
      if j != k { FrameKey(s, s', j); } else { WakeKey(s, t, k); }
    }
  }

  lemma WakeKey(s: State, t: Ts, k: Key)
    requires Inv(s) && CanWake(s, t) && s.txns[t].phase.key == k
    ensures KeyInv(DoWake(s, t), k)
  {
    WakeKeyParts(s, t, k);
    WakeKeyMsgs(s, t, k);
  }

  lemma WakeKeyParts(s: State, t: Ts, k: Key)
    requires Base(s) && KeyInv(s, k) && CanWake(s, t) && s.txns[t].phase.key == k
    ensures var s' := DoWake(s, t);
      LockPart(s', k) && LineOk(s', k) && RelPart(s', k) && QueuePart(s', k) && WaitPart(s', k)
      && SeenPart(s', k) && OwnPart(s', k) && GonePart(s', k)
  {
    var s' := DoWake(s, t);
    assert KeyInv(s, k);
    assert OwnOk(s, t, k);
    assert QueuedOk(s, t, k);
    assert Line(s', k) == Line(s, k);
  }

  lemma WakeKeyMsgs(s: State, t: Ts, k: Key)
    requires Base(s) && KeyInv(s, k) && CanWake(s, t) && s.txns[t].phase.key == k
    ensures MsgPart(DoWake(s, t), k)
  {
    var s' := DoWake(s, t);
    assert KeyInv(s, k);
    assert QueuedOk(s, t, k);
    assert Line(s', k) == Line(s, k);
    forall m | m in s'.msgs && m.key == k ensures MsgOk(s', m) { assert MsgOk(s, m); }
  }

  lemma VictimKeeps(s: State, t: Ts)
    requires Inv(s) && CanVictim(s, t)
    ensures Inv(DoVictim(s, t))
  {
    var s' := DoVictim(s, t);
    var k := s.txns[t].phase.key;
    forall j ensures KeyInv(s', j) {
      if j != k { FrameKey(s, s', j); } else { VictimKey(s, t, k); }
    }
  }

  lemma VictimKey(s: State, t: Ts, k: Key)
    requires Base(s) && KeyInv(s, k) && CanVictim(s, t) && s.txns[t].phase.key == k
    ensures KeyInv(DoVictim(s, t), k)
  {
    VictimKeyParts(s, t, k);
    VictimKeyMsgs(s, t, k);
  }

  lemma VictimKeyParts(s: State, t: Ts, k: Key)
    requires Base(s) && KeyInv(s, k) && CanVictim(s, t) && s.txns[t].phase.key == k
    ensures var s' := DoVictim(s, t);
      LockPart(s', k) && LineOk(s', k) && RelPart(s', k) && QueuePart(s', k) && WaitPart(s', k)
      && SeenPart(s', k) && OwnPart(s', k) && GonePart(s', k)
  {
    var s' := DoVictim(s, t);
    assert KeyInv(s, k);
    assert Line(s', k) == Line(s, k);
    forall u | IsQueued(s', u, k) ensures QueuedOk(s', u, k) { VictimQueued(s, t, k, u); }
    VictimRel(s, t, k);
    VictimStructure(s, t, k);
  }

  lemma VictimStructure(s: State, t: Ts, k: Key)
    requires Base(s) && KeyInv(s, k) && CanVictim(s, t) && s.txns[t].phase.key == k
    ensures var s' := DoVictim(s, t);
      LockPart(s', k) && LineOk(s', k) && QueuePart(s', k) && SeenPart(s', k) && OwnPart(s', k) && GonePart(s', k)
  {
    var s' := DoVictim(s, t);
    assert KeyInv(s, k);
    assert QueuedOk(s, t, k);
    assert Line(s', k) == Line(s, k);
  }

  lemma VictimRel(s: State, t: Ts, k: Key)
    requires Base(s) && KeyInv(s, k) && CanVictim(s, t) && s.txns[t].phase.key == k
    ensures RelPart(DoVictim(s, t), k)
  {
    var s' := DoVictim(s, t);
    assert KeyInv(s, k);
    assert Line(s', k) == Line(s, k);
    if k in s.rels { assert RelOk(s, k); }
  }

  lemma VictimQueued(s: State, t: Ts, k: Key, u: Ts)
    requires Base(s) && KeyInv(s, k) && CanVictim(s, t) && s.txns[t].phase.key == k && IsQueued(DoVictim(s, t), u, k)
    ensures QueuedOk(DoVictim(s, t), u, k)
  {
    var s' := DoVictim(s, t);
    assert KeyInv(s, k);
    assert QueuedOk(s, u, k);
    assert Line(s', k) == Line(s, k);
    if k in s.rels && NextOf(s.rels[k].stage).Some? {
      var h := NextOf(s.rels[k].stage).value;
      assert IsReserved(s, h.next.ts, k, h.source, h.version) <==> IsReserved(s', h.next.ts, k, h.source, h.version);
    }
  }

  lemma VictimKeyMsgs(s: State, t: Ts, k: Key)
    requires Base(s) && KeyInv(s, k) && CanVictim(s, t) && s.txns[t].phase.key == k
    ensures MsgPart(DoVictim(s, t), k)
  {
    var s' := DoVictim(s, t);
    assert KeyInv(s, k);
    forall m | m in s'.msgs && m.key == k ensures MsgOk(s', m) {
      assert MsgOk(s, m);
      if m.Update? {
        forall u | u in m.list ensures UpdateOk(s', m, u) { VictimUpdate(s, t, m, u); }
      } else {
        VictimMsg(s, t, m);
      }
    }
  }

  lemma VictimUpdate(s: State, t: Ts, m: Msg, u: Ts)
    requires CanVictim(s, t) && m.Update? && s.txns[t].phase.key == m.key && UpdateOk(s, m, u)
    ensures UpdateOk(DoVictim(s, t), m, u)
  {
    var s' := DoVictim(s, t);
    assert Line(s', m.key) == Line(s, m.key);
  }

  lemma VictimReserve(s: State, t: Ts, k: Key, h: Handoff)
    requires Base(s) && KeyInv(s, k) && CanVictim(s, t) && s.txns[t].phase.key == k && Reserve(k, h) in s.msgs
    ensures ReserveOk(DoVictim(s, t), k, h)
  {
    assert MsgOk(s, Reserve(k, h));
    assert QueuedOk(s, t, k);
    assert Line(DoVictim(s, t), k) == Line(s, k);
  }

  lemma VictimMsg(s: State, t: Ts, m: Msg)
    requires Base(s) && KeyInv(s, m.key) && CanVictim(s, t) && s.txns[t].phase.key == m.key && m in s.msgs && !m.Update?
    ensures MsgOk(DoVictim(s, t), m)
  {
    if m.Reserve? {
      VictimReserve(s, t, m.key, m.h);
    } else {
      assert MsgOk(s, m);
      assert Line(DoVictim(s, t), m.key) == Line(s, m.key);
      if m.Publish? { assert QueuedOk(s, t, m.key); }
    }
  }
}
