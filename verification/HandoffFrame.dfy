/** What a step leaves alone: the invariant of a key survives whatever happens to other keys. */
module HandoffFrame {
  import opened LockWaitTypes
  import opened Handoff
  import opened HandoffInv

  /** As far as key `k` is concerned, transaction `t` looks the same. */
  predicate TxnFrame(s: State, s': State, t: Ts, k: Key) {
    && (t in s.txns ==>
          && t in s'.txns && s'.txns[t].home == s.txns[t].home
          && (k in s'.txns[t].held <==> k in s.txns[t].held)
          && (k in s'.txns[t].queuedOn <==> k in s.txns[t].queuedOn)
          && (IsQueued(s', t, k) <==> IsQueued(s, t, k))
          && (IsQueued(s, t, k) ==> s'.waits[t] == s.waits[t])
          && (IsEnding(s, t) ==> IsEnding(s', t))
          && (s.txns[t].phase == Retry(k) ==> s'.txns[t].phase == Retry(k) || (k in s.locks && s.locks[k].owner != t))
          && (HasSeen(s', t, k) ==>
                || (HasSeen(s, t, k) && s'.txns[t].phase.lock == s.txns[t].phase.lock)
                || (k in s.locks && s'.txns[t].phase.lock == s.locks[k])))
    && (t !in s.txns && t in s'.txns ==>
          s'.txns[t].held == {} && s'.txns[t].queuedOn == {} && s'.txns[t].phase == Running)
  }

  ghost predicate KeyFrame(s: State, s': State, k: Key) {
    && (k in s.locks <==> k in s'.locks) && (k in s.locks ==> s'.locks[k] == s.locks[k])
    && (k in s.rels <==> k in s'.rels) && (k in s.rels ==> s'.rels[k] == s.rels[k])
    && (forall n :: QId(n, k) in s.queues <==> QId(n, k) in s'.queues)
    && (forall n :: QId(n, k) in s.queues ==> s'.queues[QId(n, k)] == s.queues[QId(n, k)])
    && (forall t :: t in s.txns || t in s'.txns ==> TxnFrame(s, s', t, k))
    && (forall m: Msg :: m.key == k ==> (m in s.msgs <==> m in s'.msgs))
    && (forall m: Msg :: m.key == k ==> (m in s.delivered <==> m in s'.delivered))
    && (forall l :: l in s.live ==> l in s'.live || Retired(s, k, l))
    && (forall l :: l in s'.live && IsEnding(s, l.ts) ==> l in s.live)
    && (forall n, t :: Gone(n, t, k) in s'.gone ==>
          Gone(n, t, k) in s.gone && (Live(n, t) in s.live ==> Live(n, t) in s'.live))
    && (forall n, t :: Gone(n, t, k) in s.gone ==> Gone(n, t, k) in s'.gone || Forgotten(s, s', n, t, k))
  }

  /** An activity entry that FinishTx may drop: nothing about `k` hangs on it. */
  predicate Retired(s: State, k: Key, l: Live) {
    IsEnding(s, l.ts) && (k in s.locks ==> Live(s.locks[k].lockNode, s.locks[k].owner) != l)
  }

  /** A released mark that FinishTx may drop together with the activity entry. */
  predicate Forgotten(s: State, s': State, n: Node, t: Ts, k: Key) {
    && Live(n, t) !in s'.live
    && (k in s.rels && !s.rels[k].stage.Installed? ==> !(s.rels[k].source == t && s.rels[k].node == n))
  }

  lemma FrameLine(s: State, s': State, k: Key)
    requires KeyFrame(s, s', k)
    ensures Line(s', k) == Line(s, k) && (AtOwner(s', k) <==> AtOwner(s, k))
  {}

  lemma FrameStructure(s: State, s': State, k: Key)
    requires KeyFrame(s, s', k) && KeyInv(s, k)
    ensures LockPart(s', k) && QueuePart(s', k) && GonePart(s', k) && OwnPart(s', k) && LineOk(s', k)
  {
    FrameLine(s, s', k);
  }

  lemma FrameSeen(s: State, s': State, k: Key)
    requires KeyFrame(s, s', k) && KeyInv(s, k)
    ensures SeenPart(s', k)
  {
    forall t | HasSeen(s', t, k)
      ensures Snapshot(s', k, s'.txns[t].phase.lock)
    {
      assert t in s.txns;
      var l := s'.txns[t].phase.lock;
      assert Snapshot(s, k, l) by { if HasSeen(s, t, k) && l == s.txns[t].phase.lock {} else { assert LockOk(s, k); } }
      assert TxnFrame(s, s', l.owner, k);
    }
  }

  lemma FrameReserved(s: State, s': State, t: Ts, k: Key, source: Ts, version: nat)
    requires KeyFrame(s, s', k)
    ensures t in s.txns ==> (IsReserved(s', t, k, source, version) <==> IsReserved(s, t, k, source, version))
    ensures t in s.txns ==> (IsWaiting(s', t, k) <==> IsWaiting(s, t, k))
  {}

  lemma FrameQueued(s: State, s': State, t: Ts, k: Key)
    requires KeyFrame(s, s', k) && Base(s) && KeyInv(s, k) && IsQueued(s', t, k)
    ensures QueuedOk(s', t, k)
  {
    FrameLine(s, s', k);
    assert t in s.txns;
    assert IsQueued(s, t, k);
    assert QueuedOk(s, t, k);
    if k in s.rels && s.rels[k].stage.Asking? {
      var h := s.rels[k].stage.h;
      FrameReserved(s, s', h.next.ts, k, h.source, h.version);
      assert RelOk(s, k);
    }
  }

  lemma FrameRel(s: State, s': State, k: Key)
    requires KeyFrame(s, s', k) && KeyInv(s, k) && k in s'.rels
    ensures RelOk(s', k)
  {
    FrameLine(s, s', k);
    var r := s.rels[k];
    assert RelOk(s, k);
    if NextOf(r.stage).Some? {
      var h := NextOf(r.stage).value;
      FrameReserved(s, s', h.next.ts, k, h.source, h.version);
      FrameUpdates(s, s', k, h);
    }
  }

  lemma FrameUpdates(s: State, s': State, k: Key, h: Handoff)
    requires KeyFrame(s, s', k)
    ensures UpdateMsgs(k, h) <= s.msgs <==> UpdateMsgs(k, h) <= s'.msgs
    ensures AllUpdated(s, k, h) <==> AllUpdated(s', k, h)
  {
    assert forall m :: m in UpdateMsgs(k, h) ==> m.key == k;
  }

  lemma FrameMsg(s: State, s': State, m: Msg)
    requires KeyFrame(s, s', m.key) && KeyInv(s, m.key) && m in s'.msgs
    ensures MsgOk(s', m)
  {
    var k := m.key;
    FrameLine(s, s', k);
    assert m in s.msgs;
    assert MsgOk(s, m);
    match m
    case Reserve(_, h) => FrameReserve(s, s', k, h);
    case Accepting(_, h) =>
      if Outstanding(s', k, h) {
        assert RelOk(s, k);
        FrameReserved(s, s', h.next.ts, k, h.source, h.version);
      }
    case Reply(_, h, ok) =>
      if Outstanding(s', k, h) {
        assert RelOk(s, k);
        FrameReserved(s, s', h.next.ts, k, h.source, h.version);
        FrameUpdates(s, s', k, h);
      }
    case Publish(_, _, next, _) => assert TxnFrame(s, s', next.ts, k);
    case Update(_, _, _, _, list) =>
      forall ts | ts in list ensures UpdateOk(s', m, ts) { FrameUpdate(s, s', m, ts); }
  }

  lemma FrameUpdate(s: State, s': State, m: Msg, ts: Ts)
    requires m.Update? && KeyFrame(s, s', m.key) && KeyInv(s, m.key) && m in s'.msgs && UpdateOk(s, m, ts)
    ensures UpdateOk(s', m, ts)
  {
    var k := m.key;
    FrameLine(s, s', k);
    assert TxnFrame(s, s', ts, k);
    if Distributing(s, k, m.version, m.holder) {
      var h := s.rels[k].stage.h;
      assert RelOk(s, k);
      FrameReserved(s, s', h.next.ts, k, h.source, h.version);
    }
  }

  lemma FrameReserve(s: State, s': State, k: Key, h: Handoff)
    requires KeyFrame(s, s', k) && KeyInv(s, k) && ReserveOk(s, k, h)
    ensures ReserveOk(s', k, h)
  {
    FrameLine(s, s', k);
    FrameReserved(s, s', h.next.ts, k, h.source, h.version);
    FrameUpdates(s, s', k, h);
    assert TxnFrame(s, s', h.next.ts, k);
    if Outstanding(s, k, h) { assert RelOk(s, k); }
    forall ts | ts in OnNode(h.tail, h.next.node) && Applied(s, k, h.version, ts)
      ensures Applied(s', k, h.version, ts)
    {
    }
  }

  lemma FrameKey(s: State, s': State, k: Key)
    requires KeyFrame(s, s', k) && Base(s) && KeyInv(s, k)
    ensures KeyInv(s', k)
  {
    FrameStructure(s, s', k);
    FrameSeen(s, s', k);
    forall t | IsQueued(s', t, k) ensures QueuedOk(s', t, k) { FrameQueued(s, s', t, k); }
    if k in s'.rels { FrameRel(s, s', k); }
    forall m | m in s'.msgs && m.key == k ensures MsgOk(s', m) { FrameMsg(s, s', m); }
  }
}
