/** Pinning a successor, on the unlocking node or on a remote one, keeps the invariant. */
module HandoffPin {
  import opened LockWaitTypes
  import opened Handoff
  import opened HandoffInv
  import opened HandoffFrame
  import opened HandoffUnlock

  /** The situation in which a successor is pinned: the line behind it still names the old holder. */
  ghost predicate Pinnable(s: State, k: Key, h: Handoff) {
    && k in s.rels && k in s.locks && s.rels[k].source == h.source && h.version > 0
    && NextOk(s, k, s.rels[k], h)
    && IsWaiting(s, h.next.ts, k) && LocallyReservable(s, k, h)
    && Distinct(h.tail)
    && (forall w :: w in h.tail ==> InLineOk(s, k, w) && w.ts != h.next.ts && w in Line(s, k))
    && (forall t :: IsWaiting(s, t, k) && t != h.next.ts ==>
          Waiter(t, s.txns[t].home) in h.tail && OldEdge(s, s.waits[t], h))
    && (s.rels[k].stage.Frozen? || Outstanding(s, k, h))
  }

  /** What pinning changes: the successor's flag, the tail's edges, the messages sent. */
  ghost predicate Pins(s: State, s': State, k: Key, h: Handoff) {
    && k in s.rels && h.next.ts in s.waits && s'.waits == PinAndRelabel(s, k, h)
    && s'.txns == s.txns && s'.locks == s.locks && s'.live == s.live && s'.gone == s.gone
    && s'.delivered == s.delivered
    && s.msgs + UpdateMsgs(k, h) <= s'.msgs <= s.msgs + UpdateMsgs(k, h) + {Accepting(k, h)}
    && (forall j :: j != k ==> (j in s.rels <==> j in s'.rels) && (j in s.rels ==> s'.rels[j] == s.rels[j]))
    && (forall n, j :: j != k ==> (QId(n, j) in s.queues <==> QId(n, j) in s'.queues))
    && (forall n, j :: j != k && QId(n, j) in s.queues ==> s'.queues[QId(n, j)] == s.queues[QId(n, j)])
    && k in s'.rels && s'.rels[k].before == s.rels[k].before && s'.rels[k].skipped == s.rels[k].skipped
    && s'.rels[k].source == s.rels[k].source && s'.rels[k].node == s.rels[k].node
    && QId(h.next.node, k) in s'.queues && s'.queues[QId(h.next.node, k)] == Queue(h.next.ts, h.version, h.tail)
    && (forall n :: QId(n, k) in s'.queues && n != h.next.node ==>
          n == s.rels[k].node && QId(n, k) in s.queues && s'.queues[QId(n, k)] == s.queues[QId(n, k)])
    && (|| (s'.rels[k].stage == Updating(h) && s.rels[k].stage.Frozen? && h.next.node == s.rels[k].node
            && s'.msgs == s.msgs + UpdateMsgs(k, h))
        || (s'.rels[k].stage == s.rels[k].stage == Asking(h) && h.next.node != s.rels[k].node
            && QId(s.rels[k].node, k) in s'.queues && Accepting(k, h) in s'.msgs))
  }

  lemma PinEdges(s: State, s': State, k: Key, h: Handoff, t: Ts)
    requires Base(s) && Pinnable(s, k, h) && Pins(s, s', k, h) && t in s.waits
    ensures t in s'.waits
    ensures t == h.next.ts ==> s'.waits[t] == Pin(s.waits[t], k, h.source, h.version)
    ensures t != h.next.ts && IsWaiting(s, t, k) && s.txns[t].home == h.next.node ==>
              NewEdge(s'.waits[t], h) && IsWaiting(s', t, k)
    ensures t != h.next.ts && !(IsWaiting(s, t, k) && s.txns[t].home == h.next.node) ==> s'.waits[t] == s.waits[t]
  {
    assert LocalOk(s, t);
    OnNodeMember(h.tail, h.next.node, t);
    if t in OnNode(h.tail, h.next.node) {
      assert InLineOk(s, k, Waiter(t, h.next.node));
    }
  }

  lemma PinsKeep(s: State, s': State, k: Key, h: Handoff)
    requires Inv(s) && Pinnable(s, k, h) && Pins(s, s', k, h)
    ensures Inv(s')
  {
    PinBase(s, s', k, h);
    forall j ensures KeyInv(s', j) {
      if j != k { PinFrame(s, s', k, h, j); FrameKey(s, s', j); } else { PinKey(s, s', k, h); }
    }
  }

  lemma PinBase(s: State, s': State, k: Key, h: Handoff)
    requires Base(s) && Pinnable(s, k, h) && Pins(s, s', k, h)
    ensures Base(s')
  {
    forall t | t in s'.txns ensures LocalOk(s', t) {
      assert LocalOk(s, t);
      if t in s.waits { PinEdges(s, s', k, h, t); }
    }
  }

  lemma PinFrame(s: State, s': State, k: Key, h: Handoff, j: Key)
    requires Base(s) && Pinnable(s, k, h) && Pins(s, s', k, h) && j != k
    ensures KeyFrame(s, s', j)
  {
    forall t | t in s.txns ensures TxnFrame(s, s', t, j) {
      if t in s.waits { PinEdges(s, s', k, h, t); }
    }
    assert forall m :: m in UpdateMsgs(k, h) ==> m.key == k;
  }

  lemma PinReserved(s: State, s': State, k: Key, h: Handoff)
    requires Base(s) && Pinnable(s, k, h) && Pins(s, s', k, h)
    ensures IsReserved(s', h.next.ts, k, h.source, h.version) && Line(s', k) == h.tail && !AtOwner(s', k)
  {
    PinEdges(s, s', k, h, h.next.ts);
  }

  lemma PinKey(s: State, s': State, k: Key, h: Handoff)
    requires Base(s) && KeyInv(s, k) && Pinnable(s, k, h) && Pins(s, s', k, h)
    ensures KeyInv(s', k)
  {
    PinStructure(s, s', k, h);
    PinRel(s, s', k, h);
    forall t | IsQueued(s', t, k) ensures QueuedOk(s', t, k) { PinQueued(s, s', k, h, t); }
    forall m | m in s'.msgs && m.key == k ensures MsgOk(s', m) { PinMsg(s, s', h, m); }
  }

  lemma PinStructure(s: State, s': State, k: Key, h: Handoff)
    requires Base(s) && KeyInv(s, k) && Pinnable(s, k, h) && Pins(s, s', k, h)
    ensures LockPart(s', k) && LineOk(s', k) && QueuePart(s', k)
    ensures SeenPart(s', k) && OwnPart(s', k) && GonePart(s', k)
  {
    PinReserved(s, s', k, h);
    assert RelOk(s, k);
    forall t | t in s.waits ensures t in s'.waits { PinEdges(s, s', k, h, t); }
    forall w | w in h.tail ensures InLineOk(s', k, w) {
      assert InLineOk(s, k, w);
      if w.ts in s.waits { PinEdges(s, s', k, h, w.ts); }
    }
    forall t | t in s'.txns ensures OwnOk(s', t, k) { assert OwnOk(s, t, k); }
    forall t | HasSeen(s', t, k) ensures Snapshot(s', k, s'.txns[t].phase.lock) { assert HasSeen(s, t, k); }
    forall n | QId(n, k) in s'.queues ensures QueueOk(s', n, k) {
      if n != h.next.node { assert QueueOk(s, n, k); }
    }
    assert LockOk(s, k);
  }

  lemma PinRel(s: State, s': State, k: Key, h: Handoff)
    requires Base(s) && KeyInv(s, k) && Pinnable(s, k, h) && Pins(s, s', k, h)
    ensures RelOk(s', k)
  {
    PinReserved(s, s', k, h);
    assert RelOk(s, k);
  }

  /** No holder update of this reservation can have arrived before the reservation is made. */
  lemma PinFresh(s: State, k: Key, h: Handoff, t: Ts)
    requires Base(s) && KeyInv(s, k) && Pinnable(s, k, h) && IsWaiting(s, t, k) && t != h.next.ts
    ensures UpdateMsg(k, h, s.txns[t].home) !in s.delivered
  {
    var m := UpdateMsg(k, h, s.txns[t].home);
    OnNodeMember(h.tail, s.txns[t].home, t);
    assert m in s.msgs ==> MsgOk(s, m);
    assert m in s.msgs ==> UpdateOk(s, m, t);
    assert OldEdge(s, s.waits[t], h);
  }

  lemma PinQueued(s: State, s': State, k: Key, h: Handoff, t: Ts)
    requires Base(s) && KeyInv(s, k) && Pinnable(s, k, h) && Pins(s, s', k, h) && IsQueued(s', t, k)
    ensures QueuedOk(s', t, k)
  {
    PinReserved(s, s', k, h);
    assert t in s.waits;
    PinEdges(s, s', k, h, t);
    assert QueuedOk(s, t, k);
    if t != h.next.ts && IsWaiting(s, t, k) && s.txns[t].home != h.next.node { PinSends(s, k, h, t); }
  }

  /** The update that tells `t` of its new holder is among those sent, and has not arrived yet. */
  lemma PinSends(s: State, k: Key, h: Handoff, t: Ts)
    requires Base(s) && KeyInv(s, k) && Pinnable(s, k, h) && IsWaiting(s, t, k) && t != h.next.ts
    requires s.txns[t].home != h.next.node
    ensures UpdateMsg(k, h, s.txns[t].home) in UpdateMsgs(k, h) && UpdateMsg(k, h, s.txns[t].home) !in s.delivered
  {
    PinFresh(s, k, h, t);
    var i :| 0 <= i < |h.tail| && h.tail[i] == Waiter(t, s.txns[t].home);
    assert UpdateMsg(k, h, h.tail[i].node) in UpdateMsgs(k, h);
  }

  lemma PinApplied(s: State, s': State, k: Key, h: Handoff, version: nat, t: Ts)
    requires Base(s) && Pinnable(s, k, h) && Pins(s, s', k, h) && Applied(s, k, version, t)
    ensures Applied(s', k, version, t)
  {
    if t in s.waits {
      PinEdges(s, s', k, h, t);
      if IsWaiting(s, t, k) && t != h.next.ts { assert OldEdge(s, s.waits[t], h); }
    }
  }

  lemma PinMsg(s: State, s': State, h: Handoff, m: Msg)
    requires Base(s) && KeyInv(s, m.key) && Pinnable(s, m.key, h) && Pins(s, s', m.key, h) && m in s'.msgs
    ensures MsgOk(s', m)
  {
    if m.Reserve? { PinReserve(s, s', m.key, h, m.h); }
    else if m.Update? { PinUpdates(s, s', h, m); }
    else if m.Publish? { PinPublish(s, s', h, m); }
    else { PinReply(s, s', h, m); }
  }

  lemma PinUpdates(s: State, s': State, h: Handoff, m: Msg)
    requires m.Update?
    requires Base(s) && KeyInv(s, m.key) && Pinnable(s, m.key, h) && Pins(s, s', m.key, h) && m in s'.msgs
    ensures MsgOk(s', m)
  {
    forall t | t in m.list ensures UpdateOk(s', m, t) { PinUpdate(s, s', h, m, t); }
  }

  lemma PinReply(s: State, s': State, h: Handoff, m: Msg)
    requires m.Accepting? || m.Reply?
    requires Base(s) && KeyInv(s, m.key) && Pinnable(s, m.key, h) && Pins(s, s', m.key, h) && m in s'.msgs
    ensures MsgOk(s', m)
  {
    PinReserved(s, s', m.key, h);
    assert m in s.msgs ==> MsgOk(s, m);
    assert m.Accepting? ==> RelOk(s, m.key);
  }

  lemma PinPublish(s: State, s': State, h: Handoff, m: Msg)
    requires m.Publish?
    requires Base(s) && KeyInv(s, m.key) && Pinnable(s, m.key, h) && Pins(s, s', m.key, h) && m in s'.msgs
    ensures MsgOk(s', m)
  {
    PinReserved(s, s', m.key, h);
    assert m in s.msgs;
    assert MsgOk(s, m);
    if m.next.ts in s.waits { PinEdges(s, s', m.key, h, m.next.ts); }
  }

  lemma PinUpdate(s: State, s': State, h: Handoff, m: Msg, t: Ts)
    requires m.Update?
    requires Base(s) && KeyInv(s, m.key) && Pinnable(s, m.key, h) && Pins(s, s', m.key, h) && m in s'.msgs
    requires t in m.list
    ensures UpdateOk(s', m, t)
  {
    if m in s.msgs { PinOldUpdate(s, s', h, m, t); } else { PinNewUpdate(s, s', h, m, t); }
  }

  lemma PinOldUpdate(s: State, s': State, h: Handoff, m: Msg, t: Ts)
    requires m.Update?
    requires Base(s) && KeyInv(s, m.key) && Pinnable(s, m.key, h) && Pins(s, s', m.key, h) && m in s.msgs
    requires t in m.list
    ensures UpdateOk(s', m, t)
  {
    assert MsgOk(s, m);
    assert UpdateOk(s, m, t);
    PinApplied(s, s', m.key, h, m.version, t);
  }

  lemma PinNewUpdate(s: State, s': State, h: Handoff, m: Msg, t: Ts)
    requires m.Update?
    requires Base(s) && Pinnable(s, m.key, h) && Pins(s, s', m.key, h) && m in s'.msgs && m !in s.msgs
    requires s.delivered <= s.msgs && t in m.list
    ensures UpdateOk(s', m, t)
  {
    var k := m.key;
    PinReserved(s, s', k, h);
    var i :| 0 <= i < |h.tail| && h.tail[i].node != h.next.node && m == UpdateMsg(k, h, h.tail[i].node);
    OnNodeMember(h.tail, m.at, t);
    assert InLineOk(s, k, Waiter(t, m.at));
    if t in s.waits { PinEdges(s, s', k, h, t); }
  }

  lemma PinReserve(s: State, s': State, k: Key, h: Handoff, g: Handoff)
    requires Base(s) && KeyInv(s, k) && Pinnable(s, k, h) && Pins(s, s', k, h) && Reserve(k, g) in s.msgs
    ensures ReserveOk(s', k, g)
  {
    assert MsgOk(s, Reserve(k, g));
    assert ReserveOk(s, k, g);
    if g.next.ts == h.next.ts { PinSameReserve(s, s', k, h); } else { PinOtherReserve(s, s', k, h, g); }
  }

  lemma PinSameReserve(s: State, s': State, k: Key, h: Handoff)
    requires Base(s) && Pinnable(s, k, h) && Pins(s, s', k, h) && ReserveOk(s, k, h)
    ensures ReserveOk(s', k, h)
  {
    PinReserved(s, s', k, h);
    forall t | t in OnNode(h.tail, h.next.node) ensures Applied(s', k, h.version, t) {
      OnNodeMember(h.tail, h.next.node, t);
      if t in s.waits { PinEdges(s, s', k, h, t); }
    }
  }

  lemma PinOtherReserve(s: State, s': State, k: Key, h: Handoff, g: Handoff)
    requires Base(s) && Pinnable(s, k, h) && Pins(s, s', k, h) && ReserveOk(s, k, g) && g.next.ts != h.next.ts
    ensures ReserveOk(s', k, g)
  {
    PinReserved(s, s', k, h);
    if g.next.ts in s.waits { PinEdges(s, s', k, h, g.next.ts); }
    assert !InQueue(h.tail, g.next.ts) by { PinTail(s, k, h, g); }
    forall t | t in OnNode(g.tail, g.next.node) && Applied(s, k, g.version, t) ensures Applied(s', k, g.version, t) {
      PinApplied(s, s', k, h, g.version, t);
    }
  }

  lemma PinTail(s: State, k: Key, h: Handoff, g: Handoff)
    requires Pinnable(s, k, h) && ReserveOk(s, k, g)
    ensures !InQueue(h.tail, g.next.ts)
  {
    assert forall i :: 0 <= i < |h.tail| ==> h.tail[i] in Line(s, k);
  }

  // ----- the two places that pin -----

  predicate PinsHere(s: State, k: Key, h: Handoff) {
    Pops(s, k, h) && h.next.node == s.rels[k].node && LocallyReservable(s, k, h)
  }

  lemma PopPinKeeps(s: State, k: Key, h: Handoff)
    requires Inv(s) && PinsHere(s, k, h)
    ensures Inv(DoPop(s, k))
  {
    var s' := DoPop(s, k);
    assert KeyInv(s, k);
    PopPinnable(s, k, h);
    PopPins(s, k, h);
    PinsKeep(s, s', k, h);
  }

  lemma PopPinnable(s: State, k: Key, h: Handoff)
    requires Base(s) && KeyInv(s, k) && PinsHere(s, k, h)
    ensures Pinnable(s, k, h)
  {
    PopFacts(s, k);
    HeadFacts(s, k, h);
    HeadNext(s, k, h);
    forall t | IsWaiting(s, t, k) && t != h.next.ts
      ensures Waiter(t, s.txns[t].home) in h.tail && OldEdge(s, s.waits[t], h)
    {
      LineEdge(s, k, h, t);
    }
    assert h.next in [h.next] + h.tail;
  }

  lemma PopPins(s: State, k: Key, h: Handoff)
    requires Base(s) && KeyInv(s, k) && PinsHere(s, k, h)
    ensures Pins(s, DoPop(s, k), k, h)
  {
    PopFacts(s, k);
    HeadNext(s, k, h);
  }

  predicate PinsThere(s: State, k: Key, h: Handoff) {
    Reserve(k, h) in s.msgs && Home(s, h.next.ts, h.next.node) && h.next.ts in s.waits &&
    Reservable(s.waits[h.next.ts], k, h.source, h.version)
  }

  lemma AcceptPinnable(s: State, k: Key, h: Handoff)
    requires Base(s) && KeyInv(s, k) && PinsThere(s, k, h)
    ensures Pinnable(s, k, h) && Outstanding(s, k, h) && QId(h.next.node, k) !in s.queues
  {
    assert MsgOk(s, Reserve(k, h));
    assert LocalOk(s, h.next.ts);
    assert IsWaiting(s, h.next.ts, k);
    assert RelOk(s, k);
    assert Line(s, k) == h.tail;
    forall t | IsWaiting(s, t, k) && t != h.next.ts
      ensures Waiter(t, s.txns[t].home) in h.tail && OldEdge(s, s.waits[t], h)
    {
      assert QueuedOk(s, t, k);
    }
    forall w | w in h.tail ensures InLineOk(s, k, w) && w.ts != h.next.ts {
      assert w.ts == h.next.ts ==> InQueue(h.tail, h.next.ts);
    }
  }

  /** A RESERVE that is accepted for the first time. */
  lemma AcceptKeeps(s: State, k: Key, h: Handoff)
    requires Inv(s) && PinsThere(s, k, h)
    ensures Inv(DeliverReserve(s, k, h))
    ensures Accepting(k, h) in DeliverReserve(s, k, h).msgs
  {
    var s' := DeliverReserve(s, k, h);
    assert KeyInv(s, k);
    AcceptPinnable(s, k, h);
    AcceptPins(s, k, h);
    PinsKeep(s, s', k, h);
  }

  lemma AcceptPins(s: State, k: Key, h: Handoff)
    requires Base(s) && KeyInv(s, k) && PinsThere(s, k, h)
    ensures Pins(s, DeliverReserve(s, k, h), k, h)
  {
    AcceptPinnable(s, k, h);
    assert RelOk(s, k);
    forall n | QId(n, k) in s.queues ensures n == s.rels[k].node { assert QueueOk(s, n, k); }
    assert h.tail + [] == h.tail;
  }
}
