/** The unlocking side of a handoff keeps the invariant. */
module HandoffUnlock {
  import opened LockWaitTypes
  import opened Handoff
  import opened HandoffInv
  import opened HandoffFrame

  // ----- freezing the queue -----

  lemma FreezeKeeps(s: State, k: Key)
    requires Inv(s) && CanFreeze(s, k)
    ensures Inv(DoFreeze(s, k))
  {
    var s' := DoFreeze(s, k);
    forall j ensures KeyInv(s', j) {
      if j != k { FrameKey(s, s', j); } else { FreezeKey(s, k); }
    }
  }

  lemma FreezeKey(s: State, k: Key)
    requires Inv(s) && CanFreeze(s, k)
    ensures KeyInv(DoFreeze(s, k), k)
  {
    var s' := DoFreeze(s, k);
    assert KeyInv(s, k);
    assert LockOk(s, k);
    assert Line(s', k) == Line(s, k) == s'.rels[k].before;
    forall t | IsQueued(s', t, k) ensures QueuedOk(s', t, k) { assert QueuedOk(s, t, k); }
    forall m | m in s'.msgs && m.key == k ensures MsgOk(s', m) { FreezeMsg(s, m); }
  }

  lemma FreezeMsg(s: State, m: Msg)
    requires Base(s) && KeyInv(s, m.key) && CanFreeze(s, m.key) && m in s.msgs
    ensures MsgOk(DoFreeze(s, m.key), m)
  {
    var s' := DoFreeze(s, m.key);
    assert MsgOk(s, m);
    assert Line(s', m.key) == Line(s, m.key);
  }

  // ----- one round of the candidate loop -----

  /** The queue the loop works on. */
  lemma PopFacts(s: State, k: Key)
    requires Base(s) && KeyInv(s, k) && CanPop(s, k)
    ensures var r := s.rels[k];
      && k in s.locks && s.locks[k].owner == r.source && s.locks[k].lockNode == r.node && AtOwner(s, k)
      && (forall n :: QId(n, k) in s.queues ==> n == r.node)
      && Line(s, k) == (if QId(r.node, k) in s.queues then s.queues[QId(r.node, k)].waiters else [])
      && r.before == r.skipped + Line(s, k)
  {
    assert RelOk(s, k);
  }

  predicate Pops(s: State, k: Key, h: Handoff) {
    CanPop(s, k) && Popped(s, k).Some? && Popped(s, k).value.0 == h
  }

  /** The head of the line becomes the candidate. */
  lemma HeadFacts(s: State, k: Key, h: Handoff)
    requires Base(s) && KeyInv(s, k) && Pops(s, k, h)
    ensures Line(s, k) == [h.next] + h.tail
    ensures InLineOk(s, k, h.next)
    ensures forall w :: w in h.tail ==> InLineOk(s, k, w) && w.ts != h.next.ts
    ensures Distinct(h.tail) && !InQueue(h.tail, h.next.ts)
  {
    PopFacts(s, k);
    var line := Line(s, k);
    assert line == [h.next] + h.tail;
    assert line[0] == h.next;
    assert forall i :: 0 <= i < |h.tail| ==> h.tail[i] == line[i + 1];
    forall w | w in h.tail ensures w in line {}
  }

  lemma HeadNext(s: State, k: Key, h: Handoff)
    requires Base(s) && KeyInv(s, k) && Pops(s, k, h)
    ensures NextOk(s, k, s.rels[k], h)
    ensures QId(s.rels[k].node, k) in s.queues
    ensures s.queues[QId(s.rels[k].node, k)].owner == h.source == s.rels[k].source
    ensures h.version == s.queues[QId(s.rels[k].node, k)].version + 1
  {
    PopFacts(s, k);
    HeadFacts(s, k, h);
    assert RelOk(s, k);
    assert QueueOk(s, s.rels[k].node, k);
    assert s.rels[k].before == s.rels[k].skipped + [h.next] + h.tail;
  }

  /** A member of the line that is still waiting carries the edge to the unlocking holder. */
  lemma LineEdge(s: State, k: Key, h: Handoff, t: Ts)
    requires Base(s) && KeyInv(s, k) && Pops(s, k, h) && IsWaiting(s, t, k)
    ensures OldEdge(s, s.waits[t], h) && Reservable(s.waits[t], k, h.source, h.version)
    ensures Waiter(t, s.txns[t].home) in [h.next] + h.tail
  {
    PopFacts(s, k);
    HeadNext(s, k, h);
    HeadFacts(s, k, h);
    assert QueuedOk(s, t, k);
    assert LockOk(s, k);
    assert LocalOk(s, t);
  }

  lemma PopNoneKeeps(s: State, k: Key)
    requires Inv(s) && CanPop(s, k) && Popped(s, k).None?
    ensures Inv(DoPop(s, k))
  {
    var s' := DoPop(s, k);
    forall j ensures KeyInv(s', j) {
      if j != k { FrameKey(s, s', j); } else { PopNoneKey(s, k); }
    }
  }

  lemma PopNoneKey(s: State, k: Key)
    requires Base(s) && KeyInv(s, k) && CanPop(s, k) && Popped(s, k).None?
    ensures KeyInv(DoPop(s, k), k)
  {
    var s' := DoPop(s, k);
    PopFacts(s, k);
    assert RelOk(s, k);
    assert Line(s, k) == [] == Line(s', k);
    assert forall t :: IsQueued(s, t, k) ==> QueuedOk(s, t, k);
    forall m | m in s'.msgs && m.key == k ensures MsgOk(s', m) { PopNoneMsg(s, m); }
  }

  lemma PopNoneMsg(s: State, m: Msg)
    requires Base(s) && KeyInv(s, m.key) && CanPop(s, m.key) && Popped(s, m.key).None? && m in s.msgs
    ensures MsgOk(DoPop(s, m.key), m)
  {
    var s' := DoPop(s, m.key);
    PopFacts(s, m.key);
    assert MsgOk(s, m);
    assert Line(s', m.key) == Line(s, m.key);
  }

  // ----- a candidate on this node that no longer waits is skipped -----

  predicate Skips(s: State, k: Key, h: Handoff) {
    Pops(s, k, h) && h.next.node == s.rels[k].node && !LocallyReservable(s, k, h)
  }

  lemma PopSkipKeeps(s: State, k: Key, h: Handoff)
    requires Inv(s) && Skips(s, k, h)
    ensures Inv(DoPop(s, k))
  {
    var s' := DoPop(s, k);
    forall j ensures KeyInv(s', j) {
      if j != k { FrameKey(s, s', j); } else { PopSkipKey(s, k, h); }
    }
  }

  lemma PopSkipLine(s: State, k: Key, h: Handoff)
    requires Base(s) && KeyInv(s, k) && Skips(s, k, h)
    ensures Line(DoPop(s, k), k) == h.tail && IsEnding(s, h.next.ts)
  {
    PopFacts(s, k);
    HeadFacts(s, k, h);
    if IsWaiting(s, h.next.ts, k) { LineEdge(s, k, h, h.next.ts); }
  }

  lemma PopSkipKey(s: State, k: Key, h: Handoff)
    requires Base(s) && KeyInv(s, k) && Skips(s, k, h)
    ensures KeyInv(DoPop(s, k), k)
  {
    var s' := DoPop(s, k);
    PopFacts(s, k);
    HeadFacts(s, k, h);
    HeadNext(s, k, h);
    PopSkipLine(s, k, h);
    assert RelOk(s, k);
    assert s'.rels[k].before == s'.rels[k].skipped + h.tail;
    forall t | IsQueued(s', t, k) ensures QueuedOk(s', t, k) { assert QueuedOk(s, t, k); }
    forall m | m in s'.msgs && m.key == k ensures MsgOk(s', m) { PopSkipMsg(s, m, h); }
  }

  lemma PopSkipMsg(s: State, m: Msg, h: Handoff)
    requires Base(s) && KeyInv(s, m.key) && Skips(s, m.key, h) && m in s.msgs
    ensures MsgOk(DoPop(s, m.key), m)
  {
    PopFacts(s, m.key);
    HeadFacts(s, m.key, h);
    PopSkipLine(s, m.key, h);
    assert MsgOk(s, m);
    if m.Reserve? { InQueueCons(h.next, h.tail, m.h.next.ts); }
  }

  lemma InQueueCons(w: Waiter, line: seq<Waiter>, ts: Ts)
    ensures InQueue([w] + line, ts) <==> InQueue(line, ts) || ts == w.ts
  {
    if InQueue(line, ts) {
      var i :| 0 <= i < |line| && line[i].ts == ts;
      assert ([w] + line)[i + 1].ts == ts;
    } else if ts == w.ts {
      assert ([w] + line)[0].ts == ts;
    }
  }

  // ----- a candidate on another node is asked -----

  predicate Asks(s: State, k: Key, h: Handoff) {
    Pops(s, k, h) && h.next.node != s.rels[k].node
  }

  lemma PopAskKeeps(s: State, k: Key, h: Handoff)
    requires Inv(s) && Asks(s, k, h)
    ensures Inv(DoPop(s, k))
  {
    var s' := DoPop(s, k);
    forall j ensures KeyInv(s', j) {
      if j != k { FrameKey(s, s', j); } else { PopAskKey(s, k, h); }
    }
  }

  lemma PopAskKey(s: State, k: Key, h: Handoff)
    requires Base(s) && KeyInv(s, k) && Asks(s, k, h)
    ensures KeyInv(DoPop(s, k), k)
  {
    var s' := DoPop(s, k);
    PopFacts(s, k);
    HeadFacts(s, k, h);
    HeadNext(s, k, h);
    assert RelOk(s, k);
    assert Line(s', k) == h.tail;
    forall t | IsQueued(s', t, k) ensures QueuedOk(s', t, k) { PopAskQueued(s, k, h, t); }
    forall m | m in s'.msgs && m.key == k ensures MsgOk(s', m) { PopAskMsg(s, m, h); }
  }

  lemma PopAskQueued(s: State, k: Key, h: Handoff, t: Ts)
    requires Base(s) && KeyInv(s, k) && Asks(s, k, h) && IsQueued(s, t, k)
    ensures QueuedOk(DoPop(s, k), t, k)
  {
    var s' := DoPop(s, k);
    PopFacts(s, k);
    HeadFacts(s, k, h);
    assert QueuedOk(s, t, k);
    assert Line(s', k) == h.tail;
    if IsWaiting(s, t, k) { LineEdge(s, k, h, t); }
  }

  lemma PopAskOldMsg(s: State, m: Msg, h: Handoff)
    requires Base(s) && KeyInv(s, m.key) && Asks(s, m.key, h) && m in s.msgs && Reserve(m.key, h) !in s.msgs
    ensures MsgOk(DoPop(s, m.key), m)
  {
    PopFacts(s, m.key);
    HeadFacts(s, m.key, h);
    assert Line(DoPop(s, m.key), m.key) == h.tail;
    assert MsgOk(s, m);
    if m.Reserve? { InQueueCons(h.next, h.tail, m.h.next.ts); }
  }

  lemma PopAskMsg(s: State, m: Msg, h: Handoff)
    requires Base(s) && KeyInv(s, m.key) && Asks(s, m.key, h) && m in DoPop(s, m.key).msgs
    ensures MsgOk(DoPop(s, m.key), m)
  {
    var k := m.key;
    var s' := DoPop(s, k);
    PopFacts(s, k);
    HeadFacts(s, k, h);
    assert Line(s', k) == h.tail;
    InQueueCons(h.next, h.tail, h.next.ts);
    assert Reserve(k, h) !in s.msgs by { assert Reserve(k, h) in s.msgs ==> MsgOk(s, Reserve(k, h)); }
    if m in s.msgs {
      PopAskOldMsg(s, m, h);
    } else {
      forall ts | ts in OnNode(h.tail, h.next.node)
        ensures Home(s, ts, h.next.node) && k in s.txns[ts].queuedOn
      {
        OnNodeMember(h.tail, h.next.node, ts);
        assert InLineOk(s, k, Waiter(ts, h.next.node));
      }
    }
  }
}
