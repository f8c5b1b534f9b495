/** Registration keeps the invariant: only the current holder's line ever grows. */
module HandoffRegister {
  import opened Options
  import opened LockWaitTypes
  import opened Handoff
  import opened HandoffInv
  import opened HandoffFrame

  /** A waiter is queued only behind the holder that still owns the tuple and has not begun to unlock. */
  lemma RegisterFacts(s: State, t: Ts)
    requires Base(s) && CanRegister(s, t) && !RegisterAnswer(s, t).1 && KeyInv(s, s.txns[t].phase.key)
    ensures var x := s.txns[t];
      var k := x.phase.key;
      && k in s.locks && s.locks[k] == x.phase.lock && AtOwner(s, k)
      && (k in s.rels ==> s.rels[k].stage.Installed?)
      && !InQueue(Line(s, k), t) && x.phase.lock.owner != t
      && RegisterAnswer(s, t).0 ==
           Some(match QueueAt(s, x.phase.lock.lockNode, k)
                case None => Queue(x.phase.lock.owner, 0, [Waiter(t, x.home)])
                case Some(q) => q.(waiters := q.waiters + [Waiter(t, x.home)]))
  {
    var x := s.txns[t];
    var k := x.phase.key;
    assert KeyInv(s, k);
    assert HasSeen(s, t, k);
    assert Snapshot(s, k, x.phase.lock);
    assert LockOk(s, k);
    if k in s.rels { assert RelOk(s, k); }
    assert forall i :: 0 <= i < |Line(s, k)| ==> InLineOk(s, k, Line(s, k)[i]);
  }

  lemma RegisterKeeps(s: State, t: Ts)
    requires Inv(s) && CanRegister(s, t)
    ensures Inv(DoRegister(s, t))
  {
    if RegisterAnswer(s, t).1 { TurnedAwayKeeps(s, t); } else { EnqueueKeeps(s, t); }
  }

  lemma TurnedAwayKeeps(s: State, t: Ts)
    requires Inv(s) && CanRegister(s, t) && RegisterAnswer(s, t).1
    ensures Inv(DoRegister(s, t))
  {
    forall j ensures KeyInv(DoRegister(s, t), j) { FrameKey(s, DoRegister(s, t), j); }
  }

  lemma EnqueueKeeps(s: State, t: Ts)
    requires Inv(s) && CanRegister(s, t) && !RegisterAnswer(s, t).1
    ensures Inv(DoRegister(s, t))
  {
    var k := s.txns[t].phase.key;
    assert KeyInv(s, k);
    RegisterFacts(s, t);
    RegisterBase(s, t);
    forall j ensures KeyInv(DoRegister(s, t), j) {
      if j != k { FrameKey(s, DoRegister(s, t), j); } else { RegisterKey(s, t, k); }
    }
  }

  predicate Enqueues(s: State, t: Ts, k: Key) {
    CanRegister(s, t) && !RegisterAnswer(s, t).1 && s.txns[t].phase.key == k
  }

  lemma RegisterBase(s: State, t: Ts)
    requires Base(s) && CanRegister(s, t) && !RegisterAnswer(s, t).1
    ensures Base(DoRegister(s, t))
  {}

  lemma RegisterLine(s: State, t: Ts, k: Key)
    requires Base(s) && KeyInv(s, k) && Enqueues(s, t, k)
    ensures Line(DoRegister(s, t), k) == Line(s, k) + [Waiter(t, s.txns[t].home)]
    ensures AtOwner(DoRegister(s, t), k)
  {
    RegisterFacts(s, t);
  }

  lemma RegisterKey(s: State, t: Ts, k: Key)
    requires Base(s) && KeyInv(s, k) && Enqueues(s, t, k)
    ensures KeyInv(DoRegister(s, t), k)
  {
    var s' := DoRegister(s, t);
    RegisterFacts(s, t);
    RegisterStructure(s, t, k);
    RegisterRel(s, t, k);
    forall u | IsQueued(s', u, k) ensures QueuedOk(s', u, k) { RegisterQueued(s, t, k, u); }
    forall m | m in s'.msgs && m.key == k ensures MsgOk(s', m) { RegisterMsg(s, t, m); }
  }

  lemma RegisterStructure(s: State, t: Ts, k: Key)
    requires Base(s) && KeyInv(s, k) && Enqueues(s, t, k)
    ensures var s' := DoRegister(s, t);
      LockPart(s', k) && LineOk(s', k) && QueuePart(s', k) && SeenPart(s', k) && OwnPart(s', k) && GonePart(s', k)
  {
    var s' := DoRegister(s, t);
    RegisterFacts(s, t);
    RegisterLine(s, t, k);
    assert KeyInv(s, k);
    assert OwnOk(s, t, k);
    forall w | w in Line(s', k) ensures InLineOk(s', k, w) {
      if w in Line(s, k) { assert InLineOk(s, k, w); }
    }
  }

  lemma RegisterRel(s: State, t: Ts, k: Key)
    requires Base(s) && KeyInv(s, k) && Enqueues(s, t, k)
    ensures RelPart(DoRegister(s, t), k)
  {
    RegisterFacts(s, t);
    RegisterLine(s, t, k);
    assert KeyInv(s, k);
    if k in s.rels { assert RelOk(s, k); }
  }

  lemma RegisterQueued(s: State, t: Ts, k: Key, u: Ts)
    requires Base(s) && KeyInv(s, k) && Enqueues(s, t, k) && IsQueued(DoRegister(s, t), u, k)
    ensures QueuedOk(DoRegister(s, t), u, k)
  {
    RegisterFacts(s, t);
    RegisterLine(s, t, k);
    assert KeyInv(s, k);
    if u != t { assert QueuedOk(s, u, k); }
  }

  lemma InQueueAppend(line: seq<Waiter>, w: Waiter, ts: Ts)
    ensures InQueue(line + [w], ts) <==> InQueue(line, ts) || ts == w.ts
  {
    if InQueue(line, ts) {
      var i :| 0 <= i < |line| && line[i].ts == ts;
      assert (line + [w])[i].ts == ts;
    } else if ts == w.ts {
      assert (line + [w])[|line|].ts == ts;
    }
  }

  lemma RegisterReserve(s: State, t: Ts, k: Key, h: Handoff)
    requires Base(s) && KeyInv(s, k) && Enqueues(s, t, k) && Reserve(k, h) in s.msgs
    ensures ReserveOk(DoRegister(s, t), k, h)
  {
    RegisterFacts(s, t);
    RegisterLine(s, t, k);
    assert MsgOk(s, Reserve(k, h));
    InQueueAppend(Line(s, k), Waiter(t, s.txns[t].home), h.next.ts);
    assert h.next.ts != t;
  }

  lemma RegisterMsg(s: State, t: Ts, m: Msg)
    requires Base(s) && KeyInv(s, m.key) && Enqueues(s, t, m.key) && m in s.msgs
    ensures MsgOk(DoRegister(s, t), m)
  {
    var s' := DoRegister(s, t);
    RegisterFacts(s, t);
    assert MsgOk(s, m);
    match m
    case Reserve(k, h) => RegisterReserve(s, t, k, h);
    case Update(_, _, _, _, list) =>
      forall u | u in list ensures UpdateOk(s', m, u) { assert UpdateOk(s, m, u); }
    case Accepting(k, h) => assert Outstanding(s', k, h) <==> Outstanding(s, k, h);
    case Reply(k, h, ok) => assert Outstanding(s', k, h) <==> Outstanding(s, k, h);
    case Publish(_, _, next, _) => assert next.ts != t; assert PublishOk(s', m);
  }
}
