/** Every delivery, first or repeated, keeps the invariant; a repeated one changes nothing. */
module HandoffDeliver {
  import opened LockWaitTypes
  import opened Handoff
  import opened HandoffInv
  import opened HandoffFrame

  // ----- answers -----

  lemma AnswerKeeps(s: State, a: Msg)
    requires Inv(s) && (a.Accepting? || a.Reply?) && MsgOk(s, a)
    ensures Inv(s.(msgs := s.msgs + {a}))
  {
    var s' := s.(msgs := s.msgs + {a});
    forall j ensures KeyInv(s', j) {
      if j != a.key { FrameKey(s, s', j); } else { AnswerKey(s, a); }
    }
  }

  lemma AnswerKey(s: State, a: Msg)
    requires Base(s) && KeyInv(s, a.key) && (a.Accepting? || a.Reply?) && MsgOk(s, a)
    ensures KeyInv(s.(msgs := s.msgs + {a}), a.key)
  {
    var k := a.key;
    var s' := s.(msgs := s.msgs + {a});
    assert Line(s', k) == Line(s, k);
    if k in s.rels { AnswerRel(s, a); }
    forall t | IsQueued(s', t, k) ensures QueuedOk(s', t, k) { AnswerQueued(s, a, t); }
    forall m | m in s'.msgs && m.key == k ensures MsgOk(s', m) { AnswerMsg(s, a, m); }
  }

  lemma AnswerQueued(s: State, a: Msg, t: Ts)
    requires IsQueued(s, t, a.key) && QueuedOk(s, t, a.key) && (a.Accepting? || a.Reply?)
    ensures QueuedOk(s.(msgs := s.msgs + {a}), t, a.key)
  {
    assert Line(s.(msgs := s.msgs + {a}), a.key) == Line(s, a.key);
  }

  lemma AnswerRel(s: State, a: Msg)
    requires a.key in s.rels && RelOk(s, a.key)
    ensures RelOk(s.(msgs := s.msgs + {a}), a.key)
  {
    assert Line(s.(msgs := s.msgs + {a}), a.key) == Line(s, a.key);
  }

  lemma AnswerMsg(s: State, a: Msg, m: Msg)
    requires (a.Accepting? || a.Reply?) && MsgOk(s, m)
    ensures MsgOk(s.(msgs := s.msgs + {a}), m)
  {
    var s' := s.(msgs := s.msgs + {a});
    assert Line(s', m.key) == Line(s, m.key);
    if m.Reserve? { assert ReserveOk(s, m.key, m.h); }
  }

  lemma AcceptAnswerKeeps(s: State, k: Key, h: Handoff)
    requires Inv(s) && CanAccept(s, k, h)
    ensures Inv(DoAccept(s, k, h))
  {
    assert KeyInv(s, k);
    assert MsgOk(s, Accepting(k, h));
    AnswerKeeps(s, Reply(k, h, true));
  }

  // ----- recording that a message has been delivered -----

  /** The message has nothing left to do. */
  ghost predicate Settled(s: State, m: Msg) {
    match m
    case Reserve(k, h) =>
      && !IsWaiting(s, h.next.ts, k)
      && (Outstanding(s, k, h) ==>
            if IsEnding(s, h.next.ts) then Reply(k, h, false) in s.msgs else Accepting(k, h) in s.msgs)
    case Publish(k, _, next, _) => IsQueued(s, next.ts, k) ==> s.waits[next.ts].flag == GRANTED
    case Update(k, version, _, _, list) => forall t :: t in list ==> Applied(s, k, version, t)
    case _ => false
  }

  function Mark(s: State, m: Msg): State { s.(delivered := s.delivered + {m}) }

  lemma MarkKeeps(s: State, m: Msg)
    requires Inv(s) && CanDeliver(s, m) && Settled(s, m)
    ensures Inv(Mark(s, m))
  {
    var s' := Mark(s, m);
    forall j ensures KeyInv(s', j) {
      if j != m.key { FrameKey(s, s', j); } else { MarkKey(s, m); }
    }
  }

  lemma MarkKey(s: State, m: Msg)
    requires Base(s) && KeyInv(s, m.key) && CanDeliver(s, m) && Settled(s, m)
    ensures KeyInv(Mark(s, m), m.key)
  {
    var k := m.key;
    var s' := Mark(s, m);
    assert Line(s', k) == Line(s, k);
    forall t | IsQueued(s', t, k) ensures QueuedOk(s', t, k) { MarkQueued(s, m, t); }
    forall a | a in s'.msgs && a.key == k ensures MsgOk(s', a) { MarkMsg(s, m, a); }
  }

  lemma MarkQueued(s: State, m: Msg, t: Ts)
    requires Base(s) && KeyInv(s, m.key) && CanDeliver(s, m) && Settled(s, m) && IsQueued(s, t, m.key)
    ensures QueuedOk(Mark(s, m), t, m.key)
  {
    var k := m.key;
    var s' := Mark(s, m);
    assert Line(s', k) == Line(s, k);
    assert QueuedOk(s, t, k);
    if m.Update? && k in s.rels && (s.rels[k].stage.Asking? || s.rels[k].stage.Updating?) {
      var h := s.rels[k].stage.h;
      if m == UpdateMsg(k, h, s.txns[t].home) && Waiter(t, s.txns[t].home) in Line(s, k) {
        OnNodeMember(h.tail, s.txns[t].home, t);
        assert Applied(s, k, h.version, t);
      }
    }
  }

  lemma MarkMsg(s: State, m: Msg, a: Msg)
    requires CanDeliver(s, m) && Settled(s, m) && a in s.msgs && MsgOk(s, a) && a.key == m.key
    ensures MsgOk(Mark(s, m), a)
  {
    var s' := Mark(s, m);
    assert Line(s', m.key) == Line(s, m.key);
    if a.Reserve? { assert ReserveOk(s, a.key, a.h); }
    if a.Update? {
      forall t | t in a.list ensures UpdateOk(s', a, t) { assert UpdateOk(s, a, t); }
    }
  }

  // ----- publication -----

  lemma PublishFacts(s: State, m: Msg)
    requires Inv(s) && m.Publish? && m in s.msgs
    ensures var s1 := DeliverPublish(s, m.key, m.source, m.next, m.version);
      if IsQueued(s, m.next.ts, m.key) then
        && m.key in s.locks && s.locks[m.key].owner == m.next.ts && m.key !in s.rels
        && s1 == s.(waits := s.waits[m.next.ts := s.waits[m.next.ts].(flag := GRANTED)])
      else s1 == s
  {
    assert KeyInv(s, m.key);
    assert MsgOk(s, m);
    assert PublishOk(s, m);
    var t := m.next.ts;
    if t in s.waits {
      if IsQueued(s, t, m.key) {
        if s.waits[t].flag == GRANTED {
          assert s.waits[t].(flag := GRANTED) == s.waits[t];
          assert s.waits[t := s.waits[t]] == s.waits;
        }
      } else {
        OtherReservation(s, t, m.key);
      }
    }
  }

  /** The reservation of an episode always concerns the tuple it waits for. */
  lemma OtherReservation(s: State, t: Ts, k: Key)
    requires Inv(s) && t in s.waits && !IsQueued(s, t, k)
    ensures s.waits[t].flag == WAITING || (s.waits[t].reservation.Reservation? && s.waits[t].reservation.key != k)
  {
    assert LocalOk(s, t);
    if s.txns[t].phase.Queued? {
      var j := s.txns[t].phase.key;
      assert KeyInv(s, j);
      assert IsQueued(s, t, j);
      assert QueuedOk(s, t, j);
    }
  }

  lemma PublishKeeps(s: State, m: Msg)
    requires Inv(s) && m.Publish? && m in s.msgs
    ensures Inv(DeliverPublish(s, m.key, m.source, m.next, m.version))
    ensures Settled(DeliverPublish(s, m.key, m.source, m.next, m.version), m)
  {
    var s' := DeliverPublish(s, m.key, m.source, m.next, m.version);
    PublishFacts(s, m);
    if IsQueued(s, m.next.ts, m.key) {
      forall j ensures KeyInv(s', j) {
        if j != m.key { FrameKey(s, s', j); } else { PublishKey(s, m); }
      }
    }
  }

  lemma PublishKey(s: State, m: Msg)
    requires Inv(s) && m.Publish? && m in s.msgs && IsQueued(s, m.next.ts, m.key)
    ensures KeyInv(DeliverPublish(s, m.key, m.source, m.next, m.version), m.key)
  {
    var k := m.key;
    var s' := DeliverPublish(s, m.key, m.source, m.next, m.version);
    PublishFacts(s, m);
    assert KeyInv(s, k);
    assert MsgOk(s, m);
    assert Line(s', k) == Line(s, k);
    forall w | w in Line(s', k) ensures InLineOk(s', k, w) { assert InLineOk(s, k, w); }
    forall t | IsQueued(s', t, k) ensures QueuedOk(s', t, k) { assert QueuedOk(s, t, k); }
    forall a | a in s'.msgs && a.key == k ensures MsgOk(s', a) { PublishMsg(s, m, a); }
  }

  lemma PublishMsg(s: State, m: Msg, a: Msg)
    requires Inv(s) && m.Publish? && m in s.msgs && IsQueued(s, m.next.ts, m.key) && a in s.msgs && a.key == m.key
    ensures MsgOk(DeliverPublish(s, m.key, m.source, m.next, m.version), a)
  {
    var s' := DeliverPublish(s, m.key, m.source, m.next, m.version);
    PublishFacts(s, m);
    assert KeyInv(s, m.key);
    assert MsgOk(s, m) && MsgOk(s, a);
    assert Line(s', m.key) == Line(s, m.key);
    if a.Update? {
      forall t | t in a.list ensures UpdateOk(s', a, t) { assert UpdateOk(s, a, t); }
    }
  }

  // ----- holder updates -----

  function DeliverUpdate(s: State, m: Msg): State
    requires m.Update?
  {
    s.(waits := RelabelAt(s, s.waits, m.at, m.list, m.key, m.version, m.holder))
  }

  /** A holder update changes only episodes that the current unlock has in its tail. */
  lemma UpdateFacts(s: State, m: Msg, t: Ts)
    requires Base(s) && m.Update? && KeyInv(s, m.key) && m in s.msgs && t in s.waits
    ensures var w := DeliverUpdate(s, m).waits[t];
      if t in m.list && IsQueued(s, t, m.key) && s.waits[t].holderVersion < m.version then
        && IsWaiting(s, t, m.key) && Distributing(s, m.key, m.version, m.holder)
        && m !in s.delivered && Waiter(t, m.at) in Line(s, m.key)
        && w == s.waits[t].(holder := m.holder.ts, holderNode := m.holder.node, holderVersion := m.version)
      else w == s.waits[t]
  {
    assert LocalOk(s, t);
    assert MsgOk(s, m);
    if t in m.list { assert UpdateOk(s, m, t); }
  }

  lemma UpdateKeeps(s: State, m: Msg)
    requires Inv(s) && m.Update? && m in s.msgs
    ensures Inv(DeliverUpdate(s, m)) && Settled(DeliverUpdate(s, m), m)
  {
    var s' := DeliverUpdate(s, m);
    assert KeyInv(s, m.key);
    UpdateBase(s, m);
    forall j ensures KeyInv(s', j) {
      if j != m.key { UpdateFrame(s, m, j); FrameKey(s, s', j); } else { UpdateKey(s, m); }
    }
    forall t | t in m.list ensures Applied(s', m.key, m.version, t) {
      if t in s.waits { UpdateFacts(s, m, t); }
    }
  }

  lemma UpdateBase(s: State, m: Msg)
    requires Base(s) && m.Update? && KeyInv(s, m.key) && m in s.msgs
    ensures Base(DeliverUpdate(s, m))
  {
    var s' := DeliverUpdate(s, m);
    forall t | t in s'.txns ensures LocalOk(s', t) {
      assert LocalOk(s, t);
      if t in s.waits { UpdateFacts(s, m, t); }
    }
  }

  lemma UpdateFrame(s: State, m: Msg, j: Key)
    requires Base(s) && m.Update? && KeyInv(s, m.key) && m in s.msgs && j != m.key
    ensures KeyFrame(s, DeliverUpdate(s, m), j)
  {
    var s' := DeliverUpdate(s, m);
    forall t | t in s.txns ensures TxnFrame(s, s', t, j) {
      if t in s.waits { UpdateFacts(s, m, t); }
    }
  }

  lemma UpdateSame(s: State, m: Msg, t: Ts)
    requires Base(s) && m.Update? && KeyInv(s, m.key) && m in s.msgs
    ensures var s' := DeliverUpdate(s, m);
      && (IsQueued(s', t, m.key) <==> IsQueued(s, t, m.key))
      && (IsWaiting(s', t, m.key) <==> IsWaiting(s, t, m.key))
      && (IsQueued(s, t, m.key) ==>
            s'.waits[t].flag == s.waits[t].flag && s'.waits[t].reservation == s.waits[t].reservation
            && s'.waits[t].holderVersion >= s.waits[t].holderVersion)
  {
    if t in s.waits { UpdateFacts(s, m, t); }
  }

  lemma UpdateKey(s: State, m: Msg)
    requires Base(s) && m.Update? && KeyInv(s, m.key) && m in s.msgs
    ensures KeyInv(DeliverUpdate(s, m), m.key)
  {
    var k := m.key;
    var s' := DeliverUpdate(s, m);
    UpdateStructure(s, m);
    forall t | IsQueued(s', t, k) ensures QueuedOk(s', t, k) { UpdateQueued(s, m, t); }
    forall a | a in s'.msgs && a.key == k ensures MsgOk(s', a) { UpdateMsgKeeps(s, m, a); }
  }

  lemma UpdateStructure(s: State, m: Msg)
    requires Base(s) && m.Update? && KeyInv(s, m.key) && m in s.msgs
    ensures var s' := DeliverUpdate(s, m);
      var k := m.key;
      LockPart(s', k) && LineOk(s', k) && RelPart(s', k) && QueuePart(s', k)
      && SeenPart(s', k) && OwnPart(s', k) && GonePart(s', k)
  {
    var k := m.key;
    var s' := DeliverUpdate(s, m);
    assert Line(s', k) == Line(s, k);
    forall t ensures (IsQueued(s', t, k) <==> IsQueued(s, t, k)) && (IsWaiting(s', t, k) <==> IsWaiting(s, t, k))
      && (IsQueued(s, t, k) ==>
            s'.waits[t].flag == s.waits[t].flag && s'.waits[t].reservation == s.waits[t].reservation)
    {
      UpdateSame(s, m, t);
    }
    if k in s.rels { assert RelOk(s, k); }
    forall t | HasSeen(s', t, k) ensures Snapshot(s', k, s'.txns[t].phase.lock) { assert HasSeen(s, t, k); }
  }

  lemma UpdateQueued(s: State, m: Msg, t: Ts)
    requires Base(s) && m.Update? && KeyInv(s, m.key) && m in s.msgs && IsQueued(DeliverUpdate(s, m), t, m.key)
    ensures QueuedOk(DeliverUpdate(s, m), t, m.key)
  {
    var k := m.key;
    var s' := DeliverUpdate(s, m);
    UpdateSame(s, m, t);
    UpdateFacts(s, m, t);
    assert QueuedOk(s, t, k);
    assert Line(s', k) == Line(s, k);
    if k in s.rels && s.rels[k].stage.Asking? {
      UpdateSame(s, m, s.rels[k].stage.h.next.ts);
      assert RelOk(s, k);
    }
  }

  lemma UpdateMsgKeeps(s: State, m: Msg, a: Msg)
    requires Base(s) && m.Update? && KeyInv(s, m.key) && m in s.msgs && a in s.msgs && a.key == m.key
    ensures MsgOk(DeliverUpdate(s, m), a)
  {
    var k := m.key;
    var s' := DeliverUpdate(s, m);
    assert MsgOk(s, a);
    assert Line(s', k) == Line(s, k);
    match a
    case Reserve(_, h) =>
      UpdateSame(s, m, h.next.ts);
      forall t ensures Applied(s, k, h.version, t) ==> Applied(s', k, h.version, t) { UpdateSame(s, m, t); }
    case Accepting(_, h) => UpdateSame(s, m, h.next.ts);
    case Reply(_, h, _) => UpdateSame(s, m, h.next.ts);
    case Publish(_, _, next, _) => UpdateSame(s, m, next.ts);
    case Update(_, _, _, _, list) =>
      forall t | t in list ensures UpdateOk(s', a, t) { UpdateOther(s, m, a, t); }
  }

  lemma UpdateOther(s: State, m: Msg, a: Msg, t: Ts)
    requires Base(s) && m.Update? && KeyInv(s, m.key) && m in s.msgs && a.Update? && a in s.msgs && a.key == m.key
    requires t in a.list
    ensures UpdateOk(DeliverUpdate(s, m), a, t)
  {
    var k := m.key;
    assert MsgOk(s, a);
    assert UpdateOk(s, a, t);
    assert Line(DeliverUpdate(s, m), k) == Line(s, k);
    UpdateSame(s, m, t);
    if k in s.rels && s.rels[k].stage.Asking? { UpdateSame(s, m, s.rels[k].stage.h.next.ts); }
  }
}
