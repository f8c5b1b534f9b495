/** The delivery of RESERVE, and the fact that no delivery has an effect twice. */
module HandoffReserve {
  import opened LockWaitTypes
  import opened Handoff
  import opened HandoffInv
  import opened HandoffPin
  import opened HandoffDeliver

  /** The answer a RESERVE that pins nobody gives to a node that still waits for it. */
  function Answer(s: State, k: Key, h: Handoff): set<Msg> {
    if !Outstanding(s, k, h) then {}
    else if IsEnding(s, h.next.ts) then {Reply(k, h, false)}
    else {Accepting(k, h)}
  }

  /** Relabelling a tail whose updates were all applied changes no episode. */
  lemma RelabelAgain(s: State, k: Key, h: Handoff)
    requires Base(s) && KeyInv(s, k) && Reserve(k, h) in s.msgs && IsQueued(s, h.next.ts, k)
    requires s.waits[h.next.ts].flag != WAITING
    ensures RelabelAt(s, s.waits, h.next.node, OnNode(h.tail, h.next.node), k, h.version, h.next) == s.waits
  {
    assert ReserveOk(s, k, h) by { assert MsgOk(s, Reserve(k, h)); }
    var list := OnNode(h.tail, h.next.node);
    forall t | t in s.waits && t in list
      ensures Relabel(s.waits[t], k, h.version, h.next) == s.waits[t]
    {
      assert Applied(s, k, h.version, t);
      assert LocalOk(s, t);
    }
  }

  /** A RESERVE that pins nobody changes no queue, no owner and no episode. */
  lemma RefusedReserve(s: State, k: Key, h: Handoff)
    requires Inv(s) && Reserve(k, h) in s.msgs && !PinsThere(s, k, h)
    ensures DeliverReserve(s, k, h) == s.(msgs := s.msgs + Answer(s, k, h))
    ensures !IsWaiting(s, h.next.ts, k)
    ensures forall a :: a in Answer(s, k, h) ==> MsgOk(s, a)
  {
    RefusedState(s, k, h);
    RefusedAnswer(s, k, h);
  }

  lemma RefusedAnswer(s: State, k: Key, h: Handoff)
    requires Inv(s) && Reserve(k, h) in s.msgs && !PinsThere(s, k, h)
    ensures forall a :: a in Answer(s, k, h) ==> MsgOk(s, a)
  {
    assert KeyInv(s, k);
    assert MsgOk(s, Reserve(k, h));
    if Outstanding(s, k, h) { assert RelOk(s, k); }
  }

  lemma RefusedState(s: State, k: Key, h: Handoff)
    requires Inv(s) && Reserve(k, h) in s.msgs && !PinsThere(s, k, h)
    ensures DeliverReserve(s, k, h) == s.(msgs := s.msgs + Answer(s, k, h))
    ensures !IsWaiting(s, h.next.ts, k)
  {
    var t := h.next.ts;
    assert KeyInv(s, k);
    assert MsgOk(s, Reserve(k, h));
    if Outstanding(s, k, h) { assert RelOk(s, k); }
    assert IsQueued(s, t, k) ==> QueuedOk(s, t, k) && LocalOk(s, t);
    if t in s.waits && IsQueued(s, t, k) {
      RelabelAgain(s, k, h);
      assert QueuedOk(s, t, k);
    } else if t in s.waits {
      OtherReservation(s, t, k);
      assert LocalOk(s, t);
    }
    assert s.msgs + {} == s.msgs;
  }

  lemma ReserveKeeps(s: State, k: Key, h: Handoff)
    requires Inv(s) && Reserve(k, h) in s.msgs
    ensures Inv(DeliverReserve(s, k, h))
    ensures Settled(DeliverReserve(s, k, h), Reserve(k, h))
  {
    var s' := DeliverReserve(s, k, h);
    if PinsThere(s, k, h) {
      AcceptKeeps(s, k, h);
      AcceptSettles(s, k, h);
    } else {
      RefusedReserve(s, k, h);
      if Answer(s, k, h) != {} {
        var a := if IsEnding(s, h.next.ts) then Reply(k, h, false) else Accepting(k, h);
        assert Answer(s, k, h) == {a};
        AnswerKeeps(s, a);
      } else {
        assert s.msgs + Answer(s, k, h) == s.msgs;
        assert s' == s;
      }
    }
  }

  lemma AcceptSettles(s: State, k: Key, h: Handoff)
    requires Inv(s) && PinsThere(s, k, h)
    ensures Settled(DeliverReserve(s, k, h), Reserve(k, h))
  {
    var s' := DeliverReserve(s, k, h);
    assert KeyInv(s, k);
    AcceptPinnable(s, k, h);
    AcceptPins(s, k, h);
    PinReserved(s, s', k, h);
  }

  lemma DeliverKeeps(s: State, m: Msg)
    requires Inv(s) && CanDeliver(s, m)
    ensures Inv(DoDeliver(s, m))
  {
    match m
    case Reserve(k, h) =>
      ReserveKeeps(s, k, h);
      MarkKeeps(DeliverReserve(s, k, h), m);
      assert DeliverReserve(s, k, h).delivered == s.delivered;
    case Publish(k, source, next, version) =>
      PublishKeeps(s, m);
      MarkKeeps(DeliverPublish(s, k, source, next, version), m);
    case Update(_, _, _, _, _) =>
      UpdateKeeps(s, m);
      MarkKeeps(DeliverUpdate(s, m), m);
  }

  /**
   Redelivery: a message that was delivered before changes nothing at all,
   whatever has happened in between.
   */
  lemma RedeliveryIsNoOp(s: State, m: Msg)
    requires Inv(s) && CanDeliver(s, m) && m in s.delivered
    ensures DoDeliver(s, m) == s
  {
    assert KeyInv(s, m.key);
    assert MsgOk(s, m);
    assert s.delivered + {m} == s.delivered;
    match m
    case Reserve(k, h) =>
      if PinsThere(s, k, h) { AcceptPinnable(s, k, h); assert false; }
      RefusedReserve(s, k, h);
      if Outstanding(s, k, h) { assert RelOk(s, k); }
      assert s.msgs + Answer(s, k, h) == s.msgs;
    case Publish(k, source, next, version) => PublishFacts(s, m);
    case Update(_, _, _, _, list) =>
      forall t | t in s.waits ensures DeliverUpdate(s, m).waits[t] == s.waits[t] {
        UpdateFacts(s, m, t);
      }
      assert DeliverUpdate(s, m).waits == s.waits;
  }
}
