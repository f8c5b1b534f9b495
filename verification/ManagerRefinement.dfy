/**
 The steps of the cluster model are the operations of the node managers: on the
 node where a step runs, what the manager keeps there changes exactly as the
 operation's contract says, and every other manager keeps what it has.
 */
module ManagerRefinement {
  import opened LockWaitTypes
  import opened Handoff
  import opened HandoffInv
  import opened HandoffIndex
  import opened HandoffPin
  import opened HandoffReserve
  import opened HandoffTheorems
  import opened LockWaitManager

  /** What the manager of one node keeps. */
  datatype View = View(
    active: set<Ts>,
    queues: map<Key, Queue>,
    index: set<Listed>,
    tombs: set<Gone>,
    records: map<Ts, WaitState>)

  function ActiveOn(s: State, n: Node): set<Ts> {
    set l | l in s.live && l.node == n :: l.ts
  }

  function QueuesOn(s: State, n: Node): map<Key, Queue> {
    map id | id in s.queues && id.node == n :: id.key := s.queues[id]
  }

  function IndexOn(s: State, n: Node): set<Listed> {
    set l | l in s.index && l.node == n
  }

  function TombsOn(s: State, n: Node): set<Gone> {
    set g | g in s.gone && g.node == n
  }

  function Records(s: State, n: Node): map<Ts, WaitState> {
    map t | t in s.waits && Home(s, t, n) :: s.waits[t]
  }

  function ViewOf(s: State, n: Node): View {
    View(ActiveOn(s, n), QueuesOn(s, n), IndexOn(s, n), TombsOn(s, n), Records(s, n))
  }

  /** Only the manager of node `n` may have changed. */
  ghost predicate OnlyAt(s: State, s': State, n: Node) {
    forall m :: m != n ==> ViewOf(s', m) == ViewOf(s, m)
  }

  // ----- one part at a time -----

  lemma QueueOn(s: State, n: Node, j: Key)
    ensures j in QueuesOn(s, n) <==> QId(n, j) in s.queues
    ensures QId(n, j) in s.queues ==> QueuesOn(s, n)[j] == s.queues[QId(n, j)]
  {
    assert QId(n, j) in s.queues ==> QId(n, j).node == n && QId(n, j).key == j;
  }

  lemma SameQueuesOn(s: State, s': State, m: Node)
    requires forall j :: QId(m, j) in s'.queues <==> QId(m, j) in s.queues
    requires forall j :: QId(m, j) in s.queues ==> s'.queues[QId(m, j)] == s.queues[QId(m, j)]
    ensures QueuesOn(s', m) == QueuesOn(s, m)
  {
    forall j ensures j in QueuesOn(s', m) <==> j in QueuesOn(s, m) { QueueOn(s, m, j); QueueOn(s', m, j); }
  }

  lemma SetQueueOn(s: State, s': State, n: Node, k: Key, q: Queue)
    requires s'.queues == s.queues[QId(n, k) := q]
    ensures QueuesOn(s', n) == QueuesOn(s, n)[k := q]
    ensures forall m :: m != n ==> QueuesOn(s', m) == QueuesOn(s, m)
  {
    forall j ensures j in QueuesOn(s', n) <==> j == k || j in QueuesOn(s, n) { QueueOn(s, n, j); QueueOn(s', n, j); }
    forall m | m != n ensures QueuesOn(s', m) == QueuesOn(s, m) { SameQueuesOn(s, s', m); }
  }

  lemma DropQueueOn(s: State, s': State, n: Node, k: Key)
    requires s'.queues == s.queues - {QId(n, k)}
    ensures QueuesOn(s', n) == QueuesOn(s, n) - {k}
    ensures forall m :: m != n ==> QueuesOn(s', m) == QueuesOn(s, m)
  {
    forall j ensures j in QueuesOn(s', n) <==> j != k && j in QueuesOn(s, n) { QueueOn(s, n, j); QueueOn(s', n, j); }
    forall m | m != n ensures QueuesOn(s', m) == QueuesOn(s, m) { SameQueuesOn(s, s', m); }
  }

  lemma PinnedOn(s: State, s': State, k: Key, h: Handoff)
    requires h.next.ts in s.waits && Home(s, h.next.ts, h.next.node)
    requires s'.waits == PinAndRelabel(s, k, h) && s'.txns == s.txns
    ensures Records(s', h.next.node) == PinnedRecords(Records(s, h.next.node), k, h)
    ensures forall m :: m != h.next.node ==> Records(s', m) == Records(s, m)
  {}

  lemma RelabelledOn(s: State, s': State, n: Node, list: seq<Ts>, k: Key, version: nat, holder: Waiter)
    requires s'.waits == RelabelAt(s, s.waits, n, list, k, version, holder) && s'.txns == s.txns
    ensures Records(s', n) == Relabelled(Records(s, n), list, k, version, holder)
    ensures forall m :: m != n ==> Records(s', m) == Records(s, m)
  {}

  /** The wait record of one transaction is added, changed or removed at its home. */
  lemma RecordOn(s: State, s': State, t: Ts)
    requires t in s.txns && s'.txns.Keys == s.txns.Keys
    requires forall u :: u in s.txns ==> s'.txns[u].home == s.txns[u].home
    requires forall u :: u != t ==> (u in s'.waits <==> u in s.waits) && (u in s.waits ==> s'.waits[u] == s.waits[u])
    ensures var n := s.txns[t].home;
      && Records(s', n) == (if t in s'.waits then Records(s, n)[t := s'.waits[t]] else Records(s, n) - {t})
      && forall m :: m != n ==> Records(s', m) == Records(s, m)
  {
    var n := s.txns[t].home;
    forall m ensures m != n ==> Records(s', m) == Records(s, m) {}
  }

  // ----- waiting -----

  /** Enrolling is RegisterLocalWaiter at the transaction's home. */
  lemma EnrollIsRegisterLocalWaiter(s: State, t: Ts)
    requires CanEnroll(s, t)
    ensures var n := s.txns[t].home;
      var l := s.txns[t].phase.lock;
      && OnlyAt(s, DoEnroll(s, t), n)
      && ViewOf(DoEnroll(s, t), n)
         == ViewOf(s, n).(records := Records(s, n)[t := FreshWait(s.txns[t].phase.key, l.owner, l.holderNode)])
  {
    RecordOn(s, DoEnroll(s, t), t);
  }

  /** Registering is OnRegisterTupleWait at the node that manages the lock. */
  lemma RegistrationIsOnRegister(s: State, t: Ts)
    requires CanRegister(s, t)
    ensures var x := s.txns[t];
      var n, k, o := x.phase.lock.lockNode, x.phase.key, x.phase.lock.owner;
      var v := ViewOf(s, n);
      var (q, again) := Register(Entry(v.queues, k), o in v.active, Gone(n, o, k) in v.tombs, o, Waiter(t, x.home));
      && OnlyAt(s, DoRegister(s, t), n)
      && RegisterAnswer(s, t) == (q, again)
      && ViewOf(DoRegister(s, t), n) ==
           if again then v
           else v.(queues := v.queues[k := q.value],
                   index := if k in v.queues then v.index else v.index + {Listed(n, o, k)})
  {
    var x := s.txns[t];
    var n, k, o := x.phase.lock.lockNode, x.phase.key, x.phase.lock.owner;
    var s' := DoRegister(s, t);
    QueueOn(s, n, k);
    assert o in ActiveOn(s, n) <==> Live(n, o) in s.live;
    assert Entry(QueuesOn(s, n), k) == QueueAt(s, n, k);
    SameRecords(s, s');
    if !RegisterAnswer(s, t).1 { RegisteredView(s, s', n, k, o, RegisterAnswer(s, t).0.value); }
  }

  /** A queue is set, and listed if it is new. */
  lemma RegisteredView(s: State, s': State, n: Node, k: Key, o: Ts, q: Queue)
    requires s'.queues == s.queues[QId(n, k) := q] && s'.live == s.live && s'.gone == s.gone
    requires s'.index == if QId(n, k) in s.queues then s.index else s.index + {Listed(n, o, k)}
    requires forall m :: Records(s', m) == Records(s, m)
    ensures OnlyAt(s, s', n)
    ensures var v := ViewOf(s, n);
      ViewOf(s', n) ==
        v.(queues := v.queues[k := q], index := if k in v.queues then v.index else v.index + {Listed(n, o, k)})
  {
    QueueOn(s, n, k);
    SetQueueOn(s, s', n, k, q);
    forall m | m != n ensures ViewOf(s', m) == ViewOf(s, m) { assert IndexOn(s', m) == IndexOn(s, m); }
    assert QId(n, k) !in s.queues ==> IndexOn(s', n) == IndexOn(s, n) + {Listed(n, o, k)};
  }

  /** Records depend only on the waits and the homes. */
  lemma SameRecords(s: State, s': State)
    requires s'.waits == s.waits && s'.txns.Keys == s.txns.Keys
    requires forall u :: u in s.txns ==> s'.txns[u].home == s.txns[u].home
    ensures forall m :: Records(s', m) == Records(s, m)
  {}

  /** Being turned away, waking up and giving up are TryUnregisterLocalWaiter at the transaction's home. */
  lemma LeavingIsTryUnregister(s: State, t: Ts, e: Step)
    requires (e == Turn(t) || e == Wake(t) || e == Victim(t)) && Enabled(s, e)
    ensures var n := s.txns[t].home;
      && OnlyAt(s, Apply(s, e), n) && t in s.waits
      && ViewOf(Apply(s, e), n)
         == ViewOf(s, n).(records := if s.waits[t].flag == RESERVED then Records(s, n) else Records(s, n) - {t})
      && (e == Victim(t) ==> s.waits[t].flag == WAITING) && (e == Wake(t) ==> s.waits[t].flag == GRANTED)
  {
    RecordOn(s, Apply(s, e), t);
    if s.waits[t].flag == RESERVED { assert Records(s, s.txns[t].home)[t := s.waits[t]] == Records(s, s.txns[t].home); }
  }

  // ----- unlocking -----

  /** Freezing sets the tombstone. */
  lemma FreezeIsMarkForwarded(s: State, k: Key)
    requires CanFreeze(s, k)
    ensures var l := s.locks[k];
      && OnlyAt(s, DoFreeze(s, k), l.lockNode)
      && ViewOf(DoFreeze(s, k), l.lockNode)
         == ViewOf(s, l.lockNode).(tombs := TombsOn(s, l.lockNode) + {Gone(l.lockNode, l.owner, k)})
  {
    var s' := DoFreeze(s, k);
    SameRecords(s, s');
    forall m | m != s.locks[k].lockNode ensures ViewOf(s', m) == ViewOf(s, m) {
      assert TombsOn(s', m) == TombsOn(s, m);
    }
  }

  /** One round of the search is OfferHead on the unlocking node. */
  lemma PopIsOfferHead(s: State, k: Key)
    requires CanPop(s, k) && Popped(s, k).Some?
    ensures var r := s.rels[k];
      var h := Popped(s, k).value.0;
      var v := ViewOf(s, r.node);
      && k in v.queues && h == Offer(v.queues[k], r.source, 0)
      && OnlyAt(s, DoPop(s, k), r.node)
      && ViewOf(DoPop(s, k), r.node) ==
         if h.next.node == r.node && h.next.ts in v.records && Reservable(v.records[h.next.ts], k, h.source, h.version)
         then v.(records := PinnedRecords(v.records, k, h),
                 queues := v.queues[k := Queue(h.next.ts, h.version, h.tail)],
                 index := v.index + {Listed(r.node, h.next.ts, k)} - {Listed(r.node, r.source, k)})
         else v.(queues := v.queues[k := Queue(v.queues[k].owner, h.version, h.tail)])
  {
    var r := s.rels[k];
    var h := Popped(s, k).value.0;
    var q := Popped(s, k).value.1;
    var s' := DoPop(s, k);
    QueueOn(s, r.node, k);
    if h.next.node == r.node && LocallyReservable(s, k, h) {
      PinnedOn(s, s', k, h);
      SetQueueOn(s, s', r.node, k, q.(owner := h.next.ts));
    } else {
      SameRecords(s, s');
      SetQueueOn(s, s', r.node, k, q);
    }
    forall m | m != r.node ensures ViewOf(s', m) == ViewOf(s, m) { assert IndexOn(s', m) == IndexOn(s, m); }
  }

  /** A search that finds nobody, and one whose candidate on another node accepted, drop the queue. */
  lemma EndOfSearchIsDropQueue(s: State, k: Key, e: Step)
    requires (e == Pop(k) && CanPop(s, k) && Popped(s, k).None?) || (e == Take(k, true) && CanTake(s, k, true))
    ensures var r := s.rels[k];
      var v := ViewOf(s, r.node);
      && OnlyAt(s, Apply(s, e), r.node)
      && ViewOf(Apply(s, e), r.node) ==
         v.(queues := v.queues - {k},
            index := if e.Pop? && k !in v.queues then v.index else v.index - {Listed(r.node, r.source, k)})
  {
    var r := s.rels[k];
    var s' := Apply(s, e);
    QueueOn(s, r.node, k);
    DropQueueOn(s, s', r.node, k);
    SameRecords(s, s');
    forall m | m != r.node ensures ViewOf(s', m) == ViewOf(s, m) { assert IndexOn(s', m) == IndexOn(s, m); }
  }

  /** A refused candidate changes no manager. */
  lemma RefusalChangesNothing(s: State, k: Key, n: Node)
    requires CanTake(s, k, false)
    ensures ViewOf(DoTake(s, k, false), n) == ViewOf(s, n)
  {
    SameRecords(s, DoTake(s, k, false));
  }

  // ----- messages -----

  /** The fields a fresh reservation changes, and how. */
  ghost predicate ReservesAt(s: State, s': State, k: Key, h: Handoff) {
    && h.next.ts in s.waits && Home(s, h.next.ts, h.next.node)
    && s'.waits == PinAndRelabel(s, k, h) && s'.txns == s.txns && s'.live == s.live && s'.gone == s.gone
    && s'.index == s.index + {Listed(h.next.node, h.next.ts, k)}
    && var q := QueueAt(s, h.next.node, k);
      s'.queues == s.queues[QId(h.next.node, k)
        := Queue(h.next.ts, h.version, h.tail + (if q.Some? then q.value.waiters else []))]
  }

  /** The view of TryAcceptHandoff's fresh branch. */
  function AcceptedView(v: View, n: Node, k: Key, h: Handoff): View
    requires h.next.ts in v.records
  {
    var behind := if k in v.queues then v.queues[k].waiters else [];
    v.(records := PinnedRecords(v.records, k, h),
       queues := v.queues[k := Queue(h.next.ts, h.version, h.tail + behind)],
       index := v.index + {Listed(n, h.next.ts, k)})
  }

  lemma ReservedView(s: State, s': State, k: Key, h: Handoff)
    requires ReservesAt(s, s', k, h)
    ensures var n := h.next.node;
      h.next.ts in Records(s, n) && ViewOf(s', n) == AcceptedView(ViewOf(s, n), n, k, h)
  {
    var n := h.next.node;
    assert h.next.ts in Records(s, n) && Records(s', n) == PinnedRecords(Records(s, n), k, h) by {
      PinnedOn(s, s', k, h);
    }
    var v := AcceptedView(ViewOf(s, n), n, k, h);
    assert QueuesOn(s', n) == v.queues by { ReservedQueue(s, s', k, h); }
    assert IndexOn(s', n) == v.index;
  }

  lemma ReservedElsewhere(s: State, s': State, k: Key, h: Handoff)
    requires ReservesAt(s, s', k, h)
    ensures OnlyAt(s, s', h.next.node)
  {
    forall m | m != h.next.node ensures ViewOf(s', m) == ViewOf(s, m) { ReservedAtOther(s, s', k, h, m); }
  }

  lemma ReservedAtOther(s: State, s': State, k: Key, h: Handoff, m: Node)
    requires ReservesAt(s, s', k, h) && m != h.next.node
    ensures ViewOf(s', m) == ViewOf(s, m)
  {
    assert Records(s', m) == Records(s, m) by { PinnedOn(s, s', k, h); }
    assert QueuesOn(s', m) == QueuesOn(s, m) by { ReservedQueue(s, s', k, h); }
    assert IndexOn(s', m) == IndexOn(s, m);
  }

  lemma ReservedQueue(s: State, s': State, k: Key, h: Handoff)
    requires ReservesAt(s, s', k, h)
    ensures var n := h.next.node;
      var behind := if k in QueuesOn(s, n) then QueuesOn(s, n)[k].waiters else [];
      && QueuesOn(s', n) == QueuesOn(s, n)[k := Queue(h.next.ts, h.version, h.tail + behind)]
      && forall m :: m != n ==> QueuesOn(s', m) == QueuesOn(s, m)
  {
    QueueOn(s, h.next.node, k);
    SetQueueOn(s, s', h.next.node, k, s'.queues[QId(h.next.node, k)]);
  }

  /** A RESERVE that pins is the fresh branch of TryAcceptHandoff on the successor's node. */
  lemma FreshReserveIsTryAccept(s: State, k: Key, h: Handoff)
    requires PinsThere(s, k, h)
    ensures var n := h.next.node;
      && OnlyAt(s, DeliverReserve(s, k, h), n) && h.next.ts in Records(s, n)
      && ViewOf(DeliverReserve(s, k, h), n) == AcceptedView(ViewOf(s, n), n, k, h)
  {
    assert ReservesAt(s, DeliverReserve(s, k, h), k, h);
    ReservedView(s, DeliverReserve(s, k, h), k, h);
    ReservedElsewhere(s, DeliverReserve(s, k, h), k, h);
  }

  /** A RESERVE that pins nobody, refused or repeated, relabels at most. */
  lemma OtherReserveIsTryAccept(s: State, k: Key, h: Handoff)
    requires Reserve(k, h) in s.msgs && !PinsThere(s, k, h)
    ensures var n := h.next.node;
      var v := ViewOf(s, n);
      var repeats := h.next.ts in v.records && v.records[h.next.ts].flag == RESERVED
                     && SameReservation(v.records[h.next.ts], k, h.source, h.version);
      && OnlyAt(s, DeliverReserve(s, k, h), n)
      && ViewOf(DeliverReserve(s, k, h), n) ==
         (if repeats then v.(records := Relabelled(v.records, OnNode(h.tail, n), k, h.version, h.next)) else v)
  {
    var n := h.next.node;
    var t := h.next.ts;
    var s' := DeliverReserve(s, k, h);
    if && Home(s, t, n) && t in s.waits && s.waits[t].flag == RESERVED
       && SameReservation(s.waits[t], k, h.source, h.version) {
      RelabelledOn(s, s', n, OnNode(h.tail, n), k, h.version, h.next);
    } else {
      SameRecords(s, s');
    }
  }

  /** In a run it does not even do that. */
  lemma OtherReserveChangesNothing(s: State, k: Key, h: Handoff, n: Node)
    requires Reachable(s) && Reserve(k, h) in s.msgs && !PinsThere(s, k, h)
    ensures ViewOf(DeliverReserve(s, k, h), n) == ViewOf(s, n)
  {
    ReachableInv(s);
    RefusedReserve(s, k, h);
    SameRecords(s, DeliverReserve(s, k, h));
  }

  lemma PublishHome(s: State, m: Msg)
    requires Reachable(s) && m.Publish? && m in s.msgs
    ensures m.next.ts in s.txns && Home(s, m.next.ts, m.next.node)
    ensures m.next.ts in s.waits && SameReservation(s.waits[m.next.ts], m.key, m.source, m.version) ==>
      s.waits[m.next.ts].flag != WAITING
  {
    ReachableInv(s);
    assert KeyInv(s, m.key);
    assert MsgOk(s, m);
    assert LocalOk(s, m.next.ts);
  }

  /** A PUBLISH is PublishHandoff on the successor's node. */
  lemma PublishIsPublishHandoff(s: State, m: Msg)
    requires Reachable(s) && m.Publish? && m in s.msgs
    ensures var n := m.next.node;
      var v := ViewOf(s, n);
      && OnlyAt(s, DoDeliver(s, m), n)
      && ViewOf(DoDeliver(s, m), n) ==
         if m.next.ts in v.records && SameReservation(v.records[m.next.ts], m.key, m.source, m.version)
         then v.(records := v.records[m.next.ts := v.records[m.next.ts].(flag := GRANTED)])
         else v
  {
    var s' := DoDeliver(s, m);
    var t := m.next.ts;
    PublishHome(s, m);
    RecordOn(s, s', t);
    if t in s.waits { assert Records(s, m.next.node)[t := s.waits[t]] == Records(s, m.next.node); }
    else { assert Records(s, m.next.node) - {t} == Records(s, m.next.node); }
  }

  /** A holder update is OnUpdateWaiterHolder on its node. */
  lemma UpdateIsRelabel(s: State, m: Msg)
    requires m.Update? && CanDeliver(s, m)
    ensures var v := ViewOf(s, m.at);
      && OnlyAt(s, DoDeliver(s, m), m.at)
      && ViewOf(DoDeliver(s, m), m.at)
         == v.(records := Relabelled(v.records, m.list, m.key, m.version, m.holder))
  {
    RelabelledOn(s, DoDeliver(s, m), m.at, m.list, m.key, m.version, m.holder);
  }

  // ----- beginning and finishing -----

  /** Beginning at home is OnTxnBegin there. */
  lemma BeginIsOnTxnBegin(s: State, t: Ts, n: Node)
    requires Reachable(s) && CanBegin(s, t)
    ensures OnlyAt(s, DoBegin(s, t, n), n)
    ensures ViewOf(DoBegin(s, t, n), n) == ViewOf(s, n).(active := ActiveOn(s, n) + {t})
  {
    ReachableInv(s);
    assert t !in s.waits;
    forall m ensures Records(DoBegin(s, t, n), m) == Records(s, m) {}
    ActiveAdded(s, DoBegin(s, t, n), t, n);
  }

  /** Locking a free tuple through node `n` is OnTxnBegin on `n`, which may know the transaction already. */
  lemma LockIsOnTxnBegin(s: State, t: Ts, k: Key, n: Node)
    requires CanLock(s, t, k)
    ensures OnlyAt(s, DoLock(s, t, k, n), n)
    ensures ViewOf(DoLock(s, t, k, n), n) == ViewOf(s, n).(active := ActiveOn(s, n) + {t})
  {
    SameRecords(s, DoLock(s, t, k, n));
    ActiveAdded(s, DoLock(s, t, k, n), t, n);
  }

  lemma ActiveAdded(s: State, s': State, t: Ts, n: Node)
    requires s'.live == s.live + {Live(n, t)} && s'.queues == s.queues && s'.index == s.index && s'.gone == s.gone
    requires forall m :: Records(s', m) == Records(s, m)
    ensures OnlyAt(s, s', n) && ViewOf(s', n) == ViewOf(s, n).(active := ActiveOn(s, n) + {t})
  {
    forall m ensures ActiveOn(s', m) == if m == n then ActiveOn(s, m) + {t} else ActiveOn(s, m) {
      assert forall u :: Live(m, u) in s'.live <==> Live(m, u) in s.live || (m == n && u == t);
      assert forall u :: u in ActiveOn(s', m) <==> Live(m, u) in s'.live;
      assert forall u :: u in ActiveOn(s, m) <==> Live(m, u) in s.live;
    }
  }

  /** Finishing is FinishTx, which in a run finds the transaction's index entry empty. */
  lemma FinishIsFinishTx(s: State, t: Ts, n: Node)
    requires Reachable(s) && CanFinish(s, t, n)
    ensures var v := ViewOf(s, n);
      && OnlyAt(s, DoFinish(s, t, n), n)
      && ViewOf(DoFinish(s, t, n), n)
         == v.(active := v.active - {t}, tombs := (set g | g in v.tombs && g.ts != t))
      && forall k :: Listed(n, t, k) !in v.index
  {
    var s' := DoFinish(s, t, n);
    SameRecords(s, s');
    forall k ensures Listed(n, t, k) !in s.index { FinishFindsNoResidual(s, t, n, k); }
    assert forall l :: l in s.index && l.node == n && l.ts == t ==> l == Listed(n, t, l.key);
    forall m ensures ActiveOn(s', m) == if m == n then ActiveOn(s, m) - {t} else ActiveOn(s, m) {
      assert forall u :: u in ActiveOn(s', m) <==> Live(m, u) in s'.live;
      assert forall u :: u in ActiveOn(s, m) <==> Live(m, u) in s.live;
    }
    forall m | m != n ensures ViewOf(s', m) == ViewOf(s, m) {
      assert IndexOn(s', m) == IndexOn(s, m) && TombsOn(s', m) == TombsOn(s, m);
    }
    assert IndexOn(s', n) == IndexOn(s, n);
  }

  // ----- the manager object of a node -----

  /** The fields of a manager object hold what the cluster model says of its node. */
  ghost predicate Represents(v: View, n: Node, queues: map<Key, Queue>, holderKeys: map<Ts, set<Key>>) {
    v.queues == queues && forall h, k :: k in Under(holderKeys, h) <==> Listed(n, h, k) in v.index
  }

  /** A manager object that represents its node in a reachable state satisfies its class invariant. */
  lemma ManagersStayValid(s: State, n: Node, queues: map<Key, Queue>, holderKeys: map<Ts, set<Key>>)
    requires Reachable(s) && Represents(ViewOf(s, n), n, queues, holderKeys)
    ensures IndexMatches(holderKeys, queues)
  {
    IndexIsExact(s);
    forall h, k ensures k in Under(holderKeys, h) <==> k in queues && queues[k].owner == h {
      assert EntryOk(s, n, h, k);
      QueueOn(s, n, k);
    }
  }

  /** The conditions under which the managers' operations keep their index exact are met in every run. */
  lemma IndexConditionsHold(s: State, k: Key, h: Handoff)
    requires Reachable(s)
    ensures CanPop(s, k) && Popped(s, k).Some? ==> Popped(s, k).value.0.next.ts != s.rels[k].source
    ensures PinsThere(s, k, h) ==> k !in QueuesOn(s, h.next.node)
  {
    ReachableInv(s);
    assert KeyInv(s, k);
    if CanPop(s, k) && Popped(s, k).Some? { NotToItself(s, k); }
    if PinsThere(s, k, h) {
      AcceptPinnable(s, k, h);
      QueueOn(s, h.next.node, k);
    }
  }

  /** An unlock never offers the lock to the transaction that gives it up. */
  lemma NotToItself(s: State, k: Key)
    requires Inv(s) && CanPop(s, k) && Popped(s, k).Some?
    ensures Popped(s, k).value.0.next.ts != s.rels[k].source
  {
    assert KeyInv(s, k);
    assert RelOk(s, k);
    var h := Popped(s, k).value.0;
    assert h.next in Line(s, k);
    assert InLineOk(s, k, h.next);
  }
}
