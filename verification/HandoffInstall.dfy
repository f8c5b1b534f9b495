/** The end of an unlock, from the reserved successor to the publication, keeps the invariant. */
module HandoffInstall {
  import opened LockWaitTypes
  import opened Handoff
  import opened HandoffInv
  import opened HandoffFrame

  // ----- the tail is up to date: the successor is ready -----

  /** Once every holder update has arrived, the whole line names the successor. */
  lemma AllEdgesNew(s: State, k: Key, h: Handoff, t: Ts)
    requires Base(s) && KeyInv(s, k) && k in s.rels && AllUpdated(s, k, h) && IsWaiting(s, t, k)
    requires s.rels[k].stage == Updating(h)
             || (s.rels[k].stage == Asking(h) && IsReserved(s, h.next.ts, k, h.source, h.version))
    ensures NewEdge(s.waits[t], h) && Waiter(t, s.txns[t].home) in h.tail
  {
    assert QueuedOk(s, t, k);
    assert RelOk(s, k);
    var n := s.txns[t].home;
    var i :| 0 <= i < |h.tail| && h.tail[i] == Waiter(t, n);
    assert n != h.next.node ==> UpdateMsg(k, h, h.tail[i].node) in UpdateMsgs(k, h);
  }

  /** Both ways of getting a successor ready: nothing but the stage, and the old queue, changes. */
  ghost predicate Readies(s: State, s': State, k: Key, h: Handoff) {
    && k in s.rels && s'.rels == s.rels[k := s.rels[k].(stage := Ready(h))]
    && s' == s.(rels := s'.rels, queues := s'.queues, index := s'.index)
    && (forall n, j :: j != k ==> (QId(n, j) in s'.queues <==> QId(n, j) in s.queues))
    && (forall n, j :: QId(n, j) in s'.queues ==> QId(n, j) in s.queues && s'.queues[QId(n, j)] == s.queues[QId(n, j)])
    && (forall n :: QId(n, k) in s'.queues <==> n == h.next.node)
    && AllUpdated(s, k, h)
    && (s.rels[k].stage == Updating(h)
        || (s.rels[k].stage == Asking(h) && IsReserved(s, h.next.ts, k, h.source, h.version)))
  }

  lemma ReadyKeeps(s: State, s': State, k: Key, h: Handoff)
    requires Inv(s) && Readies(s, s', k, h)
    ensures Inv(s')
  {
    forall j ensures KeyInv(s', j) {
      if j != k { FrameKey(s, s', j); } else { ReadyKey(s, s', k, h); }
    }
  }

  lemma ReadyKey(s: State, s': State, k: Key, h: Handoff)
    requires Base(s) && KeyInv(s, k) && Readies(s, s', k, h)
    ensures KeyInv(s', k)
  {
    assert RelOk(s, k);
    assert Line(s', k) == Line(s, k) == h.tail;
    forall n | QId(n, k) in s'.queues ensures QueueOk(s', n, k) { assert QueueOk(s, n, k); }
    forall t | IsQueued(s', t, k) ensures QueuedOk(s', t, k) {
      assert QueuedOk(s, t, k);
      if IsWaiting(s, t, k) { AllEdgesNew(s, k, h, t); }
    }
    forall m | m in s'.msgs && m.key == k ensures MsgOk(s', m) { ReadyMsg(s, s', h, m); }
  }

  lemma ReadyMsg(s: State, s': State, h: Handoff, m: Msg)
    requires Base(s) && KeyInv(s, m.key) && Readies(s, s', m.key, h) && m in s.msgs
    ensures MsgOk(s', m)
  {
    var k := m.key;
    assert MsgOk(s, m);
    assert RelOk(s, k);
    assert Line(s', k) == Line(s, k) == h.tail;
    if m.Update? {
      forall t | t in m.list ensures UpdateOk(s', m, t) {
        assert UpdateOk(s, m, t);
        if IsWaiting(s, t, k) { AllEdgesNew(s, k, h, t); }
      }
    }
  }

  lemma UpdatedKeeps(s: State, k: Key)
    requires Inv(s) && CanUpdated(s, k)
    ensures Inv(DoUpdated(s, k))
  {
    var h := s.rels[k].stage.h;
    assert KeyInv(s, k);
    assert RelOk(s, k);
    forall n | QId(n, k) in s.queues ensures n == h.next.node { assert QueueOk(s, n, k); }
    ReadyKeeps(s, DoUpdated(s, k), k, h);
  }

  lemma TakeYesKeeps(s: State, k: Key)
    requires Inv(s) && CanTake(s, k, true)
    ensures Inv(DoTake(s, k, true))
  {
    var h := s.rels[k].stage.h;
    assert KeyInv(s, k);
    assert MsgOk(s, Reply(k, h, true));
    assert RelOk(s, k);
    forall n | QId(n, k) in s.queues ensures n == h.next.node || n == s.rels[k].node { assert QueueOk(s, n, k); }
    ReadyKeeps(s, DoTake(s, k, true), k, h);
  }

  // ----- the candidate declined: freeze again, one entry shorter -----

  lemma TakeNoKeeps(s: State, k: Key)
    requires Inv(s) && CanTake(s, k, false)
    ensures Inv(DoTake(s, k, false))
  {
    var s' := DoTake(s, k, false);
    forall j ensures KeyInv(s', j) {
      if j != k { FrameKey(s, s', j); } else { TakeNoKey(s, k); }
    }
  }

  lemma TakeNoFacts(s: State, k: Key)
    requires Base(s) && KeyInv(s, k) && CanTake(s, k, false)
    ensures IsEnding(s, s.rels[k].stage.h.next.ts) && RelOk(s, k) && AtOwner(DoTake(s, k, false), k)
    ensures Line(DoTake(s, k, false), k) == Line(s, k) == s.rels[k].stage.h.tail
    ensures forall n :: QId(n, k) in s.queues <==> n == s.rels[k].node
  {
    var h := s.rels[k].stage.h;
    assert MsgOk(s, Reply(k, h, false));
    assert RelOk(s, k);
    forall n | QId(n, k) in s.queues ensures n == s.rels[k].node { assert QueueOk(s, n, k); }
    assert QueueOk(s, s.rels[k].node, k);
  }

  lemma TakeNoKey(s: State, k: Key)
    requires Base(s) && KeyInv(s, k) && CanTake(s, k, false)
    ensures KeyInv(DoTake(s, k, false), k)
  {
    var s' := DoTake(s, k, false);
    var h := s.rels[k].stage.h;
    TakeNoFacts(s, k);
    assert s'.rels[k].before == s'.rels[k].skipped + h.tail;
    forall n | QId(n, k) in s'.queues ensures QueueOk(s', n, k) { assert QueueOk(s, n, k); }
    forall t | IsQueued(s', t, k) ensures QueuedOk(s', t, k) { TakeNoQueued(s, k, t); }
    forall m | m in s'.msgs && m.key == k ensures MsgOk(s', m) { TakeNoMsg(s, m); }
  }

  lemma TakeNoQueued(s: State, k: Key, t: Ts)
    requires Base(s) && KeyInv(s, k) && CanTake(s, k, false) && IsQueued(s, t, k)
    ensures QueuedOk(DoTake(s, k, false), t, k)
  {
    TakeNoFacts(s, k);
    assert QueuedOk(s, t, k);
    assert LockOk(s, k);
    assert QueueOk(s, s.rels[k].node, k);
  }

  lemma TakeNoMsg(s: State, m: Msg)
    requires Base(s) && KeyInv(s, m.key) && CanTake(s, m.key, false) && m in s.msgs
    ensures MsgOk(DoTake(s, m.key, false), m)
  {
    TakeNoFacts(s, m.key);
    assert MsgOk(s, m);
  }

  // ----- the owner bytes change -----

  lemma InstallKeeps(s: State, k: Key)
    requires Inv(s) && CanInstall(s, k)
    ensures Inv(DoInstall(s, k))
  {
    assert KeyInv(s, k);
    assert RelOk(s, k);
    if s.rels[k].stage.Ready? { InstallNextKeeps(s, k); } else { InstallFreeKeeps(s, k); }
  }

  lemma InstallNextKeeps(s: State, k: Key)
    requires Inv(s) && CanInstall(s, k) && s.rels[k].stage.Ready? && RelOk(s, k)
    ensures Inv(DoInstall(s, k))
  {
    var s' := DoInstall(s, k);
    forall j ensures KeyInv(s', j) {
      if j != k { FrameKey(s, s', j); } else { InstallNextKey(s, k); }
    }
  }

  lemma InstallFreeKeeps(s: State, k: Key)
    requires Inv(s) && CanInstall(s, k) && s.rels[k].stage.Empty? && RelOk(s, k)
    ensures Inv(DoInstall(s, k))
  {
    var s' := DoInstall(s, k);
    forall j ensures KeyInv(s', j) {
      if j != k { FrameKey(s, s', j); } else { InstallFreeKey(s, k); }
    }
  }

  lemma InstallFreeKey(s: State, k: Key)
    requires Base(s) && KeyInv(s, k) && CanInstall(s, k) && s.rels[k].stage.Empty?
    ensures KeyInv(DoInstall(s, k), k)
  {
    var s' := DoInstall(s, k);
    assert RelOk(s, k);
    assert Line(s, k) == [] == Line(s', k);
    forall n ensures QId(n, k) !in s.queues { assert QId(n, k) in s.queues ==> QueueOk(s, n, k); }
    assert forall t :: IsQueued(s, t, k) ==> QueuedOk(s, t, k);
    forall t | t in s'.txns ensures OwnOk(s', t, k) { assert OwnOk(s, t, k); }
    forall t | HasSeen(s', t, k) ensures Snapshot(s', k, s'.txns[t].phase.lock) {
      assert HasSeen(s, t, k);
      assert Snapshot(s, k, s.txns[t].phase.lock);
    }
    forall m | m in s'.msgs && m.key == k ensures MsgOk(s', m) { InstallFreeMsg(s, m); }
  }

  lemma InstallFreeMsg(s: State, m: Msg)
    requires Base(s) && KeyInv(s, m.key) && CanInstall(s, m.key) && s.rels[m.key].stage.Empty? && m in s.msgs
    ensures MsgOk(DoInstall(s, m.key), m)
  {
    var k := m.key;
    var s' := DoInstall(s, k);
    assert RelOk(s, k);
    assert MsgOk(s, m);
    assert WaitPart(s, k);
  }

  lemma InstallNextKey(s: State, k: Key)
    requires Base(s) && KeyInv(s, k) && CanInstall(s, k) && s.rels[k].stage.Ready?
    ensures KeyInv(DoInstall(s, k), k)
  {
    var s' := DoInstall(s, k);
    var h := s.rels[k].stage.h;
    InstallNextStructure(s, k);
    forall t | IsQueued(s', t, k) ensures QueuedOk(s', t, k) { InstallNextQueued(s, k, t); }
    forall m | m in s'.msgs && m.key == k ensures MsgOk(s', m) { InstallNextMsg(s, m); }
  }

  lemma InstallNextLine(s: State, k: Key)
    requires Base(s) && KeyInv(s, k) && CanInstall(s, k) && s.rels[k].stage.Ready?
    ensures var h := s.rels[k].stage.h;
      && Line(DoInstall(s, k), k) == Line(s, k) == h.tail && AtOwner(DoInstall(s, k), k)
      && RelOk(s, k) && QueueOk(s, h.next.node, k)
      && (forall n :: QId(n, k) in s.queues <==> n == h.next.node)
  {
    var h := s.rels[k].stage.h;
    assert RelOk(s, k);
    assert QueueOk(s, h.next.node, k);
    forall n | QId(n, k) in s.queues ensures n == h.next.node { assert QueueOk(s, n, k); }
  }

  lemma InstallNextStructure(s: State, k: Key)
    requires Base(s) && KeyInv(s, k) && CanInstall(s, k) && s.rels[k].stage.Ready?
    ensures var s' := DoInstall(s, k);
      LockPart(s', k) && LineOk(s', k) && RelPart(s', k) && QueuePart(s', k)
      && SeenPart(s', k) && OwnPart(s', k) && GonePart(s', k)
  {
    var s' := DoInstall(s, k);
    var h := s.rels[k].stage.h;
    InstallNextLine(s, k);
    forall w | w in Line(s', k) ensures InLineOk(s', k, w) { assert InLineOk(s, k, w); }
    forall t | t in s'.txns ensures OwnOk(s', t, k) { assert OwnOk(s, t, k); }
    forall t | HasSeen(s', t, k) ensures Snapshot(s', k, s'.txns[t].phase.lock) {
      assert HasSeen(s, t, k);
      assert Snapshot(s, k, s.txns[t].phase.lock);
    }
    assert LocalOk(s, h.next.ts);
  }

  lemma InstallNextQueued(s: State, k: Key, t: Ts)
    requires Base(s) && KeyInv(s, k) && CanInstall(s, k) && s.rels[k].stage.Ready? && IsQueued(DoInstall(s, k), t, k)
    ensures QueuedOk(DoInstall(s, k), t, k)
  {
    InstallNextLine(s, k);
    assert IsQueued(s, t, k);
    assert QueuedOk(s, t, k);
  }

  lemma InstallNextMsg(s: State, m: Msg)
    requires Base(s) && KeyInv(s, m.key) && CanInstall(s, m.key) && s.rels[m.key].stage.Ready? && m in s.msgs
    ensures MsgOk(DoInstall(s, m.key), m)
  {
    InstallNextLine(s, m.key);
    assert MsgOk(s, m);
  }

  // ----- the grant is published -----

  lemma PublicationKeeps(s: State, k: Key)
    requires Inv(s) && CanPublish(s, k)
    ensures Inv(DoPublish(s, k))
  {
    var s' := DoPublish(s, k);
    forall j ensures KeyInv(s', j) {
      if j != k { FrameKey(s, s', j); } else { PublicationKey(s, k); }
    }
  }

  lemma PublicationKey(s: State, k: Key)
    requires Base(s) && KeyInv(s, k) && CanPublish(s, k)
    ensures KeyInv(DoPublish(s, k), k)
  {
    var s' := DoPublish(s, k);
    assert RelOk(s, k);
    assert Line(s', k) == Line(s, k);
    forall n, t | Gone(n, t, k) in s'.gone ensures GoneOk(s', n, t, k) { assert GoneOk(s, n, t, k); }
    forall t | IsQueued(s', t, k) ensures QueuedOk(s', t, k) { assert QueuedOk(s, t, k); }
    forall m | m in s'.msgs && m.key == k ensures MsgOk(s', m) { PublicationMsg(s, m); }
  }

  lemma PublicationMsg(s: State, m: Msg)
    requires Base(s) && KeyInv(s, m.key) && CanPublish(s, m.key) && m in DoPublish(s, m.key).msgs
    ensures MsgOk(DoPublish(s, m.key), m)
  {
    var k := m.key;
    var h := s.rels[k].stage.h;
    var s' := DoPublish(s, k);
    assert RelOk(s, k);
    assert Line(s', k) == Line(s, k);
    if m in s.msgs { assert MsgOk(s, m); }
  }
}
