/**
 The invariant of the tuple-lock protocol: what every reachable state keeps,
 stated per transaction, per lock, per unlock, per queue and per message.
 */
module HandoffInv {
  import opened Options
  import opened LockWaitTypes
  import opened Handoff

  // ----- the line of a key -----

  /** Does the unlock of `k`, if any, still leave the queue with the lock's owner? */
  predicate AtOwner(s: State, k: Key) {
    k !in s.rels || s.rels[k].stage.Frozen? || s.rels[k].stage.Installed?
  }

  /** Everybody who waits in line for `k`, wherever the queue is at the moment. */
  function Line(s: State, k: Key): seq<Waiter> {
    if k !in s.locks then []
    else if AtOwner(s, k) then
      var q := QueueAt(s, s.locks[k].lockNode, k);
      if q.Some? then q.value.waiters else []
    else match NextOf(s.rels[k].stage)
      case Some(h) => h.tail
      case None => []
  }

  ghost predicate Distinct(line: seq<Waiter>) {
    forall i, j :: 0 <= i < j < |line| ==> line[i].ts != line[j].ts
  }

  // ----- states of one wait episode -----

  predicate IsQueued(s: State, t: Ts, k: Key) {
    t in s.txns && s.txns[t].phase == Queued(k) && t in s.waits
  }

  predicate IsWaiting(s: State, t: Ts, k: Key) {
    IsQueued(s, t, k) && s.waits[t].flag == WAITING
  }

  predicate IsReserved(s: State, t: Ts, k: Key, source: Ts, version: nat) {
    IsQueued(s, t, k) && s.waits[t].flag == RESERVED &&
    s.waits[t].reservation == Reservation(k, source, version)
  }

  predicate IsEnding(s: State, t: Ts) {
    t in s.txns && s.txns[t].phase == Ending
  }

  /** The recorded edge still names the unlocking holder. */
  predicate OldEdge(s: State, w: WaitState, h: Handoff) {
    w.holder == h.source && Home(s, h.source, w.holderNode) && w.holderVersion < h.version
  }

  /** The recorded edge names the successor. */
  predicate NewEdge(w: WaitState, h: Handoff) {
    w.holder == h.next.ts && w.holderNode == h.next.node && w.holderVersion == h.version
  }

  /** The holder update for node `n` was sent and has not arrived yet. */
  predicate UpdateDue(s: State, k: Key, h: Handoff, n: Node) {
    n != h.next.node && UpdateMsg(k, h, n) in s.msgs && UpdateMsg(k, h, n) !in s.delivered
  }

  predicate EdgeOk(s: State, t: Ts, k: Key)
    requires t in s.txns && t in s.waits && k in s.locks
  {
    var w := s.waits[t];
    if AtOwner(s, k) then
      && w.holder == s.locks[k].owner && w.holderNode == s.locks[k].holderNode
      && QId(s.locks[k].lockNode, k) in s.queues
      && w.holderVersion <= s.queues[QId(s.locks[k].lockNode, k)].version
    else
      match s.rels[k].stage
      case Asking(h) =>
        if IsReserved(s, h.next.ts, k, h.source, h.version)
        then NewEdge(w, h) || (OldEdge(s, w, h) && UpdateDue(s, k, h, s.txns[t].home))
        else OldEdge(s, w, h)
      case Updating(h) => NewEdge(w, h) || (OldEdge(s, w, h) && UpdateDue(s, k, h, s.txns[t].home))
      case Ready(h) => NewEdge(w, h)
      case _ => false
  }

  predicate Candidate(s: State, t: Ts, k: Key) {
    k in s.rels && s.rels[k].stage.Asking? && s.rels[k].stage.h.next.ts == t
  }

  predicate QueuedOk(s: State, t: Ts, k: Key)
    requires t in s.txns && t in s.waits
  {
    var w := s.waits[t];
    k in s.locks &&
    match w.flag
    case WAITING =>
      if Candidate(s, t, k) then OldEdge(s, w, s.rels[k].stage.h)
      else Waiter(t, s.txns[t].home) in Line(s, k) && EdgeOk(s, t, k)
    case RESERVED =>
      && w.reservation.Reservation? && w.reservation.key == k
      && if k in s.rels
         then NextOf(s.rels[k].stage).Some? && NextOf(s.rels[k].stage).value.next.ts == t
         else s.locks[k].owner == t
              && Publish(k, w.reservation.source, Waiter(t, s.txns[t].home), w.reservation.version) in s.msgs
    case GRANTED => k !in s.rels && s.locks[k].owner == t && w.reservation.Reservation? && w.reservation.key == k
  }

  /** A lock read some time ago: still current, or its owner is past it for good. */
  predicate Snapshot(s: State, k: Key, l: Lock) {
    && Home(s, l.owner, l.holderNode)
    && ((k in s.locks && s.locks[k] == l)
        || (IsEnding(s, l.owner) &&
            (Gone(l.lockNode, l.owner, k) in s.gone || Live(l.lockNode, l.owner) !in s.live)))
  }

  // ----- the invariant, key by key -----

  /** What the phase of a transaction says about its wait record. */
  predicate LocalOk(s: State, t: Ts)
    requires t in s.txns
  {
    var x := s.txns[t];
    && (t in s.waits <==> x.phase.Registering? || x.phase.Queued? || x.phase.Turned?)
    && (t in s.waits ==> s.waits[t].key == x.phase.key)
    && (t in s.waits && s.waits[t].flag == WAITING ==> s.waits[t].reservation == Unreserved)
    && (x.phase.Registering? || x.phase.Turned? ==> s.waits[t].flag == WAITING && s.waits[t].holderVersion == 0)
    && (x.phase.Registering? ==>
          s.waits[t].holder == x.phase.lock.owner && s.waits[t].holderNode == x.phase.lock.holderNode)
    && (x.phase.Saw? || x.phase.Registering? || x.phase.Turned? ==>
          x.phase.key !in x.queuedOn && x.phase.key !in x.held)
    && (x.phase.Queued? ==> x.phase.key in x.queuedOn)
    && (x.phase != Ending ==> Live(x.home, t) in s.live)
  }

  ghost predicate Base(s: State) {
    && (forall t :: t in s.txns ==> LocalOk(s, t))
    && (forall t :: t in s.waits ==> t in s.txns)
    && (forall l :: l in s.live ==> l.ts in s.txns)
    && s.delivered <= s.msgs
  }

  /** A transaction that has read a foreign lock on `k` and not yet registered for it. */
  predicate HasSeen(s: State, t: Ts, k: Key) {
    t in s.txns && (s.txns[t].phase.Saw? || s.txns[t].phase.Registering?) && s.txns[t].phase.key == k
  }

  /** A lock always names a transaction that holds it or is pinned to take it over. */
  predicate LockOk(s: State, k: Key)
    requires k in s.locks
  {
    var l := s.locks[k];
    && Home(s, l.owner, l.holderNode)
    && Live(l.lockNode, l.owner) in s.live
    && (|| k in s.txns[l.owner].held
        || s.txns[l.owner].phase == Retry(k)
        || (IsQueued(s, l.owner, k) && s.waits[l.owner].flag != WAITING))
  }

  predicate InLineOk(s: State, k: Key, w: Waiter) {
    && Home(s, w.ts, w.node) && k in s.txns[w.ts].queuedOn && k !in s.txns[w.ts].held
    && (IsWaiting(s, w.ts, k) || IsEnding(s, w.ts))
  }

  ghost predicate LineOk(s: State, k: Key) {
    Distinct(Line(s, k)) && forall w :: w in Line(s, k) ==> InLineOk(s, k, w)
  }

  /** The successor part of an unlock. */
  predicate NextOk(s: State, k: Key, r: Release, h: Handoff) {
    && h.source == r.source && h.version > 0
    && r.before == r.skipped + [h.next] + h.tail
    && Home(s, h.next.ts, h.next.node)
    && k in s.txns[h.next.ts].queuedOn
    && h.next.ts != h.source
    && !InQueue(h.tail, h.next.ts)
  }

  predicate AskingOk(s: State, k: Key, r: Release, h: Handoff) {
    && h.next.node != r.node && Reserve(k, h) in s.msgs
    && QId(r.node, k) in s.queues
    && (|| ((IsWaiting(s, h.next.ts, k) || IsEnding(s, h.next.ts)) && QId(h.next.node, k) !in s.queues)
        || (IsReserved(s, h.next.ts, k, h.source, h.version) && QId(h.next.node, k) in s.queues
            && UpdateMsgs(k, h) <= s.msgs))
  }

  predicate PinnedOk(s: State, k: Key, h: Handoff) {
    QId(h.next.node, k) in s.queues && IsReserved(s, h.next.ts, k, h.source, h.version)
  }

  predicate StageOk(s: State, k: Key, r: Release) {
    match r.stage
    case Frozen => r.before == r.skipped + Line(s, k)
    case Empty => r.before == r.skipped
    case Asking(h) => NextOk(s, k, r, h) && AskingOk(s, k, r, h)
    case Updating(h) =>
      NextOk(s, k, r, h) && PinnedOk(s, k, h) && h.next.node == r.node && UpdateMsgs(k, h) <= s.msgs
    case Ready(h) => NextOk(s, k, r, h) && PinnedOk(s, k, h)
    case Installed(h) =>
      NextOk(s, k, r, h) && PinnedOk(s, k, h) && k in s.locks && s.locks[k] == Lock(h.next.ts, h.next.node, h.next.node)
      && h.tail <= Line(s, k)
  }

  ghost predicate RelOk(s: State, k: Key)
    requires k in s.rels
  {
    var r := s.rels[k];
    && k in s.locks && IsEnding(s, r.source)
    && (forall w :: w in r.skipped ==> IsEnding(s, w.ts))
    && (!r.stage.Installed? ==>
          && s.locks[k].owner == r.source && s.locks[k].lockNode == r.node
          && k in s.txns[r.source].held && Gone(r.node, r.source, k) in s.gone)
    && StageOk(s, k, r)
  }

  predicate QueueOk(s: State, n: Node, k: Key)
    requires QId(n, k) in s.queues
  {
    var q := s.queues[QId(n, k)];
    k in s.locks &&
    if AtOwner(s, k) then n == s.locks[k].lockNode && q.owner == s.locks[k].owner
    else
      match s.rels[k].stage
      case Asking(h) =>
        || (n == s.rels[k].node && q == Queue(h.source, h.version, h.tail))
        || (n == h.next.node && q == Queue(h.next.ts, h.version, h.tail))
      case Updating(h) => n == h.next.node && q == Queue(h.next.ts, h.version, h.tail)
      case Ready(h) => n == h.next.node && q == Queue(h.next.ts, h.version, h.tail)
      case _ => false
  }

  predicate OwnOk(s: State, t: Ts, k: Key)
    requires t in s.txns
  {
    var x := s.txns[t];
    && (k in x.held ==> k in s.locks && s.locks[k].owner == t)
    && (k in x.queuedOn ==>
          || IsQueued(s, t, k) || k in x.held || x.phase == Ending
          || (x.phase == Retry(k) && k in s.locks && s.locks[k].owner == t))
  }

  predicate GoneOk(s: State, n: Node, t: Ts, k: Key) {
    && IsEnding(s, t) && Live(n, t) in s.live
    && (k in s.txns[t].held ==> k in s.rels && s.rels[k].source == t)
  }

  /** An update with this key and version cannot change the episode of `ts` any more. */
  predicate Applied(s: State, k: Key, version: nat, ts: Ts) {
    IsQueued(s, ts, k) ==> version <= s.waits[ts].holderVersion
  }

  /** The unlock of `k` is distributing exactly this update. */
  predicate Distributing(s: State, k: Key, version: nat, holder: Waiter) {
    && k in s.rels
    && match s.rels[k].stage
       case Asking(h) =>
         IsReserved(s, h.next.ts, k, h.source, h.version) && h.version == version && h.next == holder
       case Updating(h) => h.version == version && h.next == holder
       case _ => false
  }

  predicate UpdateOk(s: State, m: Msg, ts: Ts)
    requires m.Update?
  {
    && Home(s, ts, m.at) && m.key in s.txns[ts].queuedOn
    && (Applied(s, m.key, m.version, ts)
        || (m !in s.delivered && Distributing(s, m.key, m.version, m.holder)
            && Waiter(ts, m.at) in Line(s, m.key) && IsWaiting(s, ts, m.key)))
  }

  ghost predicate ReserveOk(s: State, k: Key, h: Handoff) {
    var m := Reserve(k, h);
    && h.version > 0
    && Home(s, h.next.ts, h.next.node) && k in s.txns[h.next.ts].queuedOn
    && !InQueue(Line(s, k), h.next.ts)
    && (forall ts :: ts in OnNode(h.tail, h.next.node) ==> Home(s, ts, h.next.node) && k in s.txns[ts].queuedOn)
    && (IsWaiting(s, h.next.ts, k) ==> Outstanding(s, k, h) && m !in s.delivered)
    && (IsQueued(s, h.next.ts, k) && s.waits[h.next.ts].flag != WAITING ==>
          && s.waits[h.next.ts].reservation == Reservation(k, h.source, h.version)
          && UpdateMsgs(k, h) <= s.msgs
          && forall ts :: ts in OnNode(h.tail, h.next.node) ==> Applied(s, k, h.version, ts))
    && (m in s.delivered && Outstanding(s, k, h) ==>
          if IsEnding(s, h.next.ts) then Reply(k, h, false) in s.msgs else Accepting(k, h) in s.msgs)
  }

  predicate PublishOk(s: State, m: Msg)
    requires m.Publish?
  {
    && m.version > 0
    && Home(s, m.next.ts, m.next.node) && m.key in s.txns[m.next.ts].queuedOn
    && (IsQueued(s, m.next.ts, m.key) ==>
          && s.waits[m.next.ts].flag != WAITING
          && s.waits[m.next.ts].reservation == Reservation(m.key, m.source, m.version)
          && m.key !in s.rels && m.key in s.locks && s.locks[m.key].owner == m.next.ts
          && (m in s.delivered ==> s.waits[m.next.ts].flag == GRANTED))
  }

  ghost predicate MsgOk(s: State, m: Msg) {
    match m
    case Reserve(k, h) => ReserveOk(s, k, h)
    case Accepting(k, h) =>
      && Reserve(k, h) in s.msgs
      && (Outstanding(s, k, h) ==> IsReserved(s, h.next.ts, k, h.source, h.version))
    case Reply(k, h, ok) =>
      && Reserve(k, h) in s.msgs
      && (Outstanding(s, k, h) ==>
            if ok then IsReserved(s, h.next.ts, k, h.source, h.version) && AllUpdated(s, k, h)
            else IsEnding(s, h.next.ts))
    case Publish(_, _, _, _) => PublishOk(s, m)
    case Update(_, _, _, _, list) => forall ts :: ts in list ==> UpdateOk(s, m, ts)
  }

  ghost predicate LockPart(s: State, k: Key) { k in s.locks ==> LockOk(s, k) }
  ghost predicate RelPart(s: State, k: Key) { k in s.rels ==> RelOk(s, k) }
  ghost predicate QueuePart(s: State, k: Key) { forall n :: QId(n, k) in s.queues ==> QueueOk(s, n, k) }
  ghost predicate WaitPart(s: State, k: Key) { forall t :: IsQueued(s, t, k) ==> QueuedOk(s, t, k) }
  ghost predicate SeenPart(s: State, k: Key) { forall t :: HasSeen(s, t, k) ==> Snapshot(s, k, s.txns[t].phase.lock) }
  ghost predicate OwnPart(s: State, k: Key) { forall t :: t in s.txns ==> OwnOk(s, t, k) }
  ghost predicate GonePart(s: State, k: Key) { forall n, t :: Gone(n, t, k) in s.gone ==> GoneOk(s, n, t, k) }
  ghost predicate MsgPart(s: State, k: Key) { forall m :: m in s.msgs && m.key == k ==> MsgOk(s, m) }

  ghost predicate KeyInv(s: State, k: Key) {
    && LockPart(s, k) && LineOk(s, k) && RelPart(s, k) && QueuePart(s, k) && WaitPart(s, k)
    && SeenPart(s, k) && OwnPart(s, k) && GonePart(s, k) && MsgPart(s, k)
  }

  ghost predicate Inv(s: State) {
    Base(s) && forall k :: KeyInv(s, k)
  }
}
