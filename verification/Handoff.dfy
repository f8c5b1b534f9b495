/**
 The cluster-wide tuple-lock protocol as a step system. Every region the code
 runs under one mutex or under one exclusive page is one step; every RPC is a
 message that stays deliverable for ever, so that any delay and any number of
 repeated deliveries are among the runs.
 */
module Handoff {
  import opened Options
  import opened LockWaitTypes

  /** The lock fields stored in a tuple: owner, its home, and the node that manages the lock. */
  datatype Lock = Lock(owner: Ts, holderNode: Node, lockNode: Node)

  datatype Phase =
    | Running
    | Saw(key: Key, lock: Lock)          // read a foreign lock, page released
    | Registering(key: Key, lock: Lock)  // locally recorded, registration under way
    | Queued(key: Key)                   // registration answered "wait"
    | Turned(key: Key)                   // registration answered "re-read the tuple"
    | Retry(key: Key)                    // WaitForLock said GRANTED_RETRY
    | Ending                             // commit or rollback has begun

  /** `queuedOn` remembers every key the transaction was ever queued on. */
  datatype Txn = Txn(home: Node, phase: Phase, held: set<Key>, queuedOn: set<Key>)

  datatype Handoff = Handoff(source: Ts, next: Waiter, version: nat, tail: seq<Waiter>)

  datatype Stage =
    | Frozen                  // released mark set, no candidate taken yet
    | Asking(h: Handoff)      // RESERVE sent to the candidate's node
    | Updating(h: Handoff)    // local candidate pinned, holder updates under way
    | Ready(h: Handoff)       // PrepareHandoff returned a successor
    | Empty                   // PrepareHandoff returned without a successor
    | Installed(h: Handoff)   // owner bytes written, grant not yet published

  /** One unlock: `before` is the queue when it was frozen, `skipped` the refused candidates. */
  datatype Release = Release(source: Ts, node: Node, before: seq<Waiter>, skipped: seq<Waiter>, stage: Stage)

  datatype Msg =
    | Reserve(key: Key, h: Handoff)
    | Accepting(key: Key, h: Handoff)    // reservation made, answer waits for the holder updates
    | Reply(key: Key, h: Handoff, ok: bool)
    | Publish(key: Key, source: Ts, next: Waiter, version: nat)
    | Update(key: Key, version: nat, holder: Waiter, at: Node, list: seq<Ts>)

  datatype QId = QId(node: Node, key: Key)
  datatype Live = Live(node: Node, ts: Ts)
  datatype Gone = Gone(node: Node, ts: Ts, key: Key)
  datatype Listed = Listed(node: Node, ts: Ts, key: Key)

  datatype State = State(
    txns: map<Ts, Txn>,
    waits: map<Ts, WaitState>,      // local_waiters_ of all nodes; the home says which
    locks: map<Key, Lock>,          // tuple bytes; absent means UNLOCKED
    queues: map<QId, Queue>,        // local_queues_ of all nodes
    index: set<Listed>,             // holder_keys_ of all nodes, edited where the code edits it
    rels: map<Key, Release>,        // unlocks under way
    live: set<Live>,                // active_txs_ of all nodes
    gone: set<Gone>,                // forwarded_keys_ of all nodes
    msgs: set<Msg>,                 // everything ever sent
    delivered: set<Msg>)            // everything ever delivered

  ghost predicate Init(s: State) {
    s == State(map[], map[], map[], map[], {}, map[], {}, {}, {}, {})
  }

  // ----- reading the state -----

  predicate Home(s: State, t: Ts, n: Node) {
    t in s.txns && s.txns[t].home == n
  }

  predicate StageIs(s: State, k: Key, st: Stage) {
    k in s.rels && s.rels[k].stage == st
  }

  /** The reserved or asked successor of an unlock, if it has one. */
  function NextOf(st: Stage): Option<Handoff> {
    match st
    case Frozen => None
    case Empty => None
    case Asking(h) => Some(h)
    case Updating(h) => Some(h)
    case Ready(h) => Some(h)
    case Installed(h) => Some(h)
  }

  function QueueAt(s: State, n: Node, k: Key): Option<Queue> {
    if QId(n, k) in s.queues then Some(s.queues[QId(n, k)]) else None
  }

  function SetQueue(queues: map<QId, Queue>, n: Node, k: Key, q: Option<Queue>): map<QId, Queue> {
    match q
    case None => queues - {QId(n, k)}
    case Some(queue) => queues[QId(n, k) := queue]
  }

  /** Applies a holder update to the episodes recorded on node `n`. */
  function RelabelAt(s: State, waits: map<Ts, WaitState>, n: Node, list: seq<Ts>,
                     key: Key, version: nat, holder: Waiter): map<Ts, WaitState>
  {
    map t | t in waits :: if t in list && Home(s, t, n) then Relabel(waits[t], key, version, holder) else waits[t]
  }

  function UpdateMsg(k: Key, h: Handoff, n: Node): Msg {
    Update(k, h.version, h.next, n, OnNode(h.tail, n))
  }

  /** The holder updates a reservation sends to every other node of its tail. */
  function UpdateMsgs(k: Key, h: Handoff): set<Msg> {
    set i | 0 <= i < |h.tail| && h.tail[i].node != h.next.node :: UpdateMsg(k, h, h.tail[i].node)
  }

  predicate AllUpdated(s: State, k: Key, h: Handoff) {
    UpdateMsgs(k, h) <= s.delivered
  }

  // ----- a transaction takes and waits for tuples -----

  function WithPhase(s: State, t: Ts, p: Phase): State
    requires t in s.txns
  {
    s.(txns := s.txns[t := s.txns[t].(phase := p)])
  }

  /** Ready to look at tuple `k` under its exclusive page. */
  predicate CanLook(s: State, t: Ts, k: Key) {
    t in s.txns && (s.txns[t].phase == Running || s.txns[t].phase == Retry(k))
  }

  predicate CanBegin(s: State, t: Ts) { t !in s.txns }

  function DoBegin(s: State, t: Ts, n: Node): State {
    s.(txns := s.txns[t := Txn(n, Running, {}, {})], live := s.live + {Live(n, t)})
  }

  /** The tuple is free: lock it. `n` is the node that will manage the lock. */
  predicate CanLock(s: State, t: Ts, k: Key) { CanLook(s, t, k) && k !in s.locks }

  function DoLock(s: State, t: Ts, k: Key, n: Node): State
    requires CanLock(s, t, k)
  {
    var x := s.txns[t];
    s.(txns := s.txns[t := x.(phase := Running, held := x.held + {k})],
       locks := s.locks[k := Lock(t, x.home, n)],
       live := s.live + {Live(n, t)})
  }

  /** The tuple already names this transaction: record it as held. */
  predicate CanOwn(s: State, t: Ts, k: Key) {
    CanLook(s, t, k) && k in s.locks && s.locks[k].owner == t
  }

  function DoOwn(s: State, t: Ts, k: Key): State
    requires CanOwn(s, t, k)
  {
    var x := s.txns[t];
    s.(txns := s.txns[t := x.(phase := Running, held := x.held + {k})])
  }

  predicate CanSee(s: State, t: Ts, k: Key) {
    CanLook(s, t, k) && k in s.locks && s.locks[k].owner != t
  }

  function DoSee(s: State, t: Ts, k: Key): State
    requires CanSee(s, t, k)
  {
    WithPhase(s, t, Saw(k, s.locks[k]))
  }

  /** RegisterLocalWaiter, always before the registration is sent. */
  predicate CanEnroll(s: State, t: Ts) { t in s.txns && s.txns[t].phase.Saw? }

  function DoEnroll(s: State, t: Ts): State
    requires CanEnroll(s, t)
  {
    var p := s.txns[t].phase;
    WithPhase(s, t, Registering(p.key, p.lock))
      .(waits := s.waits[t := FreshWait(p.key, p.lock.owner, p.lock.holderNode)])
  }

  predicate CanRegister(s: State, t: Ts) { t in s.txns && s.txns[t].phase.Registering? }

  function RegisterAnswer(s: State, t: Ts): (Option<Queue>, bool)
    requires CanRegister(s, t)
  {
    var x := s.txns[t];
    var l := x.phase.lock;
    var k := x.phase.key;
    Register(QueueAt(s, l.lockNode, k), Live(l.lockNode, l.owner) in s.live,
             Gone(l.lockNode, l.owner, k) in s.gone, l.owner, Waiter(t, x.home))
  }

  function DoRegister(s: State, t: Ts): State
    requires CanRegister(s, t)
  {
    var x := s.txns[t];
    var l := x.phase.lock;
    var k := x.phase.key;
    var (q, again) := RegisterAnswer(s, t);
    if again then WithPhase(s, t, Turned(k))
    else s.(txns := s.txns[t := x.(phase := Queued(k), queuedOn := x.queuedOn + {k})],
            queues := SetQueue(s.queues, l.lockNode, k, q),
            index := if QId(l.lockNode, k) in s.queues then s.index else s.index + {Listed(l.lockNode, l.owner, k)})
  }

  /** Told to re-read: leave the wait unless a reservation pins it. */
  predicate CanTurn(s: State, t: Ts) {
    t in s.txns && s.txns[t].phase.Turned? && t in s.waits
  }

  function DoTurn(s: State, t: Ts): State
    requires CanTurn(s, t)
  {
    var k := s.txns[t].phase.key;
    if s.waits[t].flag == RESERVED then WithPhase(s, t, Queued(k))
    else WithPhase(s, t, Retry(k)).(waits := s.waits - {t})
  }

  /** The grant was published: leave the wait and look again. */
  predicate CanWake(s: State, t: Ts) {
    t in s.txns && s.txns[t].phase.Queued? && t in s.waits && s.waits[t].flag == GRANTED
  }

  function DoWake(s: State, t: Ts): State
    requires CanWake(s, t)
  {
    WithPhase(s, t, Retry(s.txns[t].phase.key)).(waits := s.waits - {t})
  }

  /** The chain walk reported a cycle: TryUnregisterLocalWaiter, then roll back. */
  predicate CanVictim(s: State, t: Ts) {
    t in s.txns && s.txns[t].phase.Queued? && t in s.waits && s.waits[t].flag == WAITING
  }

  function DoVictim(s: State, t: Ts): State
    requires CanVictim(s, t)
  {
    WithPhase(s, t, Ending).(waits := s.waits - {t})
  }

  predicate CanEnd(s: State, t: Ts) { t in s.txns && s.txns[t].phase == Running }

  function DoEnd(s: State, t: Ts): State
    requires CanEnd(s, t)
  {
    WithPhase(s, t, Ending)
  }

  /** FinishTx on node `n`, after every unlock there has been delivered. */
  predicate CanFinish(s: State, t: Ts, n: Node) {
    && t in s.txns && s.txns[t].phase == Ending
    && (forall k :: k in s.txns[t].held && k in s.locks ==> s.locks[k].lockNode != n)
    && (forall k :: k in s.rels && s.rels[k].source == t ==> s.rels[k].node != n)
  }

  function DoFinish(s: State, t: Ts, n: Node): State {
    s.(live := s.live - {Live(n, t)},
       gone := (set g | g in s.gone && !(g.node == n && g.ts == t)),
       index := (set l | l in s.index && !(l.node == n && l.ts == t)))
  }

  // ----- a holder unlocks a tuple -----

  predicate CanFreeze(s: State, k: Key) {
    && k in s.locks && k !in s.rels
    && s.locks[k].owner in s.txns
    && s.txns[s.locks[k].owner].phase == Ending
    && k in s.txns[s.locks[k].owner].held
  }

  function DoFreeze(s: State, k: Key): State
    requires CanFreeze(s, k)
  {
    var l := s.locks[k];
    var q := QueueAt(s, l.lockNode, k);
    var before := if q.Some? then q.value.waiters else [];
    s.(gone := s.gone + {Gone(l.lockNode, l.owner, k)},
       rels := s.rels[k := Release(l.owner, l.lockNode, before, [], Frozen)])
  }

  /** One round of the loop in PrepareHandoff, up to the RESERVE message. */
  predicate CanPop(s: State, k: Key) { StageIs(s, k, Frozen) }

  function Popped(s: State, k: Key): Option<(Handoff, Queue)>
    requires CanPop(s, k)
  {
    var r := s.rels[k];
    match QueueAt(s, r.node, k)
    case None => None
    case Some(q) =>
      if q.waiters == [] then None
      else Some((Handoff(r.source, q.waiters[0], q.version + 1, q.waiters[1..]),
                 q.(version := q.version + 1, waiters := q.waiters[1..])))
  }

  predicate LocallyReservable(s: State, k: Key, h: Handoff) {
    Home(s, h.next.ts, h.next.node) && h.next.ts in s.waits &&
    Reservable(s.waits[h.next.ts], k, h.source, h.version)
  }

  /** Pins the successor and relabels the tail recorded on its node. */
  function PinAndRelabel(s: State, k: Key, h: Handoff): map<Ts, WaitState>
    requires h.next.ts in s.waits
  {
    var pinned := s.waits[h.next.ts := Pin(s.waits[h.next.ts], k, h.source, h.version)];
    RelabelAt(s, pinned, h.next.node, OnNode(h.tail, h.next.node), k, h.version, h.next)
  }

  function DoPop(s: State, k: Key): State
    requires CanPop(s, k)
  {
    var r := s.rels[k];
    match Popped(s, k)
    case None =>
      s.(queues := SetQueue(s.queues, r.node, k, None),
         index := if QId(r.node, k) in s.queues then s.index - {Listed(r.node, r.source, k)} else s.index,
         rels := s.rels[k := r.(stage := Empty)])
    case Some((h, q)) =>
      if h.next.node != r.node then
        s.(queues := SetQueue(s.queues, r.node, k, Some(q)),
           rels := s.rels[k := r.(stage := Asking(h))],
           msgs := s.msgs + {Reserve(k, h)})
      else if !LocallyReservable(s, k, h) then
        s.(queues := SetQueue(s.queues, r.node, k, Some(q)),
           rels := s.rels[k := r.(skipped := r.skipped + [h.next])])
      else
        s.(waits := PinAndRelabel(s, k, h),
           queues := SetQueue(s.queues, r.node, k, Some(q.(owner := h.next.ts))),
           index := s.index + {Listed(r.node, h.next.ts, k)} - {Listed(r.node, r.source, k)},
           rels := s.rels[k := r.(stage := Updating(h))],
           msgs := s.msgs + UpdateMsgs(k, h))
  }

  /** SendHolderUpdateRPCs of the local path has returned. */
  predicate CanUpdated(s: State, k: Key) {
    k in s.rels && s.rels[k].stage.Updating? && AllUpdated(s, k, s.rels[k].stage.h)
  }

  function DoUpdated(s: State, k: Key): State
    requires CanUpdated(s, k)
  {
    var r := s.rels[k];
    s.(rels := s.rels[k := r.(stage := Ready(r.stage.h))])
  }

  /** The answer to RESERVE reaches the unlocking node. */
  predicate CanTake(s: State, k: Key, ok: bool) {
    k in s.rels && s.rels[k].stage.Asking? && Reply(k, s.rels[k].stage.h, ok) in s.msgs
  }

  function DoTake(s: State, k: Key, ok: bool): State
    requires CanTake(s, k, ok)
  {
    var r := s.rels[k];
    var h := r.stage.h;
    if ok then
      s.(queues := SetQueue(s.queues, r.node, k, None), index := s.index - {Listed(r.node, r.source, k)},
         rels := s.rels[k := r.(stage := Ready(h))])
    else
      s.(rels := s.rels[k := r.(skipped := r.skipped + [h.next], stage := Frozen)])
  }

  /** UnlockTupleWithHandoff: the owner bytes change under the exclusive page. */
  predicate CanInstall(s: State, k: Key) {
    && k in s.rels && (s.rels[k].stage.Ready? || s.rels[k].stage.Empty?)
    && s.rels[k].source in s.txns
  }

  function DoInstall(s: State, k: Key): State
    requires CanInstall(s, k)
  {
    var r := s.rels[k];
    var x := s.txns[r.source];
    var txns := s.txns[r.source := x.(held := x.held - {k})];
    match r.stage
    case Ready(h) =>
      s.(txns := txns, locks := s.locks[k := Lock(h.next.ts, h.next.node, h.next.node)],
         rels := s.rels[k := r.(stage := Installed(h))])
    case _ =>
      s.(txns := txns, locks := s.locks - {k}, rels := s.rels - {k})
  }

  /** DeliverHandoff, after the page has been released. */
  predicate CanPublish(s: State, k: Key) { k in s.rels && s.rels[k].stage.Installed? }

  function DoPublish(s: State, k: Key): State
    requires CanPublish(s, k)
  {
    var h := s.rels[k].stage.h;
    s.(rels := s.rels - {k}, msgs := s.msgs + {Publish(k, h.source, h.next, h.version)})
  }

  // ----- messages arrive, any number of times -----

  /** Is the unlocking node still waiting for the answer to this RESERVE? */
  predicate Outstanding(s: State, k: Key, h: Handoff) { StageIs(s, k, Asking(h)) }

  /** TryAcceptHandoff. An answer nobody waits for any more is dropped. */
  function DeliverReserve(s: State, k: Key, h: Handoff): State {
    var t := h.next.ts;
    var answer := if Outstanding(s, k, h) then {Accepting(k, h)} else {};
    var refusal := if Outstanding(s, k, h) then {Reply(k, h, false)} else {};
    if !(Home(s, t, h.next.node) && t in s.waits) then s.(msgs := s.msgs + refusal)
    else if s.waits[t].flag != WAITING then
      if !SameReservation(s.waits[t], k, h.source, h.version) then s.(msgs := s.msgs + refusal)
      else if s.waits[t].flag == GRANTED then s.(msgs := s.msgs + answer)
      else
        s.(waits := RelabelAt(s, s.waits, h.next.node, OnNode(h.tail, h.next.node), k, h.version, h.next),
           msgs := s.msgs + UpdateMsgs(k, h) + answer)
    else if !Reservable(s.waits[t], k, h.source, h.version) then s.(msgs := s.msgs + refusal)
    else
      var q := QueueAt(s, h.next.node, k);
      var behind := if q.Some? then q.value.waiters else [];
      s.(waits := PinAndRelabel(s, k, h),
         queues := s.queues[QId(h.next.node, k) := Queue(t, h.version, h.tail + behind)],
         index := s.index + {Listed(h.next.node, t, k)},
         msgs := s.msgs + UpdateMsgs(k, h) + answer)
  }

  /** PublishHandoff: a mismatched or repeated publication changes nothing. */
  function DeliverPublish(s: State, k: Key, source: Ts, next: Waiter, version: nat): State {
    var t := next.ts;
    if Home(s, t, next.node) && t in s.waits && s.waits[t].flag == RESERVED
       && SameReservation(s.waits[t], k, source, version)
    then s.(waits := s.waits[t := s.waits[t].(flag := GRANTED)])
    else s
  }

  predicate CanDeliver(s: State, m: Msg) {
    m in s.msgs && (m.Reserve? || m.Publish? || m.Update?)
  }

  function DoDeliver(s: State, m: Msg): State
    requires CanDeliver(s, m)
  {
    var s' := match m
      case Reserve(k, h) => DeliverReserve(s, k, h)
      case Publish(k, source, next, version) => DeliverPublish(s, k, source, next, version)
      case Update(k, version, holder, at, list) =>
        s.(waits := RelabelAt(s, s.waits, at, list, k, version, holder))
      case _ => s;
    s'.(delivered := s.delivered + {m})
  }

  /** The reserving node answers once all its holder updates were acknowledged. */
  predicate CanAccept(s: State, k: Key, h: Handoff) {
    Accepting(k, h) in s.msgs && AllUpdated(s, k, h)
  }

  function DoAccept(s: State, k: Key, h: Handoff): State {
    s.(msgs := s.msgs + {Reply(k, h, true)})
  }

  // ----- steps and runs -----

  datatype Step =
    | Begin(t: Ts, n: Node) | LockFree(t: Ts, k: Key, n: Node) | Own(t: Ts, k: Key) | See(t: Ts, k: Key)
    | Enroll(t: Ts) | Registration(t: Ts) | Turn(t: Ts) | Wake(t: Ts) | Victim(t: Ts)
    | End(t: Ts) | Finish(t: Ts, n: Node)
    | Freeze(k: Key) | Pop(k: Key) | Updated(k: Key) | Take(k: Key, ok: bool) | Install(k: Key) | Publication(k: Key)
    | Deliver(m: Msg) | Accept(k: Key, h: Handoff)

  predicate Enabled(s: State, e: Step) {
    match e
    case Begin(t, _) => CanBegin(s, t)
    case LockFree(t, k, _) => CanLock(s, t, k)
    case Own(t, k) => CanOwn(s, t, k)
    case See(t, k) => CanSee(s, t, k)
    case Enroll(t) => CanEnroll(s, t)
    case Registration(t) => CanRegister(s, t)
    case Turn(t) => CanTurn(s, t)
    case Wake(t) => CanWake(s, t)
    case Victim(t) => CanVictim(s, t)
    case End(t) => CanEnd(s, t)
    case Finish(t, n) => CanFinish(s, t, n)
    case Freeze(k) => CanFreeze(s, k)
    case Pop(k) => CanPop(s, k)
    case Updated(k) => CanUpdated(s, k)
    case Take(k, ok) => CanTake(s, k, ok)
    case Install(k) => CanInstall(s, k)
    case Publication(k) => CanPublish(s, k)
    case Deliver(m) => CanDeliver(s, m)
    case Accept(k, h) => CanAccept(s, k, h)
  }

  function Apply(s: State, e: Step): State
    requires Enabled(s, e)
  {
    match e
    case Begin(t, n) => DoBegin(s, t, n)
    case LockFree(t, k, n) => DoLock(s, t, k, n)
    case Own(t, k) => DoOwn(s, t, k)
    case See(t, k) => DoSee(s, t, k)
    case Enroll(t) => DoEnroll(s, t)
    case Registration(t) => DoRegister(s, t)
    case Turn(t) => DoTurn(s, t)
    case Wake(t) => DoWake(s, t)
    case Victim(t) => DoVictim(s, t)
    case End(t) => DoEnd(s, t)
    case Finish(t, n) => DoFinish(s, t, n)
    case Freeze(k) => DoFreeze(s, k)
    case Pop(k) => DoPop(s, k)
    case Updated(k) => DoUpdated(s, k)
    case Take(k, ok) => DoTake(s, k, ok)
    case Install(k) => DoInstall(s, k)
    case Publication(k) => DoPublish(s, k)
    case Deliver(m) => DoDeliver(s, m)
    case Accept(k, h) => DoAccept(s, k, h)
  }

  /** `steps` can be taken one after the other from `s`. */
  predicate Legal(s: State, steps: seq<Step>)
    decreases |steps|
  {
    steps == [] || (Enabled(s, steps[0]) && Legal(Apply(s, steps[0]), steps[1..]))
  }

  function After(s: State, steps: seq<Step>): State
    requires Legal(s, steps)
    decreases |steps|
  {
    if steps == [] then s else After(Apply(s, steps[0]), steps[1..])
  }

  /** The states a run goes through. */
  function Trace(s: State, steps: seq<Step>): (tr: seq<State>)
    requires Legal(s, steps)
    ensures |tr| == |steps| + 1 && tr[0] == s
    decreases |steps|
  {
    if steps == [] then [s] else [s] + Trace(Apply(s, steps[0]), steps[1..])
  }
}
