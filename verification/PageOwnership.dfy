/**
 One page in a cluster of any number of nodes: the manager's global lock, the
 local lock of every node, and the Pending and LockSuccess messages on their
 way. A region under one mutex is a step; messages arrive in any order.
 */
module PageOwnership {
  import opened Options
  import opened PageLockTypes

  datatype State = State(
    g: Global,
    nodes: map<Node, Local>,
    pend: map<Node, bool>,     // Pending messages in flight, with their exclusive mark
    grant: map<Node, bool>)    // LockSuccess messages in flight

  ghost predicate Init(s: State) {
    && s.g == FREE && s.pend == map[] && s.grant == map[]
    && forall n :: n in s.nodes ==> s.nodes[n] == FRESH
  }

  function Put(s: State, n: Node, l: Local): State { s.(nodes := s.nodes[n := l]) }

  /** Node `n`, now in state `l`, runs LRPAnyUnLock at the manager. */
  function GiveUp(s: State, n: Node, l: Local): State {
    var h := AnyUnlock(s.g, n);
    Put(s, n, l).(g := h.g, pend := s.pend + h.pendings, grant := s.grant + h.grants)
  }

  datatype Step =
    | LockShared(n: Node) | LockExclusive(n: Node) | Ask(n: Node) | Notice(n: Node) | RemoteOK(n: Node)
    | Unlock(n: Node) | PendingArrives(n: Node) | SuccessArrives(n: Node)
    | BeginEvict(n: Node) | CheckEvict(n: Node) | AskEvict(n: Node) | FinishEvict(n: Node)

  predicate Enabled(s: State, e: Step) {
    e.n in s.nodes &&
    var l := s.nodes[e.n];
    match e
    case LockShared(_) => CanLatchShared(l)
    case LockExclusive(_) => CanLatchExclusive(l)
    case Ask(_) => l.request == Sending
    case Notice(_) => l.request == Waiting && l.success
    case RemoteOK(_) => l.request == Won
    case Unlock(_) => InUse(l)
    case PendingArrives(n) => n in s.pend
    case SuccessArrives(n) => n in s.grant
    case BeginEvict(_) => !l.evicting && !l.released && l.lock == Shared(0) && !l.granting && !l.pending
    case CheckEvict(_) => l.evict == Begun
    case AskEvict(_) => l.evict == Checked
    case FinishEvict(_) => l.evict == Agreed
  }

  /** The request reaches the manager: LRPSLock or LRPXLock. */
  function DoAsk(s: State, n: Node): State
    requires n in s.nodes
  {
    var l := s.nodes[n];
    var a := if l.lock == Exclusive then RequestExclusive(s.g, n) else RequestShared(s.g, n);
    Put(s, n, l.(request := if a.granted then Won else Waiting))
      .(g := a.g, pend := if a.round then s.pend + Targets(a.g) else s.pend)
  }

  function DoPendingArrives(s: State, n: Node): State
    requires n in s.nodes && n in s.pend
  {
    var (l, gone) := OnPending(s.nodes[n], s.pend[n]);
    var s' := s.(pend := s.pend - {n});
    if gone then GiveUp(s', n, l) else Put(s', n, l)
  }

  function DoUnlock(s: State, n: Node): State
    requires n in s.nodes && InUse(s.nodes[n])
  {
    var (l, gone) := Unlatch(s.nodes[n]);
    if gone then GiveUp(s, n, l) else Put(s, n, l)
  }

  /** BufferReleaseUnlock: refused while a round is under way or if the page is already gone. */
  function DoAskEvict(s: State, n: Node): State
    requires n in s.nodes
  {
    var l := s.nodes[n];
    if n !in s.g.holders || s.g.pending then Put(s, n, l.(evicting := false, evict := NoEvict))
    else Put(s, n, l.(evict := Agreed)).(g := Drop(s.g, n))
  }

  function Apply(s: State, e: Step): State
    requires Enabled(s, e)
  {
    var n := e.n;
    var l := s.nodes[n];
    match e
    case LockShared(_) => Put(s, n, LatchShared(l))
    case LockExclusive(_) => Put(s, n, LatchExclusive(l))
    case Ask(_) => DoAsk(s, n)
    case Notice(_) => Put(s, n, l.(success := false, request := Won))
    case RemoteOK(_) => Put(s, n, Own(l))
    case Unlock(_) => DoUnlock(s, n)
    case PendingArrives(_) => DoPendingArrives(s, n)
    case SuccessArrives(_) => Put(s, n, l.(success := true)).(grant := s.grant - {n})
    case BeginEvict(_) => Put(s, n, l.(evicting := true, evict := Begun))
    case CheckEvict(_) =>
      Put(s, n, if l.mode == NONE then l.(evicting := false, evict := NoEvict) else l.(evict := Checked))
    case AskEvict(_) => DoAskEvict(s, n)
    case FinishEvict(_) => Put(s, n, l.(mode := NONE, released := true, evicting := false, evict := NoEvict))
  }

  predicate Legal(s: State, steps: seq<Step>)
    decreases |steps|
  {
    steps == [] || (Enabled(s, steps[0]) && Legal(Apply(s, steps[0]), steps[1..]))
  }

  function After(s: State, steps: seq<Step>): State
    requires Legal(s, steps)
    decreases |steps|
  {
    if steps == [] then s else After(Apply(s, steps[0]), steps[1..])
  }

  // ----- the invariant -----

  ghost predicate DistinctNodes(a: seq<Node>) {
    forall i, j :: 0 <= i < j < |a| ==> a[i] != a[j]
  }

  ghost predicate DistinctReqs(q: seq<Req>) {
    forall i, j :: 0 <= i < j < |q| ==> q[i].node != q[j].node
  }

  predicate Queued(g: Global, n: Node) {
    Req(n, false) in g.queue || Req(n, true) in g.queue
  }

  function CountReaders(queue: seq<Req>): nat { |Readers(queue)| }
  function CountWriters(queue: seq<Req>): nat { |Writers(queue)| }

  /** Some holder stands in the way of the request at the head of the queue. */
  ghost predicate HasTarget(g: Global)
    requires g.queue != []
  {
    exists h :: h in g.holders && h != g.queue[0].node
  }

  /** Lock word, holders, queue, counters, pending flag and round agree with each other. */
  ghost predicate GlobalOk(g: Global) {
    && DistinctNodes(g.holders) && DistinctReqs(g.queue)
    && (if g.lock == Exclusive then |g.holders| == 1 else g.lock.n == |g.holders|)
    && g.sNum == CountReaders(g.queue) && g.xNum == CountWriters(g.queue)
    && (g.pending <==> g.queue != [])
    && (if g.pending then g.src == Some(g.queue[0].node) && HasTarget(g) else g.src == None)
    && (g.pending && g.lock.Shared? ==> g.queue[0].x)
  }

  /** What LockShared and LockExclusive of the manager rely on. */
  predicate MayAsk(g: Global, n: Node, x: bool) {
    !Queued(g, n) && (n in g.holders ==> x && g.lock.Shared?)
  }

  /** What LRPAnyUnLock relies on. */
  predicate MayLeave(g: Global, n: Node) {
    n in g.holders && g.pending && g.src != Some(n)
  }

  /** The current request of the node has been granted, whether or not the node knows it. */
  predicate Granted(l: Local, grant: Option<bool>) {
    l.request == Won || grant.Some? || l.success
  }

  /** The node counts as an owner in its own eyes. */
  predicate Owns(l: Local) { l.mode != NONE && l.evict != Agreed }

  predicate LocalOk(l: Local) {
    && (l.granting <==> l.request != Idle)
    && (l.granting ==> l.lock == Exclusive || (l.lock == Shared(1) && l.mode == NONE))
    && (l.granting ==> l.mode != EXCLUSIVE)
    && (l.evicting <==> l.evict != NoEvict)
    && (l.evicting ==> l.lock == Shared(0) && !l.granting && !l.pending)
    && (l.evict == Agreed ==> l.mode != NONE)
    && (InUse(l) ==> if l.lock == Exclusive then l.mode == EXCLUSIVE else l.mode != NONE)
    && (l.pending ==> l.lock != Shared(0))
    && (l.success ==> l.request == Waiting)
  }

  predicate GrantOk(g: Global, n: Node, l: Local, grant: Option<bool>) {
    && (grant.Some? ==> l.request == Waiting && !l.success && grant.value == (l.lock == Exclusive))
    && (Queued(g, n) <==> l.request == Waiting && !Granted(l, grant))
    && (Queued(g, n) ==> Req(n, l.lock == Exclusive) in g.queue)
    && (l.pending && l.granting ==> Granted(l, grant))
  }

  /** Ownership as the manager and the node see it. */
  predicate HolderOk(g: Global, n: Node, l: Local, grant: Option<bool>) {
    && (n in g.holders <==> Granted(l, grant) || Owns(l))
    && (Granted(l, grant) ==> (g.lock == Exclusive <==> l.lock == Exclusive))
    && (!Granted(l, grant) && Owns(l) ==> (g.lock == Exclusive <==> l.mode == EXCLUSIVE))
  }

  /** A holder in the way of a round has been told exactly once, and nobody else has. */
  predicate ToldOk(g: Global, n: Node, l: Local, pend: Option<bool>) {
    && (pend.Some? || l.pending <==> n in g.holders && g.pending && g.src != Some(n))
    && !(pend.Some? && l.pending)
    && (pend.Some? ==> pend.value == (g.lock == Exclusive))
  }

  predicate NodeOk(g: Global, n: Node, l: Local, pend: Option<bool>, grant: Option<bool>) {
    LocalOk(l) && GrantOk(g, n, l, grant) && HolderOk(g, n, l, grant) && ToldOk(g, n, l, pend)
  }

  function Get(m: map<Node, bool>, n: Node): Option<bool> {
    if n in m then Some(m[n]) else None
  }

  predicate NodeOkIn(s: State, n: Node)
    requires n in s.nodes
  {
    NodeOk(s.g, n, s.nodes[n], Get(s.pend, n), Get(s.grant, n))
  }

  ghost predicate Inv(s: State) {
    && GlobalOk(s.g)
    && (forall n {:trigger NodeOkIn(s, n)} :: n in s.nodes ==> NodeOkIn(s, n))
    && (forall n :: n in s.g.holders || Queued(s.g, n) || n in s.pend || n in s.grant ==> n in s.nodes)
  }
}
