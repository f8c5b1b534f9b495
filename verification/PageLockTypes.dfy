/**
 Lazy-release page ownership, the values: the global lock of one page, kept on
 the page's manager node, and the local lock of that page on each node. The
 functions are the bodies of the two lock classes; the classes and the cluster
 model are both stated with them.
 */
module PageLockTypes {
  import opened Options

  type Node = nat

  /** A lock word: a count of shared users, or the exclusive mark. */
  datatype Word = Shared(n: nat) | Exclusive

  datatype Mode = NONE | SHARED | EXCLUSIVE

  // ----- the global lock -----

  datatype Req = Req(node: Node, x: bool)

  /**
   `src` is the requester a pending round works for; `sNum` and `xNum` count the
   queued shared and exclusive requests.
   */
  datatype Global = Global(
    lock: Word,
    holders: seq<Node>,
    queue: seq<Req>,
    pending: bool,
    src: Option<Node>,
    sNum: int,
    xNum: int)

  const FREE := Global(Shared(0), [], [], false, None, 0, 0)

  function Remove(holders: seq<Node>, n: Node): seq<Node> {
    if holders == [] then []
    else if holders[0] == n then Remove(holders[1..], n)
    else [holders[0]] + Remove(holders[1..], n)
  }

  /** The nodes of the queued shared requests, in order. */
  function Readers(queue: seq<Req>): seq<Node> {
    if queue == [] then []
    else (if queue[0].x then [] else [queue[0].node]) + Readers(queue[1..])
  }

  /** The queued exclusive requests, in order. */
  function Writers(queue: seq<Req>): seq<Req> {
    if queue == [] then []
    else (if queue[0].x then [queue[0]] else []) + Writers(queue[1..])
  }

  /** SetComputenodePending: a pending round for the request at the head of the queue. */
  function StartRound(g: Global): Global
    requires g.queue != []
  {
    g.(pending := true, src := Some(g.queue[0].node))
  }

  /** Whom a round tells to give the page up, and whether it is held exclusively. */
  function Targets(g: Global): map<Node, bool> {
    map n | n in g.holders && g.src != Some(n) :: g.lock == Exclusive
  }

  function Enqueue(g: Global, n: Node, x: bool): Global {
    g.(queue := g.queue + [Req(n, x)],
       sNum := if x then g.sNum else g.sNum + 1,
       xNum := if x then g.xNum + 1 else g.xNum)
  }

  /** The outcome of a request: granted, queued with a new round, or just queued. */
  datatype Answer = Answer(g: Global, granted: bool, round: bool)

  function RequestShared(g: Global, n: Node): Answer {
    if g.lock.Shared? && g.queue == [] then
      Answer(g.(lock := Shared(g.lock.n + 1), holders := g.holders + [n]), true, false)
    else if g.queue == [] then Answer(StartRound(Enqueue(g, n, false)), false, true)
    else Answer(Enqueue(g, n, false), false, false)
  }

  function RequestExclusive(g: Global, n: Node): Answer {
    if g.lock != Shared(0) && !g.pending then
      if g.lock == Shared(1) && g.holders != [] && g.holders[0] == n
      then Answer(g.(lock := Exclusive), true, false)
      else Answer(StartRound(Enqueue(g, n, true)), false, true)
    else if g.lock == Shared(0) && !g.pending then
      Answer(g.(lock := Exclusive, holders := g.holders + [n]), true, false)
    else Answer(Enqueue(g, n, true), false, false)
  }

  /** UnlockAny: node `n` gives its ownership up. */
  function Drop(g: Global, n: Node): Global {
    g.(lock := if g.lock.Shared? && g.lock.n > 0 then Shared(g.lock.n - 1) else Shared(0),
       holders := Remove(g.holders, n))
  }

  /** TransferControl: who owns the page next, if that can be decided already. */
  function Transfer(g: Global): (Global, bool) {
    if g.queue == [] then (g, false)
    else
      var r := g.queue[0];
      var rest := g.queue[1..];
      if g.lock == Shared(0) then
        if r.x then
          (g.(lock := Exclusive, holders := g.holders + [r.node], queue := rest, xNum := g.xNum - 1,
              pending := false), true)
        else
          var all := [r.node] + Readers(rest);
          (g.(lock := Shared(|all|), holders := g.holders + all, queue := Writers(rest),
              sNum := g.sNum - |all|, pending := false), true)
      else if g.lock == Shared(1) && g.holders != [] && g.holders[0] == r.node then
        (g.(lock := Exclusive, queue := rest, xNum := g.xNum - 1, pending := false), true)
      else (g, false)
  }

  /** SendComputenodeLockSuccess: every holder is told; the round's requester is forgotten. */
  function Grants(g: Global): map<Node, bool> {
    map n | n in g.holders :: g.lock == Exclusive
  }

  function Announced(g: Global): Global {
    if g.src.Some? && g.src.value in g.holders then g.(src := None) else g
  }

  /** TransferPending: the next round, if requests are left and none is under way. */
  function NextRound(g: Global): Global {
    if g.pending || g.queue == [] then g else StartRound(g)
  }

  /** What an unlock does to the global lock and which messages it sends. */
  datatype Handover = Handover(g: Global, grants: map<Node, bool>, pendings: map<Node, bool>)

  /** LRPAnyUnLock: UnlockAny, TransferControl, then LockSuccess and TransferPending. */
  function AnyUnlock(g: Global, n: Node): Handover {
    var (next, granted) := Transfer(Drop(g, n));
    if !granted then Handover(next, map[], map[])
    else
      var after := NextRound(Announced(next));
      Handover(after, Grants(next), if next.queue != [] then Targets(after) else map[])
  }

  // ----- the local lock -----

  /** Where the thread that asks the manager stands. */
  datatype Request = Idle | Sending | Waiting | Won

  /** Where an eviction of the page stands. */
  datatype Eviction = NoEvict | Begun | Checked | Agreed

  datatype Local = Local(
    lock: Word,
    mode: Mode,
    pending: bool,
    granting: bool,
    evicting: bool,
    released: bool,
    success: bool,
    request: Request,
    evict: Eviction)

  const FRESH := Local(Shared(0), NONE, false, false, false, true, false, Idle, NoEvict)

  /** Threads of this node may use the page. */
  predicate InUse(l: Local) {
    l.lock != Shared(0) && !l.granting
  }

  predicate InExclusiveUse(l: Local) {
    l.lock == Exclusive && !l.granting
  }

  predicate Blocked(l: Local) { l.granting || l.pending || l.evicting }

  /** LockShared takes the latch now, instead of backing off. */
  predicate CanLatchShared(l: Local) {
    !Blocked(l) && l.lock != Exclusive
  }

  function LatchShared(l: Local): Local
    requires CanLatchShared(l)
  {
    var l' := l.(lock := Shared(l.lock.n + 1));
    if l.mode == NONE then l'.(granting := true, request := Sending) else l'
  }

  predicate CanLatchExclusive(l: Local) {
    !Blocked(l) && l.lock == Shared(0)
  }

  function LatchExclusive(l: Local): Local
    requires CanLatchExclusive(l)
  {
    if l.mode == EXCLUSIVE then l.(lock := Exclusive)
    else l.(lock := Exclusive, granting := true, request := Sending)
  }

  /** LockRemoteOK. */
  function Own(l: Local): Local {
    l.(mode := if l.lock == Exclusive then EXCLUSIVE else SHARED, granting := false, released := false, request := Idle)
  }

  /** The last user leaves: is the ownership given up at once? */
  function Unlatch(l: Local): (Local, bool)
    requires InUse(l)
  {
    var w := if l.lock == Exclusive then Shared(0) else Shared(l.lock.n - 1);
    if w == Shared(0) && l.pending then (l.(lock := w, pending := false, mode := NONE, released := true), true)
    else (l.(lock := w), false)
  }

  /** A Pending message: is the ownership given up at once? */
  function OnPending(l: Local, xpending: bool): (Local, bool) {
    if !l.granting then
      if l.lock == Shared(0) then (l.(mode := NONE, released := true), true)
      else (l.(pending := true), false)
    else if l.mode == SHARED && !xpending then (l.(mode := NONE), true)
    else (l.(pending := true), false)
  }
}
