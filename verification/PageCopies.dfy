/**
 The copies of one page: the manager's record of who has the newest copy, the
 copies in the buffer pools, and the pushes that bring a copy to the next
 owner, on top of the ownership protocol. A thread that has been granted the
 page uses it only once it has a copy.
 */
module PageCopies {
  import opened Options
  import opened PageLockTypes
  import opened PageOwnership
  import opened PageSteps

  /**
   Where a node that gets the page takes its copy from: it has one; storage; a
   holder that was told so in its Pending message (`dest_node_id`); a fellow
   reader that has it in its push list; a push on its way, with the version it
   carries; a copy that has arrived; or nobody was told to send one.
   */
  datatype Source =
    | Has | Storage | Pended(from: Node) | Listed(from: Node) | Flying(version: nat) | Arrived | Nobody

  /**
   `valid` and `newest` are the manager's record. `version` counts the writes to
   the page, `copy` is the version in each buffer pool, and `via` the source of
   everybody who has been granted the page or is next in line.
   */
  datatype Data = Data(
    s: State,
    valid: set<Node>,
    newest: Option<Node>,
    version: nat,
    copy: map<Node, nat>,
    via: map<Node, Source>)

  ghost predicate Start(d: Data) {
    Init(d.s) && d.valid == {} && d.newest == None && d.version == 0 && d.copy == map[] && d.via == map[]
  }

  datatype Action =
    | Protocol(e: Step)                       // a step of the ownership protocol
    | Write(n: Node)
    | Load(n: Node)                      // the page comes from storage
    | PushListed(n: Node, to: Node)      // one entry of the push list is served
    | PushArrives(n: Node)

  lemma {:induction false} LowestExists(v: set<Node>, m: Node)
    requires m in v
    ensures exists low :: low in v && forall k :: k in v ==> low <= k
    decreases m
  {
    if k :| k in v && k < m {
      LowestExists(v, k);
    }
  }

  ghost function Lowest(v: set<Node>): (m: Node)
    requires v != {}
    ensures m in v && forall k :: k in v ==> m <= k
  {
    var some :| some in v;
    LowestExists(v, some);
    var m :| m in v && forall k :: k in v ==> m <= k;
    m
  }

  /** ReleasePage and setNodeStatus: if the newest copy leaves, another one counts as the newest. */
  ghost function Without(d: Data, n: Node): Data {
    var v := d.valid - {n};
    d.(valid := v,
       newest := if d.newest != Some(n) then d.newest else if v == {} then None else Some(Lowest(v)))
  }

  /** SetComputenodePending: which holder is told to send a copy to the requester of the round. */
  ghost function RoundSource(d: Data, g: Global): Source
    requires g.src.Some?
  {
    if g.lock == Exclusive then (if g.holders == [] then Nobody else Pended(g.holders[0]))
    else if g.src.value in d.valid then Has
    else if d.newest.Some? && d.newest.value in g.holders then Pended(d.newest.value)
    else Nobody
  }

  /** A holder that leaves, or a reader that is done, sends the copy it was told to send. */
  function PushOut(d: Data, n: Node): Data {
    var src := d.s.g.src;
    if src.Some? && src.value in d.via && d.via[src.value] == Pended(n) && n in d.copy
    then d.(via := d.via[src.value := Flying(d.copy[n])])
    else d
  }

  /** LockSuccess: the requester of the round sends the page on to the readers that were granted it together. */
  function Informed(d: Data, next: Global, w: Node): map<Node, Source> {
    map k | k in d.via.Keys + (set h | h in next.holders) ::
      if k == w then (if w in d.valid then Has else if w in d.via then d.via[w] else Nobody)
      else if k in next.holders then Listed(w)
      else d.via[k]
  }

  /** The record and the sources once the holders of `next` have been told. */
  ghost function Told(d: Data, n: Node, next: Global, w: Node): Data
    requires next.holders != []
  {
    var gone := Without(d, n);
    gone.(copy := d.copy - {n}, valid := gone.valid + (set h | h in next.holders), newest := Some(next.holders[0]),
          via := Informed(d, next, w))
  }

  /** The source of the requester of the round under way in `g`. */
  ghost function WithRound(d: Data, g: Global): Data {
    if g.src.Some? && g.pending then d.(via := d.via[g.src.value := RoundSource(d, g)]) else d
  }

  /** LRPAnyUnLock, as far as copies are concerned, and the copy of `n` is dropped. */
  ghost function LeaveData(d: Data, n: Node): Data {
    var (next, granted) := Transfer(Drop(d.s.g, n));
    if !granted || d.s.g.src.None? || next.holders == [] then Without(d, n).(copy := d.copy - {n})
    else WithRound(Told(d, n, next, d.s.g.src.value), NextRound(Announced(next)))
  }

  /** A request granted at once: the node has a copy, fetches it from storage, or gets it from the newest node. */
  function GrantData(d: Data, n: Node): Data {
    if n in d.valid then d.(via := d.via[n := Has])
    else if d.newest.None? then d.(via := d.via[n := Storage], valid := d.valid + {n}, newest := Some(n))
    else if d.newest.value in d.copy
    then d.(via := d.via[n := Flying(d.copy[d.newest.value])], valid := d.valid + {n})
    else d.(via := d.via[n := Nobody], valid := d.valid + {n})
  }

  ghost function AskData(d: Data, n: Node): Data
    requires n in d.s.nodes
  {
    var a := Asked(d.s, n);
    if a.granted then GrantData(d, n)
    else if a.round && a.g.src.Some? then d.(via := d.via[n := RoundSource(d, a.g)])
    else d
  }

  /** Nobody waits for an entry of the node's push list. */
  predicate ListServed(d: Data, n: Node) {
    forall k :: k in d.via ==> d.via[k] != Listed(n)
  }

  predicate HasData(d: Data, n: Node) {
    n in d.via && (d.via[n] == Has || d.via[n] == Arrived)
  }

  /**
   What a step of the ownership protocol waits for here. The manager keeps its
   mutex until the newest node has sent the page, so a request that needs that
   copy goes through only when the copy is there.
   */
  predicate MayStep(d: Data, e: Step) {
    Enabled(d.s, e) &&
    match e
    case Ask(n) => Asked(d.s, n).granted && n !in d.valid && d.newest.Some? ==> d.newest.value in d.copy
    case RemoteOK(n) => HasData(d, n) && ListServed(d, n)
    case _ => true
  }

  predicate May(d: Data, a: Action) {
    match a
    case Protocol(e) => MayStep(d, e)
    case Write(n) => n in d.s.nodes && InExclusiveUse(d.s.nodes[n]) && n in d.copy
    case Load(n) => n in d.via && d.via[n] == Storage
    case PushListed(n, to) =>
      && to in d.via && d.via[to] == Listed(n) && HasData(d, n) && n in d.copy
      && n in d.s.nodes && d.s.nodes[n].request == Won
    case PushArrives(n) => n in d.via && d.via[n].Flying?
  }

  /** What a step of the ownership protocol does to the copies. */
  ghost function StepData(d: Data, e: Step): Data
    requires MayStep(d, e)
  {
    var l := d.s.nodes[e.n];
    match e
    case Ask(n) => AskData(d, n)
    case RemoteOK(n) => d.(via := d.via - {n})
    case Unlock(n) =>
      var sent := if l.pending then PushOut(d, n) else d;
      if Unlatch(l).1 then LeaveData(sent, n) else sent
    case PendingArrives(n) => if OnPending(l, d.s.pend[n]).1 then LeaveData(PushOut(d, n), n) else d
    case AskEvict(n) => if n !in d.s.g.holders || d.s.g.pending then d else Without(d, n)
    case FinishEvict(n) => d.(copy := d.copy - {n})
    case _ => d
  }

  ghost function Do(d: Data, a: Action): Data
    requires May(d, a)
  {
    match a
    case Protocol(e) => StepData(d, e).(s := Apply(d.s, e))
    case Write(n) => d.(version := d.version + 1, copy := d.copy[n := d.version + 1])
    case Load(n) => d.(copy := d.copy[n := d.version], via := d.via[n := Arrived])
    case PushListed(n, to) => d.(via := d.via[to := Flying(d.copy[n])])
    case PushArrives(n) => d.(copy := d.copy[n := d.via[n].version], via := d.via[n := Arrived])
  }

  ghost predicate Follows(d: Data, run: seq<Action>)
    decreases |run|
  {
    run == [] || (May(d, run[0]) && Follows(Do(d, run[0]), run[1..]))
  }

  ghost function End(d: Data, run: seq<Action>): Data
    requires Follows(d, run)
    decreases |run|
  {
    if run == [] then d else End(Do(d, run[0]), run[1..])
  }

  // ----- the invariant -----

  /** The manager's record is the list of holders. */
  ghost predicate RecordOk(d: Data) {
    && (forall n :: n in d.valid <==> n in d.s.g.holders)
    && (d.newest.None? <==> d.s.g.holders == [])
    && (d.newest.Some? ==> d.newest.value in d.s.g.holders)
  }

  predicate SourceOk(d: Data, n: Node)
    requires n in d.via
  {
    match d.via[n]
    case Has => true
    case Storage =>
      && d.s.g.holders == [n]
      && (d.s.g.src.Some? ==> d.s.g.src.value in d.via && d.via[d.s.g.src.value] == Pended(n))
    case Pended(m) => d.s.g.src == Some(n) && m in d.s.g.holders && m != n
    case Listed(m) =>
      && d.s.g.src != Some(n) && m != n && d.s.g.src != Some(m)
      && m in d.via && (d.via[m].Flying? || d.via[m] == Arrived)
    case Flying(v) => v == d.version
    case Arrived => n in d.copy && d.copy[n] == d.version
    case Nobody => false
  }

  /** What the node has and where it takes the page from. */
  predicate CopyOk(d: Data, n: Node, l: Local, grant: Option<bool>) {
    && (n in d.via <==> Granted(l, grant) || d.s.g.src == Some(n))
    && (Owns(l) ==> n in d.copy && d.copy[n] == d.version) && (l.evict == Agreed ==> n in d.copy)
    && (!Owns(l) && l.evict != Agreed && n in d.copy ==> n in d.via && d.via[n] == Arrived)
    && (n in d.via ==> (d.via[n] == Has <==> Owns(l)) && SourceOk(d, n))
  }

  predicate CopyOkIn(d: Data, n: Node)
    requires n in d.s.nodes
  {
    CopyOk(d, n, d.s.nodes[n], Get(d.s.grant, n))
  }

  /** The holder can only read any more: it was told to leave and has shared users left. */
  predicate OnlyReads(s: State, h: Node) {
    h in s.nodes && s.nodes[h].pending && s.nodes[h].lock.Shared?
  }

  /** A page held exclusively goes to the next owner only when its holder cannot write it any more. */
  predicate SentLate(d: Data) {
    var g := d.s.g;
    g.src.Some? && g.lock == Exclusive ==>
      && g.holders != [] && g.src.value in d.via
      && (d.via[g.src.value] == Pended(g.holders[0]) || OnlyReads(d.s, g.holders[0]))
  }

  ghost predicate CopiesOk(d: Data) {
    && Inv(d.s) && RecordOk(d)
    && (forall n {:trigger CopyOkIn(d, n)} :: n in d.s.nodes ==> CopyOkIn(d, n))
    && (forall n :: n in d.via || n in d.copy ==> n in d.s.nodes)
  }

  ghost predicate DataInv(d: Data) { CopiesOk(d) && SentLate(d) }

  /** The node has a copy that is not being thrown away. */
  predicate HasCopy(d: Data, n: Node) {
    n in d.copy && n in d.s.nodes && d.s.nodes[n].evict != Agreed
  }

  predicate InFlight(d: Data) {
    exists n :: n in d.via && d.via[n].Flying?
  }
}
