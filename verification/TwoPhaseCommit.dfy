/**
 Durable-Prepare two-phase commit of any number of transactions over any number
 of nodes. Handlers run in the pieces between page accesses and log waits;
 Prepare and Commit messages stay deliverable for ever.
 */
module TwoPhaseCommit {
  import opened Options
  import opened PreparedTxn

  type Ts = nat

  /** A tuple: the node it is partitioned to, its lock fields, its value and the value's commit timestamp. */
  datatype Item = Item(home: int, owner: Option<Ts>, holderNode: int, lockNode: int, value: string, stamp: Ts)

  datatype Successor = Successor(ts: Ts, node: int)

  /** Where a participant's handler stands with a context. */
  datatype Stage =
    | Checking(k: nat)    // the first k writes are validated
    | Logging             // the Prepared record is queued
    | Ready               // marked prepared
    | Applying(k: nat)    // a Commit has taken it, the first k writes are installed

  datatype Part = Part(request: Request, stage: Stage)

  datatype At = At(node: int, id: Id)

  /** "2pc", "2pc-cornus" and "2pc-cornus-opt". */
  datatype Variant = Baseline | Cornus | CornusOpt

  function Version(v: Variant): int {
    if v == CornusOpt then PROTOCOL_VERSION else PARTICIPANT_REPLY_VERSION
  }

  /** `Voted`: every vote is in, the coordinator's own decision record is not durable yet. */
  datatype Phase = Preparing | Voted | Decided

  /** A distributed commit: its requests, one for each participant, and the coordinator's phase. */
  datatype Txn = Txn(start: Ts, commit: Ts, variant: Variant, requests: map<int, Request>, phase: Phase)

  datatype State = State(
    txns: map<Id, Txn>,
    ended: set<Ts>,              // transactions whose commit has begun: they lock nothing any more
    items: map<Tuple, Item>,
    parts: map<At, Part>,        // live contexts of all registries
    queued: map<At, Request>,    // Prepared records in log buffers
    durable: map<At, Request>,   // Prepared records in storage
    yes: set<At>,                // YES answers sent
    notes: set<Id>,              // storage notifications sent
    decisions: set<Id>,          // decision records in storage
    taken: set<At>,              // contexts a Commit has taken
    done: set<At>)               // contexts whose writes are all installed

  ghost predicate Init(s: State) {
    && s.txns == map[] && s.ended == {} && s.parts == map[] && s.queued == map[] && s.durable == map[]
    && s.yes == {} && s.notes == {} && s.decisions == {} && s.taken == {} && s.done == {}
    && forall t :: t in s.items ==> s.items[t].owner == None
  }

  // ----- the coordinator -----

  /** What the coordinator checks before it sends the requests. */
  ghost predicate Consistent(id: Id, txn: Txn) {
    && |txn.requests| > 1
    && forall n {:trigger RequestOk(id, txn, n, txn.requests[n])} ::
         n in txn.requests ==> RequestOk(id, txn, n, txn.requests[n])
  }

  ghost predicate RequestOk(id: Id, txn: Txn, n: int, r: Request) {
    && ValidRequest(r) && r.participant == n && r.id == Some(id)
    && r.start == txn.start && r.commit == txn.commit && r.version == Version(txn.variant)
    && (forall m :: m in r.participants <==> m in txn.requests)
  }

  /** Does the tuple carry the lock that this Prepare needs? */
  predicate LockedFor(items: map<Tuple, Item>, r: Request, k: nat)
    requires k < |r.writes|
  {
    var w := r.writes[k];
    && w.tuple.Some? && w.tuple.value in items && r.id.Some?
    && var item := items[w.tuple.value];
      item.home == r.participant && item.owner == Some(r.start)
      && item.holderNode == r.id.value.coordinator && item.lockNode == r.participant
  }

  datatype Step =
    | LockTuple(t: Tuple, ts: Ts, holder: int, node: int) | UnlockTuple(t: Tuple, next: Option<Successor>)
    | Send(id: Id, txn: Txn)
    | DeliverPrepare(id: Id, n: int)
    | CheckWrite(a: At) | Refuse(a: At) | LogPrepare(a: At) | Flush(a: At) | Mark(a: At)
    | Notify(id: Id) | Vote(id: Id) | LogDecision(id: Id)
    | DeliverCommit(id: Id, n: int)
    | Install(a: At, next: Option<Successor>) | Finish(a: At)

  /** Every participant's record is in storage. */
  predicate AllDurable(s: State, id: Id, txn: Txn) {
    forall n :: n in txn.requests ==> At(n, id) in s.durable && s.durable[At(n, id)] == txn.requests[n]
  }

  predicate AllYes(s: State, id: Id, txn: Txn) {
    forall n :: n in txn.requests ==> At(n, id) in s.yes
  }

  /** Whom a released tuple may be handed to: somebody still running. */
  predicate MayGet(s: State, next: Option<Successor>) {
    next.Some? ==> next.value.ts !in s.ended
  }

  /** A released tuple: free, or already locked by the successor. */
  function Released(item: Item, next: Option<Successor>): Item {
    match next
    case None => item.(owner := None)
    case Some(n) => item.(owner := Some(n.ts), holderNode := n.node, lockNode := n.node)
  }

  /** One write of a Commit: the bytes and their timestamp, then the unlock. */
  function Installing(item: Item, w: Write, commit: Ts, next: Option<Successor>): Item {
    Released(item.(value := w.value, stamp := commit), next)
  }

  ghost predicate Enabled(s: State, e: Step) {
    match e
    case LockTuple(t, ts, _, _) => t in s.items && s.items[t].owner == None && ts !in s.ended
    case UnlockTuple(t, next) =>
      t in s.items && s.items[t].owner.Some? && s.items[t].owner.value !in s.ended && MayGet(s, next)
    case Send(id, txn) => id !in s.txns && txn.start !in s.ended && txn.phase == Preparing && Consistent(id, txn)
    case DeliverPrepare(id, n) => id in s.txns && n in s.txns[id].requests
    case CheckWrite(a) => a in s.parts && s.parts[a].stage.Checking? && s.parts[a].stage.k < |s.parts[a].request.writes|
    case Refuse(a) => a in s.parts && s.parts[a].stage.Checking?
    case LogPrepare(a) => a in s.parts && s.parts[a].stage == Checking(|s.parts[a].request.writes|)
    case Flush(a) => a in s.queued
    case Mark(a) => a in s.parts && s.parts[a].stage == Logging && a in s.durable
    case Notify(id) => id in s.txns && s.txns[id].variant == CornusOpt && AllDurable(s, id, s.txns[id])
    case Vote(id) =>
      id in s.txns && s.txns[id].phase == Preparing
      && if s.txns[id].variant == CornusOpt then id in s.notes else AllYes(s, id, s.txns[id])
    case LogDecision(id) => id in s.txns && s.txns[id].phase == Voted
    case DeliverCommit(id, n) =>
      && id in s.txns && s.txns[id].phase == Decided && n in s.txns[id].requests
      && (s.txns[id].variant == CornusOpt && At(n, id) in s.parts ==>
            !s.parts[At(n, id)].stage.Logging? && !s.parts[At(n, id)].stage.Checking?)
    case Install(a, next) =>
      a in s.parts && s.parts[a].stage.Applying? && s.parts[a].stage.k < |s.parts[a].request.writes|
      && s.parts[a].request.writes[s.parts[a].stage.k].tuple.Some?
      && s.parts[a].request.writes[s.parts[a].stage.k].tuple.value in s.items
      && MayGet(s, next)
    case Finish(a) => a in s.parts && s.parts[a].stage == Applying(|s.parts[a].request.writes|)
  }

  function PutPart(s: State, a: At, st: Stage): State
    requires a in s.parts
  {
    s.(parts := s.parts[a := s.parts[a].(stage := st)])
  }

  /** Begin: a duplicate finds the live context and is answered YES only if that is prepared. */
  function DoDeliverPrepare(s: State, id: Id, n: int): State
    requires id in s.txns && n in s.txns[id].requests
  {
    var a := At(n, id);
    if a in s.parts then
      if s.parts[a].request == s.txns[id].requests[n] && s.parts[a].stage == Ready then s.(yes := s.yes + {a}) else s
    else s.(parts := s.parts[a := Part(s.txns[id].requests[n], Checking(0))])
  }

  /** One write validated under its page; a bad one makes the participant forget the context. */
  function DoCheckWrite(s: State, a: At): State
    requires a in s.parts && s.parts[a].stage.Checking? && s.parts[a].stage.k < |s.parts[a].request.writes|
  {
    var k := s.parts[a].stage.k;
    if LockedFor(s.items, s.parts[a].request, k) then PutPart(s, a, Checking(k + 1)) else s.(parts := s.parts - {a})
  }

  /** Any other reason to refuse: wrong table, record size, slot, key or partition. */
  function DoRefuse(s: State, a: At): State {
    s.(parts := s.parts - {a})
  }

  function DoLogPrepare(s: State, a: At): State
    requires a in s.parts
  {
    PutPart(s, a, Logging).(queued := s.queued[a := s.parts[a].request])
  }

  function DoFlush(s: State, a: At): State
    requires a in s.queued
  {
    s.(queued := s.queued - {a}, durable := s.durable[a := s.queued[a]])
  }

  function DoMark(s: State, a: At): State
    requires a in s.parts
  {
    PutPart(s, a, Ready).(yes := s.yes + {a})
  }

  function DoFinish(s: State, a: At): State {
    s.(parts := s.parts - {a}, done := s.done + {a})
  }

  /** TakeForCommit. */
  function DoDeliverCommit(s: State, id: Id, n: int): State {
    var a := At(n, id);
    if a in s.parts && s.parts[a].stage == Ready
    then PutPart(s, a, Applying(0)).(taken := s.taken + {a})
    else s
  }

  /** One write of the Commit loop: the bytes, then the unlock or the handoff to `next`. */
  function DoInstall(s: State, a: At, next: Option<Successor>): State
    requires a in s.parts && s.parts[a].stage.Applying? && s.parts[a].stage.k < |s.parts[a].request.writes|
    requires s.parts[a].request.writes[s.parts[a].stage.k].tuple.Some?
    requires s.parts[a].request.writes[s.parts[a].stage.k].tuple.value in s.items
  {
    var k := s.parts[a].stage.k;
    var w := s.parts[a].request.writes[k];
    var item := s.items[w.tuple.value];
    var written := Installing(item, w, s.parts[a].request.commit, next);
    PutPart(s, a, Applying(k + 1)).(items := s.items[w.tuple.value := written])
  }

  ghost function Apply(s: State, e: Step): State
    requires Enabled(s, e)
  {
    match e
    case LockTuple(t, ts, holder, node) =>
      s.(items := s.items[t := s.items[t].(owner := Some(ts), holderNode := holder, lockNode := node)])
    case UnlockTuple(t, next) => s.(items := s.items[t := Released(s.items[t], next)])
    case Send(id, txn) => s.(txns := s.txns[id := txn], ended := s.ended + {txn.start})
    case DeliverPrepare(id, n) => DoDeliverPrepare(s, id, n)
    case CheckWrite(a) => DoCheckWrite(s, a)
    case Refuse(a) => DoRefuse(s, a)
    case LogPrepare(a) => DoLogPrepare(s, a)
    case Flush(a) => DoFlush(s, a)
    case Mark(a) => DoMark(s, a)
    case Notify(id) => s.(notes := s.notes + {id})
    case Vote(id) =>
      s.(txns := s.txns[id := s.txns[id].(phase := if s.txns[id].variant == Baseline then Voted else Decided)])
    case LogDecision(id) =>
      s.(txns := s.txns[id := s.txns[id].(phase := Decided)], decisions := s.decisions + {id})
    case DeliverCommit(id, n) => DoDeliverCommit(s, id, n)
    case Install(a, next) => DoInstall(s, a, next)
    case Finish(a) => DoFinish(s, a)
  }

  ghost predicate Legal(s: State, steps: seq<Step>)
    decreases |steps|
  {
    steps == [] || (Enabled(s, steps[0]) && Legal(Apply(s, steps[0]), steps[1..]))
  }

  ghost function After(s: State, steps: seq<Step>): State
    requires Legal(s, steps)
    decreases |steps|
  {
    if steps == [] then s else After(Apply(s, steps[0]), steps[1..])
  }

  // ----- the invariant -----

  predicate LockedFrom(items: map<Tuple, Item>, r: Request, k: nat) {
    forall i :: k <= i < |r.writes| ==> LockedFor(items, r, i)
  }

  predicate LockedUpTo(items: map<Tuple, Item>, r: Request, k: nat)
    requires k <= |r.writes|
  {
    forall i :: 0 <= i < k ==> LockedFor(items, r, i)
  }

  /** The first `k` tuples have left the transaction's hands. */
  predicate ReleasedUpTo(items: map<Tuple, Item>, r: Request, k: nat)
    requires k <= |r.writes|
  {
    forall i :: 0 <= i < k ==> !LockedFor(items, r, i)
  }

  ghost predicate TxnOk(s: State, id: Id)
    requires id in s.txns
  {
    var txn := s.txns[id];
    && Consistent(id, txn) && txn.start in s.ended
    && (txn.phase != Preparing || id in s.notes ==> AllDurable(s, id, txn))
    && (txn.phase == Decided && txn.variant == Baseline ==> id in s.decisions)
  }

  predicate InTxn(s: State, a: At) {
    a.id in s.txns && a.node in s.txns[a.id].requests
  }

  predicate PartOk(s: State, a: At)
    requires a in s.parts
  {
    var r := s.parts[a].request;
    match s.parts[a].stage
    case Checking(k) => k <= |r.writes| && LockedUpTo(s.items, r, k) && (a in s.taken ==> k == 0 && a in s.done)
    case Logging => LockedFrom(s.items, r, 0) && a !in s.taken && (a in s.queued || a in s.durable)
    case Ready => LockedFrom(s.items, r, 0) && a !in s.taken && a in s.durable
    case Applying(k) =>
      && k <= |r.writes| && LockedFrom(s.items, r, k) && ReleasedUpTo(s.items, r, k)
      && a in s.taken && a !in s.done && a in s.durable
  }

  /** Everything about one participant of one transaction. */
  predicate SlotOk(s: State, a: At)
    requires InTxn(s, a)
  {
    var r := s.txns[a.id].requests[a.node];
    && (a in s.queued ==> s.queued[a] == r) && (a in s.durable ==> s.durable[a] == r)
    && (a in s.yes ==> a in s.durable)
    && (a in s.queued || a in s.durable ==> a in s.done || (a in s.parts && !s.parts[a].stage.Checking?))
    && (a in s.taken ==> s.txns[a.id].phase == Decided && (a in s.done || (a in s.parts && s.parts[a].stage.Applying?)))
    && (a in s.done ==> a in s.taken && ReleasedUpTo(s.items, r, |r.writes|))
    && (a in s.parts ==> s.parts[a].request == r && PartOk(s, a))
  }

  ghost predicate Inv(s: State) {
    && (forall id {:trigger TxnOk(s, id)} :: id in s.txns ==> TxnOk(s, id))
    && (forall i, j :: i in s.txns && j in s.txns && s.txns[i].start == s.txns[j].start ==> i == j)
    && (forall a {:trigger SlotOk(s, a)} :: InTxn(s, a) ==> SlotOk(s, a))
    && (forall a {:trigger InTxn(s, a)} ::
          a in s.parts || a in s.queued || a in s.durable || a in s.yes || a in s.taken || a in s.done ==> InTxn(s, a))
    && (forall id :: id in s.notes ==> id in s.txns)
  }
}
