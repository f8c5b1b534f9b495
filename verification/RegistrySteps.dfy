/** The contexts of the cluster model are the registries of the nodes, and its steps call them as the handlers do. */
module RegistrySteps {
  import opened Options
  import opened PreparedTxn
  import opened TwoPhaseCommit
  import TwoPhaseProofs

  function StatusOf(st: Stage): Status {
    match st
    case Checking(_) => PREPARING
    case Logging => PREPARING
    case Ready => PREPARED
    case Applying(_) => APPLYING
  }

  /** The registry of node `n`. */
  function RegistryOn(s: State, n: int): Live {
    map a | a in s.parts && a.node == n :: Some(a.id) := Slot(s.parts[a].request, StatusOf(s.parts[a].stage))
  }

  /** The Commit that the coordinator sends. */
  function CommitOf(s: State, id: Id): Commit
    requires id in s.txns
  {
    Commit(Some(id), id.tx, s.txns[id].start, s.txns[id].commit)
  }

  /** What a step does to the registry `v` of node `n`. */
  ghost function Called(s: State, e: Step, n: int, v: Live): Live
    requires Enabled(s, e)
  {
    match e
    case DeliverPrepare(id, m) => if m == n then Began(v, s.txns[id].requests[m]) else v
    case CheckWrite(a) =>
      if a.node == n && !LockedFor(s.items, s.parts[a].request, s.parts[a].stage.k) then v - {Some(a.id)} else v
    case Refuse(a) => if a.node == n then v - {Some(a.id)} else v
    case Mark(a) => if a.node == n then Marked(v, Some(a.id)) else v
    case DeliverCommit(id, m) => if m == n then Committed(v, CommitOf(s, id)) else v
    case Finish(a) => if a.node == n then v - {Some(a.id)} else v
    case _ => v
  }

  lemma RegistryAt(s: State, n: int, id: Id)
    ensures Some(id) in RegistryOn(s, n) <==> At(n, id) in s.parts
    ensures At(n, id) in s.parts ==>
      RegistryOn(s, n)[Some(id)] == Slot(s.parts[At(n, id)].request, StatusOf(s.parts[At(n, id)].stage))
  {
    assert At(n, id) in s.parts ==> At(n, id).node == n && At(n, id).id == id;
  }

  /** A context is added, changed or kept. */
  lemma PartPut(s: State, s': State, a: At, n: int)
    requires a in s'.parts && s'.parts == s.parts[a := s'.parts[a]]
    ensures RegistryOn(s', n) ==
      if a.node == n then RegistryOn(s, n)[Some(a.id) := Slot(s'.parts[a].request, StatusOf(s'.parts[a].stage))]
      else RegistryOn(s, n)
  {
    RegistryAt(s', a.node, a.id);
  }

  lemma PartGone(s: State, s': State, a: At, n: int)
    requires s'.parts == s.parts - {a}
    ensures RegistryOn(s', n) == if a.node == n then RegistryOn(s, n) - {Some(a.id)} else RegistryOn(s, n)
  {
    RegistryAt(s, a.node, a.id);
  }

  /** The request of a participant names its transaction as the Commit does. */
  lemma RequestMatches(s: State, a: At)
    requires Inv(s) && InTxn(s, a)
    ensures s.txns[a.id].requests[a.node].id == Some(a.id)
    ensures Matches(s.txns[a.id].requests[a.node], CommitOf(s, a.id))
  {
    assert TxnOk(s, a.id);
    assert RequestOk(a.id, s.txns[a.id], a.node, s.txns[a.id].requests[a.node]);
  }

  /**
   In every run the Commit of a decided transaction waits exactly where
   TakeForCommit does: for a version-2 context that is still being prepared.
   */
  lemma CommitWaitsIff(s: State, id: Id, n: int)
    requires TwoPhaseProofs.Reachable(s) && id in s.txns && s.txns[id].phase == Decided && n in s.txns[id].requests
    ensures !Enabled(s, DeliverCommit(id, n)) <==>
      && Some(id) in RegistryOn(s, n) && RegistryOn(s, n)[Some(id)].state == PREPARING
      && RegistryOn(s, n)[Some(id)].request.version == PROTOCOL_VERSION
  {
    TwoPhaseProofs.ReachableInv(s);
    var a := At(n, id);
    RegistryAt(s, n, id);
    assert InTxn(s, a) && SlotOk(s, a) && TxnOk(s, id);
    assert RequestOk(id, s.txns[id], n, s.txns[id].requests[n]);
  }

  /** In every run each step changes the registry of every node as the calls of its handler do. */
  lemma StepsCallTheRegistry(s: State, e: Step, n: int)
    requires TwoPhaseProofs.Reachable(s) && Enabled(s, e)
    ensures RegistryOn(Apply(s, e), n) == Called(s, e, n, RegistryOn(s, n))
  {
    TwoPhaseProofs.ReachableInv(s);
    match e
    case DeliverPrepare(id, m) => PrepareCalls(s, id, m, n);
    case CheckWrite(a) => CheckCalls(s, a, n);
    case Refuse(a) => PartGone(s, Apply(s, e), a, n);
    case LogPrepare(a) => LogCalls(s, a, n);
    case Mark(a) => MarkCalls(s, a, n);
    case DeliverCommit(id, m) => CommitCalls(s, id, m, n);
    case Install(a, next) => InstallCalls(s, a, next, n);
    case Finish(a) => PartGone(s, Apply(s, e), a, n);
    case _ =>
  }

  lemma PrepareCalls(s: State, id: Id, m: int, n: int)
    requires Inv(s) && Enabled(s, DeliverPrepare(id, m))
    ensures RegistryOn(DoDeliverPrepare(s, id, m), n) == Called(s, DeliverPrepare(id, m), n, RegistryOn(s, n))
  {
    var a := At(m, id);
    RequestMatches(s, a);
    RegistryAt(s, m, id);
    if a !in s.parts { PartPut(s, DoDeliverPrepare(s, id, m), a, n); }
  }

  lemma CheckCalls(s: State, a: At, n: int)
    requires Enabled(s, CheckWrite(a))
    ensures RegistryOn(DoCheckWrite(s, a), n) == Called(s, CheckWrite(a), n, RegistryOn(s, n))
  {
    RegistryAt(s, a.node, a.id);
    if LockedFor(s.items, s.parts[a].request, s.parts[a].stage.k) { PartPut(s, DoCheckWrite(s, a), a, n); }
    else { PartGone(s, DoCheckWrite(s, a), a, n); }
  }

  lemma LogCalls(s: State, a: At, n: int)
    requires Enabled(s, LogPrepare(a))
    ensures RegistryOn(DoLogPrepare(s, a), n) == RegistryOn(s, n)
  {
    RegistryAt(s, a.node, a.id);
    PartPut(s, DoLogPrepare(s, a), a, n);
  }

  lemma MarkCalls(s: State, a: At, n: int)
    requires Enabled(s, Mark(a))
    ensures RegistryOn(DoMark(s, a), n) == Called(s, Mark(a), n, RegistryOn(s, n))
  {
    RegistryAt(s, a.node, a.id);
    PartPut(s, DoMark(s, a), a, n);
  }

  lemma CommitCalls(s: State, id: Id, m: int, n: int)
    requires Inv(s) && Enabled(s, DeliverCommit(id, m))
    ensures RegistryOn(DoDeliverCommit(s, id, m), n) == Called(s, DeliverCommit(id, m), n, RegistryOn(s, n))
  {
    var a := At(m, id);
    RegistryAt(s, m, id);
    assert InTxn(s, a) && SlotOk(s, a);
    RequestMatches(s, a);
    if a in s.parts && s.parts[a].stage == Ready { PartPut(s, DoDeliverCommit(s, id, m), a, n); }
  }

  lemma InstallCalls(s: State, a: At, next: Option<Successor>, n: int)
    requires Enabled(s, Install(a, next))
    ensures RegistryOn(DoInstall(s, a, next), n) == RegistryOn(s, n)
  {
    RegistryAt(s, a.node, a.id);
    PartPut(s, DoInstall(s, a, next), a, n);
  }
}
