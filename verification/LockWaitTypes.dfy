/**
 Values shared by the tuple-lock manager of one node and by the model of the
 whole cluster: wait queues, wait episodes and the small state changes that
 every operation of the manager is made of.
 */
module LockWaitTypes {
  import opened Options

  /** A compute node. */
  type Node = nat

  /** A transaction, named by its start timestamp; zero is never issued. */
  type Ts = t: int | 0 < t witness 1

  /** A tuple: table, page, slot. */
  datatype Key = Key(table: int, page: int, slot: int)

  /** A queue entry: who waits, and on which node its wait is recorded. */
  datatype Waiter = Waiter(ts: Ts, node: Node)

  /** The FIFO of one tuple; it belongs to the current holder and travels with the lock. */
  datatype Queue = Queue(owner: Ts, version: nat, waiters: seq<Waiter>)

  datatype Flag = WAITING | RESERVED | GRANTED

  datatype Reservation = Unreserved | Reservation(key: Key, source: Ts, version: nat)

  /** One wait episode: the tuple waited for, and the recorded wait-for edge. */
  datatype WaitState = WaitState(
    key: Key,
    flag: Flag,
    holder: Ts,
    holderNode: Node,
    holderVersion: nat,
    reservation: Reservation)

  function FreshWait(key: Key, holder: Ts, holderNode: Node): WaitState {
    WaitState(key, WAITING, holder, holderNode, 0, Unreserved)
  }

  predicate SameReservation(w: WaitState, key: Key, source: Ts, version: nat) {
    w.reservation == Reservation(key, source, version) && version != 0
  }

  /** May this episode be pinned as the successor of `source` on `key`? */
  predicate Reservable(w: WaitState, key: Key, source: Ts, version: nat) {
    w.flag == WAITING && w.key == key && w.holder == source && w.holderVersion < version
  }

  function Pin(w: WaitState, key: Key, source: Ts, version: nat): WaitState {
    w.(flag := RESERVED, reservation := Reservation(key, source, version))
  }

  /** A holder update: applied only to the same tuple and only if strictly newer. */
  function Relabel(w: WaitState, key: Key, version: nat, holder: Waiter): WaitState {
    if w.holderVersion < version && w.key == key
    then w.(holder := holder.ts, holderNode := holder.node, holderVersion := version)
    else w
  }

  predicate InQueue(waiters: seq<Waiter>, ts: Ts) {
    exists i :: 0 <= i < |waiters| && waiters[i].ts == ts
  }

  /** The entries of `tail` whose wait is recorded on node `n`, in queue order. */
  function OnNode(tail: seq<Waiter>, n: Node): seq<Ts> {
    if tail == [] then []
    else if tail[0].node == n then [tail[0].ts] + OnNode(tail[1..], n)
    else OnNode(tail[1..], n)
  }

  lemma {:induction false} OnNodeMember(tail: seq<Waiter>, n: Node, ts: Ts)
    ensures ts in OnNode(tail, n) <==> Waiter(ts, n) in tail
  {
    if tail == [] {
    } else {
      OnNodeMember(tail[1..], n, ts);
      assert tail == [tail[0]] + tail[1..];
    }
  }

  /**
   Registration of a wait at the node that manages the lock. The answer `true`
   means "re-read the tuple": the named holder has released this key, has
   finished, or is not the one that owns the queue any more.
   */
  function Register(q: Option<Queue>, live: bool, released: bool, holder: Ts, w: Waiter)
    : (r: (Option<Queue>, bool))
  {
    if released || !live then (q, true)
    else match q
      case None => (Some(Queue(holder, 0, [w])), false)
      case Some(queue) =>
        if queue.owner != holder then (q, true)
        else if InQueue(queue.waiters, w.ts) then (q, false)
        else (Some(queue.(waiters := queue.waiters + [w])), false)
  }
}
