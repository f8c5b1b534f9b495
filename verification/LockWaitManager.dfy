/**
 The lock-wait manager of one node: the maps it keeps under its mutex and the
 operations that change them in place. The same small functions describe these
 changes in the model of the whole cluster.
 */
module LockWaitManager {
  import opened Options
  import opened LockWaitTypes
  import opened Handoff

  /** The set an index keeps for one holder; an absent entry is empty. */
  function Under(index: map<Ts, set<Key>>, holder: Ts): set<Key> {
    if holder in index then index[holder] else {}
  }

  function With(index: map<Ts, set<Key>>, holder: Ts, key: Key): map<Ts, set<Key>> {
    index[holder := Under(index, holder) + {key}]
  }

  function Without(index: map<Ts, set<Key>>, holder: Ts, key: Key): map<Ts, set<Key>> {
    if holder in index then index[holder := index[holder] - {key}] else index
  }

  function Entry(queues: map<Key, Queue>, key: Key): Option<Queue> {
    if key in queues then Some(queues[key]) else None
  }

  /** The reverse index lists exactly the keys of the queues each holder owns. */
  ghost predicate IndexMatches(index: map<Ts, set<Key>>, queues: map<Key, Queue>) {
    forall h, k :: k in Under(index, h) <==> k in queues && queues[k].owner == h
  }

  lemma IndexDrop(index: map<Ts, set<Key>>, queues: map<Key, Queue>, key: Key)
    requires IndexMatches(index, queues) && key in queues
    ensures IndexMatches(Without(index, queues[key].owner, key), queues - {key})
  {
    var index' := Without(index, queues[key].owner, key);
    forall h, k ensures k in Under(index', h) <==> k in queues - {key} && queues[k].owner == h {
      assert k in Under(index, h) <==> k in queues && queues[k].owner == h;
    }
  }

  lemma IndexSame(index: map<Ts, set<Key>>, queues: map<Key, Queue>, key: Key, q: Queue)
    requires IndexMatches(index, queues) && key in queues && q.owner == queues[key].owner
    ensures IndexMatches(index, queues[key := q])
  {
    forall h, k ensures k in Under(index, h) <==> k in queues[key := q] && queues[key := q][k].owner == h {
      assert k in Under(index, h) <==> k in queues && queues[k].owner == h;
    }
  }

  /** Moving a queue to a new owner keeps the index exact only if the owner really changes. */
  lemma IndexMove(index: map<Ts, set<Key>>, queues: map<Key, Queue>, key: Key, q: Queue)
    requires IndexMatches(index, queues) && key in queues
    ensures IndexMatches(Without(With(index, q.owner, key), queues[key].owner, key), queues[key := q])
            <==> q.owner != queues[key].owner
  {
    var previous := queues[key].owner;
    var index' := Without(With(index, q.owner, key), previous, key);
    assert key !in Under(index', previous);
    if q.owner != previous {
      forall h, k ensures k in Under(index', h) <==> k in queues[key := q] && queues[key := q][k].owner == h {
        assert k in Under(index, h) <==> k in queues && queues[k].owner == h;
      }
    } else {
      assert key in queues[key := q] && queues[key := q][key].owner == previous;
    }
  }

  /** Installing a queue adds to the index; it stays exact unless the key belonged to somebody else. */
  lemma IndexAdd(index: map<Ts, set<Key>>, queues: map<Key, Queue>, key: Key, q: Queue)
    requires IndexMatches(index, queues)
    ensures IndexMatches(With(index, q.owner, key), queues[key := q])
            <==> !(key in queues && queues[key].owner != q.owner)
  {
    var index' := With(index, q.owner, key);
    if key in queues && queues[key].owner != q.owner {
      assert key in Under(index, queues[key].owner);
      assert key in Under(index', queues[key].owner);
      assert queues[key := q][key].owner == q.owner;
    } else {
      forall h, k ensures k in Under(index', h) <==> k in queues[key := q] && queues[key := q][k].owner == h {
        assert k in Under(index, h) <==> k in queues && queues[k].owner == h;
      }
    }
  }

  /** The handoff that would make the `i`-th entry of a frozen queue the successor. */
  function Offer(q: Queue, holder: Ts, i: nat): Handoff
    requires i < |q.waiters|
  {
    Handoff(holder, q.waiters[i], q.version + 1 + i, q.waiters[i + 1..])
  }

  /** Holder updates applied to the wait records of one node. */
  function Relabelled(waiters: map<Ts, WaitState>, list: seq<Ts>, key: Key, version: nat, holder: Waiter)
    : map<Ts, WaitState>
  {
    map t | t in waiters :: if t in list then Relabel(waiters[t], key, version, holder) else waiters[t]
  }

  /** The wait records of the successor's node once it is pinned and its tail relabelled. */
  function PinnedRecords(waiters: map<Ts, WaitState>, key: Key, h: Handoff): map<Ts, WaitState>
    requires h.next.ts in waiters
  {
    Relabelled(waiters[h.next.ts := Pin(waiters[h.next.ts], key, h.source, h.version)],
               OnNode(h.tail, h.next.node), key, h.version, h.next)
  }

  /** The updates to send: one list for each other node of the tail, in queue order. */
  ghost predicate Collects(updates: map<Node, seq<Ts>>, tail: seq<Waiter>, self: Node) {
    forall n :: if n in updates then n != self && updates[n] == OnNode(tail, n) && updates[n] != []
                else n == self || OnNode(tail, n) == []
  }

  lemma SomeOnNode(tail: seq<Waiter>, n: Node)
    ensures OnNode(tail, n) != [] <==> exists w :: w in tail && w.node == n
  {
    if OnNode(tail, n) != [] {
      OnNodeMember(tail, n, OnNode(tail, n)[0]);
    }
    if w :| w in tail && w.node == n {
      OnNodeMember(tail, n, w.ts);
    }
  }

  /** The wait-for edge follows the lock: only a strictly newer holder of the same tuple is recorded. */
  predicate Redirected(was: WaitState, now: WaitState, key: Key, version: nat, holder: Waiter) {
    if was.key == key && was.holderVersion < version
    then now == WaitState(key, was.flag, holder.ts, holder.node, version, was.reservation)
    else now == was
  }

  /** The successor is pinned and keeps its edge; the rest of its node's tail gets a new one. */
  ghost predicate PinnedAndRedirected(was: map<Ts, WaitState>, now: map<Ts, WaitState>, key: Key, h: Handoff) {
    && now.Keys == was.Keys && h.next.ts in was
    && forall t :: t in was ==>
        if t == h.next.ts then
          && now[t].flag == RESERVED && now[t].reservation == Reservation(key, h.source, h.version)
          && now[t].key == was[t].key
          && (h.next !in h.tail ==>
                now[t].holder == was[t].holder && now[t].holderNode == was[t].holderNode
                && now[t].holderVersion == was[t].holderVersion)
        else if Waiter(t, h.next.node) in h.tail then Redirected(was[t], now[t], key, h.version, h.next)
        else now[t] == was[t]
  }

  lemma PinnedRecordsAre(waiters: map<Ts, WaitState>, key: Key, h: Handoff)
    requires h.next.ts in waiters
    ensures PinnedAndRedirected(waiters, PinnedRecords(waiters, key, h), key, h)
  {
    forall t { OnNodeMember(h.tail, h.next.node, t); }
  }

  lemma {:induction false} OnNodeSnoc(tail: seq<Waiter>, w: Waiter, n: Node)
    ensures OnNode(tail + [w], n) == OnNode(tail, n) + (if w.node == n then [w.ts] else [])
  {
    if tail == [] {
      assert [] + [w] == [w];
    } else {
      assert (tail + [w])[1..] == tail[1..] + [w];
      OnNodeSnoc(tail[1..], w, n);
    }
  }

  class Manager {
    const self: Node
    var active: set<Ts>                  // active_txs_
    var queues: map<Key, Queue>          // local_queues_
    var holderKeys: map<Ts, set<Key>>    // holder_keys_
    var forwarded: map<Ts, set<Key>>     // forwarded_keys_
    var waiters: map<Ts, WaitState>      // local_waiters_

    ghost predicate Valid()
      reads this
    {
      IndexMatches(holderKeys, queues)
    }

    constructor (node: Node)
      ensures Valid() && self == node
      ensures active == {} && queues == map[] && forwarded == map[] && waiters == map[]
    {
      self := node;
      active := {};
      queues := map[];
      holderKeys := map[];
      forwarded := map[];
      waiters := map[];
    }

    method OnTxnBegin(ts: Ts)
      modifies this`active
      ensures active == old(active) + {ts}
    {
      active := active + {ts};
    }

    /** Answers `true` when the caller has to re-read the tuple instead of waiting. */
    method OnRegisterTupleWait(key: Key, holder: Ts, w: Waiter) returns (again: bool)
      requires Valid()
      modifies this`queues, this`holderKeys
      ensures Valid()
      ensures (Entry(queues, key), again)
              == Register(old(Entry(queues, key)), holder in active, key in Under(forwarded, holder), holder, w)
      ensures queues - {key} == old(queues) - {key}
      ensures again <==>
        || key in Under(forwarded, holder) || holder !in active
        || (key in old(queues) && old(queues)[key].owner != holder)
      ensures again ==> queues == old(queues)
      ensures !again ==> key in queues && queues[key].owner == holder
      ensures !again && key !in old(queues) ==> queues[key] == Queue(holder, 0, [w])
      ensures !again && key in old(queues) ==>
        var q := old(queues)[key];
        queues[key] == if InQueue(q.waiters, w.ts) then q else Queue(holder, q.version, q.waiters + [w])
    {
      if key in Under(forwarded, holder) || holder !in active { return true; }
      if key in queues {
        var q := queues[key];
        if q.owner != holder { return true; }
        var i := 0;
        while i < |q.waiters|
          invariant 0 <= i <= |q.waiters|
          invariant forall j :: 0 <= j < i ==> q.waiters[j].ts != w.ts
        {
          if q.waiters[i].ts == w.ts { return false; }
          i := i + 1;
        }
        IndexSame(holderKeys, queues, key, q.(waiters := q.waiters + [w]));
        queues := queues[key := q.(waiters := q.waiters + [w])];
      } else {
        IndexAdd(holderKeys, queues, key, Queue(holder, 0, [w]));
        queues := queues[key := Queue(holder, 0, [w])];
        holderKeys := With(holderKeys, holder, key);
      }
      return false;
    }

    /** Erases a queue together with its index entry. */
    method DropQueue(key: Key, holder: Ts)
      requires Valid() && key in queues && queues[key].owner == holder
      modifies this`queues, this`holderKeys
      ensures Valid() && queues == old(queues) - {key}
    {
      IndexDrop(holderKeys, queues, key);
      queues := queues - {key};
      holderKeys := Without(holderKeys, holder, key);
    }

    /** The unlock without waiters; `false` leaves everything to PrepareHandoff. */
    method PrepareUncontendedUnlock(key: Key, holder: Ts) returns (alone: bool)
      requires Valid()
      requires key in queues ==> queues[key].owner == holder
      requires (key in queues && queues[key].waiters != []) || key !in Under(forwarded, holder)
      modifies this`queues, this`holderKeys, this`forwarded
      ensures Valid()
      ensures alone <==> !(key in old(queues) && old(queues)[key].waiters != [])
      ensures alone ==> queues == old(queues) - {key} && forwarded == With(old(forwarded), holder, key)
      ensures !alone ==> queues == old(queues) && forwarded == old(forwarded)
    {
      if key in queues {
        if queues[key].waiters != [] { return false; }
        DropQueue(key, holder);
      }
      assert queues == old(queues) - {key};
      forwarded := With(forwarded, holder, key);
      return true;
    }

    /** Relabels the tail recorded here and collects the rest by node. */
    method UpdateTail(tail: seq<Waiter>, holder: Waiter, key: Key, version: nat)
      returns (updates: map<Node, seq<Ts>>)
      modifies this`waiters
      ensures waiters == Relabelled(old(waiters), OnNode(tail, self), key, version, holder)
      ensures Collects(updates, tail, self)
      ensures waiters.Keys == old(waiters).Keys
      ensures forall t :: t in waiters ==>
        if Waiter(t, self) in tail then Redirected(old(waiters)[t], waiters[t], key, version, holder)
        else waiters[t] == old(waiters)[t]
      ensures forall n :: n in updates <==> n != self && exists w :: w in tail && w.node == n
    {
      updates := map[];
      var i := 0;
      assert tail[..0] == [];
      while i < |tail|
        invariant 0 <= i <= |tail|
        invariant waiters == Relabelled(old(waiters), OnNode(tail[..i], self), key, version, holder)
        invariant Collects(updates, tail[..i], self)
      {
        var w := tail[i];
        assert tail[..i + 1] == tail[..i] + [w];
        forall n { OnNodeSnoc(tail[..i], w, n); }
        if w.node == self {
          if w.ts in waiters && waiters[w.ts].holderVersion < version && waiters[w.ts].key == key {
            waiters := waiters[
              w.ts := waiters[w.ts].(holder := holder.ts, holderNode := holder.node, holderVersion := version)];
          }
        } else {
          updates := updates[w.node := (if w.node in updates then updates[w.node] else []) + [w.ts]];
        }
        i := i + 1;
      }
      assert tail[..i] == tail;
      forall t { OnNodeMember(tail, self, t); }
      forall n ensures n in updates <==> n != self && exists w :: w in tail && w.node == n { SomeOnNode(tail, n); }
    }

    /**
     The local half of a handoff: pins the candidate if it can still be reserved,
     gives it the queue and relabels the tail. The reverse index stays exact
     unless the candidate is the old holder itself.
     */
    method ReserveHere(key: Key, h: Handoff) returns (pinned: bool, updates: map<Node, seq<Ts>>)
      requires Valid() && h.next.node == self
      requires key in queues && queues[key] == Queue(h.source, h.version, h.tail)
      modifies this`queues, this`holderKeys, this`waiters
      ensures pinned <==> h.next.ts in old(waiters) && Reservable(old(waiters)[h.next.ts], key, h.source, h.version)
      ensures !pinned ==>
        Valid() && queues == old(queues) && waiters == old(waiters) && updates == map[]
      ensures pinned ==>
        && (Valid() <==> h.next.ts != h.source)
        && queues == old(queues)[key := Queue(h.next.ts, h.version, h.tail)]
        && waiters == PinnedRecords(old(waiters), key, h) && PinnedAndRedirected(old(waiters), waiters, key, h)
        && Collects(updates, h.tail, self)
      ensures pinned <==>
        && h.next.ts in old(waiters) && old(waiters)[h.next.ts].flag == WAITING && old(waiters)[h.next.ts].key == key
        && old(waiters)[h.next.ts].holder == h.source && old(waiters)[h.next.ts].holderVersion < h.version
    {
      updates := map[];
      if h.next.ts !in waiters { return false, updates; }
      var st := waiters[h.next.ts];
      if st.flag != WAITING { return false, updates; }
      if st.key != key || st.holder != h.source || h.version <= st.holderVersion { return false, updates; }
      PinnedRecordsAre(waiters, key, h);
      waiters := waiters[h.next.ts := st.(flag := RESERVED, reservation := Reservation(key, h.source, h.version))];
      IndexMove(holderKeys, queues, key, queues[key].(owner := h.next.ts));
      queues := queues[key := queues[key].(owner := h.next.ts)];
      holderKeys := Without(With(holderKeys, h.next.ts, key), h.source, key);
      updates := UpdateTail(h.tail, h.next, key, h.version);
      return true, updates;
    }

    /**
     One round of the search: takes the head of the frozen queue and offers it
     the lock. A taken offer leaves the queue with the successor.
     */
    method OfferHead(key: Key, holder: Ts, accepts: Handoff -> bool)
      returns (taken: bool, h: Handoff, updates: map<Node, seq<Ts>>)
      requires Valid() && key in queues && queues[key].owner == holder && queues[key].waiters != []
      modifies this`queues, this`holderKeys, this`waiters
      ensures h == Offer(old(queues)[key], holder, 0)
      ensures h.source == holder && h.version == old(queues)[key].version + 1
      ensures [h.next] + h.tail == old(queues)[key].waiters
      ensures taken <==> Eligible(h, key, accepts, old(waiters))
      ensures !taken ==>
        && Valid() && waiters == old(waiters) && updates == map[]
        && queues == old(queues)[key := Queue(holder, h.version, h.tail)]
      ensures taken ==> HandedOver(key, h, updates, old(queues), old(waiters))
    {
      var q := queues[key];
      h := Handoff(holder, q.waiters[0], q.version + 1, q.waiters[1..]);
      queues := queues[key := q.(version := q.version + 1, waiters := q.waiters[1..])];
      updates := map[];
      if h.next.node == self {
        taken, updates := ReserveHere(key, h);
      } else {
        taken := accepts(h);
        if taken {
          DropQueue(key, holder);
          assert queues == old(queues) - {key};
        }
      }
    }

    /** The state after the successor of `h` has taken the lock over. */
    ghost predicate HandedOver(key: Key, h: Handoff, updates: map<Node, seq<Ts>>,
                               queues0: map<Key, Queue>, waiters0: map<Ts, WaitState>)
      reads this
    {
      && (Valid() || h.next == Waiter(h.source, self))
      && if h.next.node == self then
          && h.next.ts in waiters0 && waiters == PinnedRecords(waiters0, key, h)
          && queues == queues0[key := Queue(h.next.ts, h.version, h.tail)]
          && Collects(updates, h.tail, self)
        else
          queues == queues0 - {key} && waiters == waiters0 && updates == map[]
    }

    /**
     Freezes the queue of `key` and looks for a successor in FIFO order. The
     result is the first entry that can still be reserved, with exactly the
     entries behind it as the tail; nobody is skipped who could be reserved.
     `accepts` stands for the answers of the other nodes.
     */
    method PrepareHandoff(key: Key, holder: Ts, accepts: Handoff -> bool)
      returns (next: Option<Handoff>, updates: map<Node, seq<Ts>>)
      requires Valid()
      requires key in queues ==> queues[key].owner == holder
      requires key !in Under(forwarded, holder)
      modifies this`queues, this`holderKeys, this`forwarded, this`waiters
      ensures forwarded == With(old(forwarded), holder, key)
      ensures key in old(queues) ==> IsFirstEligible(next, old(queues)[key], holder, key, accepts, old(waiters))
      ensures key !in old(queues) ==> next.None?
      ensures next.None? ==> Valid() && queues == old(queues) - {key} && waiters == old(waiters) && updates == map[]
      ensures next.Some? ==> HandedOver(key, next.value, updates, old(queues), old(waiters))
    {
      forwarded := With(forwarded, holder, key);
      updates := map[];
      if key !in queues {
        assert queues == queues - {key};
        return None, updates;
      }
      ghost var before := queues[key];
      ghost var i := 0;
      assert before.waiters[0..] == before.waiters;
      while queues[key].waiters != []
        invariant 0 <= i <= |before.waiters|
        invariant Valid() && key in queues && waiters == old(waiters) && updates == map[]
        invariant forwarded == With(old(forwarded), holder, key)
        invariant queues == old(queues)[key := Queue(holder, before.version + i, before.waiters[i..])]
        invariant NoneEligible(before, holder, i, key, accepts, old(waiters))
        decreases |queues[key].waiters|
      {
        ghost var queues1 := queues;
        var taken, h;
        taken, h, updates := OfferHead(key, holder, accepts);
        assert h == Offer(before, holder, i);
        if taken {
          assert queues1 - {key} == old(queues) - {key};
          return Some(h), updates;
        }
        i := i + 1;
      }
      DropQueue(key, holder);
      assert queues == old(queues) - {key};
      return None, updates;
    }

    /**
     A RESERVE from another node. Departed and wrong-episode candidates are
     refused; a repeated RESERVE changes no queue and no flag. A fresh
     reservation puts the travelling tail in front of what is queued here.
     */
    method TryAcceptHandoff(key: Key, h: Handoff) returns (ok: bool, updates: map<Node, seq<Ts>>)
      requires Valid() && h.next.node == self
      requires Fresh(key, h) && key in queues ==> queues[key].version < h.version
      modifies this`queues, this`holderKeys, this`waiters
      ensures ok <==> old(Fresh(key, h)) || old(Again(key, h))
      ensures old(Fresh(key, h)) ==>
        && queues == old(queues)[key := Queue(h.next.ts, h.version, h.tail + old(Behind(key)))]
        && waiters == PinnedRecords(old(waiters), key, h) && PinnedAndRedirected(old(waiters), waiters, key, h)
        && Collects(updates, h.tail, self)
        && (Valid() <==> !(key in old(queues) && old(queues)[key].owner != h.next.ts))
      ensures !old(Fresh(key, h)) ==> Valid() && queues == old(queues)
      ensures old(Again(key, h)) && old(waiters)[h.next.ts].flag == RESERVED ==>
        && waiters == Relabelled(old(waiters), OnNode(h.tail, self), key, h.version, h.next)
        && Collects(updates, h.tail, self)
      ensures !ok || (old(Again(key, h)) && old(waiters)[h.next.ts].flag == GRANTED) ==>
        waiters == old(waiters) && updates == map[]
    {
      updates := map[];
      if h.next.ts !in waiters { return false, updates; }
      var st := waiters[h.next.ts];
      if st.flag != WAITING {
        if !SameReservation(st, key, h.source, h.version) { return false, updates; }
        if st.flag == GRANTED { return true, updates; }
      } else {
        if st.key != key || st.holder != h.source || h.version <= st.holderVersion { return false, updates; }
        PinnedRecordsAre(waiters, key, h);
        waiters := waiters[h.next.ts := st.(flag := RESERVED, reservation := Reservation(key, h.source, h.version))];
        IndexAdd(holderKeys, queues, key, Queue(h.next.ts, h.version, h.tail + Behind(key)));
        queues := queues[key := Queue(h.next.ts, h.version, h.tail + Behind(key))];
        holderKeys := With(holderKeys, h.next.ts, key);
      }
      updates := UpdateTail(h.tail, h.next, key, h.version);
      return true, updates;
    }

    function Behind(key: Key): seq<Waiter>
      reads this`queues
    {
      if key in queues then queues[key].waiters else []
    }

    /** A reservation that pins a waiting episode. */
    predicate Fresh(key: Key, h: Handoff)
      reads this`waiters
    {
      h.next.ts in waiters && Reservable(waiters[h.next.ts], key, h.source, h.version)
    }

    /** A repetition of the reservation that the episode already carries. */
    predicate Again(key: Key, h: Handoff)
      reads this`waiters
    {
      && h.next.ts in waiters && waiters[h.next.ts].flag != WAITING
      && SameReservation(waiters[h.next.ts], key, h.source, h.version)
    }

    /** Makes a reservation runnable. A late, repeated or foreign publication changes nothing. */
    method PublishHandoff(key: Key, owner: Ts, source: Ts, version: nat)
      requires owner in waiters && SameReservation(waiters[owner], key, source, version)
               ==> waiters[owner].flag != WAITING
      modifies this`waiters
      ensures waiters.Keys == old(waiters).Keys
      ensures forall t :: t in waiters ==>
        if t == owner && SameReservation(old(waiters)[t], key, source, version)
        then waiters[t] == old(waiters)[t].(flag := GRANTED)
        else waiters[t] == old(waiters)[t]
    {
      if owner !in waiters { return; }
      var st := waiters[owner];
      if !SameReservation(st, key, source, version) { return; }
      if st.flag == GRANTED { return; }
      waiters := waiters[owner := st.(flag := GRANTED)];
    }

    /** A holder update from the successor's node: strictly newer, same tuple, or ignored. */
    method OnUpdateWaiterHolder(list: seq<Ts>, holder: Waiter, key: Key, version: nat)
      modifies this`waiters
      ensures waiters == Relabelled(old(waiters), list, key, version, holder)
      ensures waiters.Keys == old(waiters).Keys
      ensures forall t :: t in waiters ==>
        if t in list then Redirected(old(waiters)[t], waiters[t], key, version, holder)
        else waiters[t] == old(waiters)[t]
    {
      var i := 0;
      while i < |list|
        invariant 0 <= i <= |list|
        invariant waiters == Relabelled(old(waiters), list[..i], key, version, holder)
      {
        var t := list[i];
        assert list[..i + 1] == list[..i] + [t];
        if t in waiters && waiters[t].holderVersion < version && waiters[t].key == key {
          waiters := waiters[
            t := waiters[t].(holder := holder.ts, holderNode := holder.node, holderVersion := version)];
        }
        i := i + 1;
      }
      assert list[..i] == list;
    }

    /**
     The end of a transaction. `residual` is the failure the code asserts against:
     it is raised exactly when a queue still belongs to the transaction.
     */
    method FinishTx(ts: Ts) returns (residual: bool)
      requires Valid()
      modifies this`active, this`holderKeys, this`forwarded
      ensures residual <==> exists k :: k in queues && queues[k].owner == ts
      ensures Valid() <==> !residual
      ensures active == old(active) - {ts} && forwarded == old(forwarded) - {ts}
    {
      active := active - {ts};
      residual := Under(holderKeys, ts) != {};
      ghost var index := holderKeys;
      forwarded := forwarded - {ts};
      holderKeys := holderKeys - {ts};
      assert forall h :: Under(holderKeys, h) == if h == ts then {} else Under(index, h);
      if residual {
        ghost var k :| k in Under(index, ts);
        assert k in queues && queues[k].owner == ts && k !in Under(holderKeys, ts);
      } else {
        assert forall k :: k in queues ==> k in Under(index, queues[k].owner);
        forall h, k ensures k in Under(holderKeys, h) <==> k in queues && queues[k].owner == h {
          assert k in Under(index, h) <==> k in queues && queues[k].owner == h;
        }
      }
    }

    method RegisterLocalWaiter(ts: Ts, st: WaitState)
      requires ts !in waiters
      modifies this`waiters
      ensures waiters == old(waiters)[ts := st]
    {
      waiters := waiters[ts := st];
    }

    /** Cancellation: a reserved episode must stay, a granted one leaves as the new holder. */
    method TryUnregisterLocalWaiter(ts: Ts) returns (left: bool, adopted: bool)
      requires ts in waiters
      modifies this`waiters
      ensures left <==> old(waiters)[ts].flag != RESERVED
      ensures adopted <==> old(waiters)[ts].flag == GRANTED
      ensures waiters == if left then old(waiters) - {ts} else old(waiters)
    {
      var flag := waiters[ts].flag;
      if flag == RESERVED { return false, false; }
      waiters := waiters - {ts};
      return true, flag == GRANTED;
    }

    /** Only a transaction that is still waiting exposes its wait-for edge. */
    method QueryWaiterHolder(ts: Ts) returns (edge: Option<Waiter>)
      ensures edge.Some? <==> ts in waiters && waiters[ts].flag == WAITING
      ensures edge.Some? ==> edge.value == Waiter(waiters[ts].holder, waiters[ts].holderNode)
    {
      if ts !in waiters || waiters[ts].flag != WAITING { return None; }
      return Some(Waiter(waiters[ts].holder, waiters[ts].holderNode));
    }

    ghost predicate Eligible(h: Handoff, key: Key, accepts: Handoff -> bool, records: map<Ts, WaitState>) {
      if h.next.node == self
      then h.next.ts in records && Reservable(records[h.next.ts], key, h.source, h.version)
      else accepts(h)
    }

    /** The first `n` entries of a frozen queue cannot be reserved any more. */
    ghost predicate NoneEligible(q: Queue, holder: Ts, n: nat, key: Key, accepts: Handoff -> bool,
                                 records: map<Ts, WaitState>)
      requires n <= |q.waiters|
    {
      forall j :: 0 <= j < n ==> !Eligible(Offer(q, holder, j), key, accepts, records)
    }

    /** The first entry of `q` that can be reserved, if there is one. */
    ghost predicate IsFirstEligible(next: Option<Handoff>, q: Queue, holder: Ts, key: Key, accepts: Handoff -> bool,
                                    records: map<Ts, WaitState>)
    {
      match next
      case None => NoneEligible(q, holder, |q.waiters|, key, accepts, records)
      case Some(h) =>
        exists i ::
          && 0 <= i < |q.waiters|
          && h == Offer(q, holder, i) && Eligible(h, key, accepts, records)
          && NoneEligible(q, holder, i, key, accepts, records)
    }
  }
}
