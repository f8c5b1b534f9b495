/** The write loops of a participant's Prepare and Commit handlers. */
module TwoPhaseParticipant {
  import opened Options
  import opened PreparedTxn
  import opened TwoPhaseCommit

  class Participant {
    var items: map<Tuple, Item>

    constructor (tuples: map<Tuple, Item>)
      ensures items == tuples
    {
      items := tuples;
    }

    /** Prepare's loop: every write finds its tuple locked by this very transaction, or the vote is no. */
    method ValidateWrites(r: Request) returns (ok: bool)
      ensures ok <==> LockedFrom(items, r, 0)
      ensures ok <==> forall w :: w in r.writes ==>
        && r.id.Some? && w.tuple.Some? && w.tuple.value in items
        && HeldFor(items[w.tuple.value], r.participant, r.start, r.id.value.coordinator)
    {
      var k := 0;
      while k < |r.writes|
        invariant 0 <= k <= |r.writes| && LockedUpTo(items, r, k)
      {
        var w := r.writes[k];
        assert w in r.writes;
        ghost var locked := LockedFor(items, r, k);
        if r.id.None? || w.tuple.None? || w.tuple.value !in items { return false; }
        var item := items[w.tuple.value];
        if item.home != r.participant || item.owner != Some(r.start) { return false; }
        if item.holderNode != r.id.value.coordinator || item.lockNode != r.participant { return false; }
        k := k + 1;
      }
      forall w | w in r.writes ensures exists i :: 0 <= i < |r.writes| && r.writes[i] == w && LockedFor(items, r, i) {}
      return true;
    }

    /**
     Commit's loop: installs the whole write set and gives every lock up. `next`
     is the successor each unlock has found. No other tuple is touched.
     */
    method InstallWrites(r: Request, next: seq<Option<Successor>>)
      requires ValidRequest(r) && LockedFrom(items, r, 0) && |next| == |r.writes|
      modifies this
      ensures items.Keys == old(items).Keys
      ensures forall i :: 0 <= i < |r.writes| ==> Installed(old(items), items, r.writes[i], r.commit, next[i])
      ensures forall t :: t in items && (forall w :: w in r.writes ==> w.tuple != Some(t)) ==> items[t] == old(items)[t]
    {
      var k := 0;
      forall i | 0 <= i < |r.writes| ensures Untouched(items, items, r.writes[i]) { assert LockedFor(items, r, i); }
      while k < |r.writes|
        invariant 0 <= k <= |r.writes| && InstalledUpTo(old(items), items, r, next, k)
      {
        var w := r.writes[k];
        InstallOne(old(items), items, r, next, k);
        items := items[w.tuple.value := Installing(items[w.tuple.value], w, r.commit, next[k])];
        k := k + 1;
      }
    }
  }

  /** The first `k` writes are installed, and nothing else has changed. */
  ghost predicate InstalledUpTo(before: map<Tuple, Item>, after: map<Tuple, Item>, r: Request,
                                next: seq<Option<Successor>>, k: nat)
    requires k <= |r.writes| == |next|
  {
    && after.Keys == before.Keys
    && (forall i :: 0 <= i < k ==> Installed(before, after, r.writes[i], r.commit, next[i]))
    && (forall i :: k <= i < |r.writes| ==> Untouched(before, after, r.writes[i]))
    && (forall t :: t in after && (forall w :: w in r.writes ==> w.tuple != Some(t)) ==> after[t] == before[t])
  }

  lemma InstallOne(before: map<Tuple, Item>, after: map<Tuple, Item>, r: Request, next: seq<Option<Successor>>, k: nat)
    requires ValidRequest(r) && k < |r.writes| == |next| && InstalledUpTo(before, after, r, next, k)
    ensures r.writes[k].tuple.Some? && r.writes[k].tuple.value in after
    ensures var w := r.writes[k];
      var t := w.tuple.value;
      var item := Installing(after[t], w, r.commit, next[k]);
      InstalledUpTo(before, after[t := item], r, next, k + 1)
  {
    var w := r.writes[k];
    assert Untouched(before, after, w) && w in r.writes;
    var t := w.tuple.value;
    var after' := after[t := Installing(after[t], w, r.commit, next[k])];
    forall i | 0 <= i < k ensures Installed(before, after', r.writes[i], r.commit, next[i]) {
      assert Installed(before, after, r.writes[i], r.commit, next[i]) && r.writes[i].tuple != w.tuple;
    }
    forall i | k < i < |r.writes| ensures Untouched(before, after', r.writes[i]) {
      assert Untouched(before, after, r.writes[i]) && w.tuple != r.writes[i].tuple;
    }
  }

  /** The tuple is partitioned to this node, locked here by this transaction, and held from its coordinator. */
  predicate HeldFor(item: Item, node: int, start: Ts, coordinator: int) {
    item.home == node && item.owner == Some(start) && item.holderNode == coordinator && item.lockNode == node
  }

  /**
   The write is installed with its commit timestamp. The tuple is free, or names
   the successor and, as both of its nodes, the successor's node.
   */
  ghost predicate Installed(before: map<Tuple, Item>, after: map<Tuple, Item>, w: Write, commit: Ts,
                            next: Option<Successor>)
  {
    && w.tuple.Some? && w.tuple.value in before && w.tuple.value in after
    && var was, now := before[w.tuple.value], after[w.tuple.value];
      && now.value == w.value && now.stamp == commit && now.home == was.home
      && match next
         case None => now.owner == None && now.holderNode == was.holderNode && now.lockNode == was.lockNode
         case Some(n) => now.owner == Some(n.ts) && now.holderNode == n.node && now.lockNode == n.node
  }

  ghost predicate Untouched(before: map<Tuple, Item>, after: map<Tuple, Item>, w: Write) {
    w.tuple.Some? && w.tuple.value in before && w.tuple.value in after && after[w.tuple.value] == before[w.tuple.value]
  }
}
