/**
 The partitioned buffer pool with its LRU replacer. The page tables of all
 partitions together are one map from pages to frames; everything else in the
 pool has to agree with that map.
 */
module BufferPool {
  import opened Options

  datatype Frame = Frame(page: Option<int>, pins: nat)

  ghost predicate Distinct(a: seq<nat>) {
    forall i, j :: 0 <= i < j < |a| ==> a[i] != a[j]
  }

  /** Every copy of `f` taken out of a list. */
  function Without(a: seq<nat>, f: nat): seq<nat> {
    if a == [] then []
    else if a[0] == f then Without(a[1..], f)
    else [a[0]] + Without(a[1..], f)
  }

  lemma {:induction false} WithoutMember(a: seq<nat>, f: nat, g: nat)
    ensures g in Without(a, f) <==> g in a && g != f
  {
    if a == [] {
    } else {
      assert a == [a[0]] + a[1..];
      WithoutMember(a[1..], f, g);
    }
  }

  lemma {:induction false} WithoutDistinct(a: seq<nat>, f: nat)
    requires Distinct(a)
    ensures Distinct(Without(a, f))
  {
    if a == [] {
    } else {
      WithoutDistinct(a[1..], f);
      WithoutMember(a[1..], f, a[0]);
    }
  }

  lemma {:induction false} WithoutLength(a: seq<nat>, f: nat)
    requires Distinct(a)
    ensures |a| <= |Without(a, f)| + 1
  {
    if f !in a {
      WithoutAbsent(a, f);
    } else if a[0] == f {
      WithoutAbsent(a[1..], f);
    } else {
      WithoutLength(a[1..], f);
    }
  }

  /** One entry is erased; all others stay in place. */
  lemma {:induction false} WithoutBetween(b: seq<nat>, f: nat, c: seq<nat>)
    requires f !in b && f !in c
    ensures Without(b + [f] + c, f) == b + c
    decreases |b|
  {
    var a := b + [f] + c;
    if b == [] {
      assert a[1..] == c;
      WithoutAbsent(c, f);
    } else {
      assert a[1..] == b[1..] + [f] + c && b == [b[0]] + b[1..];
      WithoutBetween(b[1..], f, c);
    }
  }

  lemma {:induction false} WithoutAbsent(a: seq<nat>, f: nat)
    requires f !in a
    ensures Without(a, f) == a
  {
    if a == [] {
    } else {
      assert a == [a[0]] + a[1..];
      WithoutAbsent(a[1..], f);
    }
  }

  /** `r` is the list `a` with its entry `f` erased and every other entry where it was; without `f` it is `a`. */
  ghost predicate Erased(a: seq<nat>, f: nat, r: seq<nat>) {
    if f in a then exists j :: 0 <= j < |a| && a[j] == f && r == a[..j] + a[j + 1..] else r == a
  }

  lemma WithoutErases(a: seq<nat>, f: nat)
    requires Distinct(a)
    ensures Erased(a, f, Without(a, f))
  {
    if f in a {
      var j :| 0 <= j < |a| && a[j] == f;
      assert a == a[..j] + [f] + a[j + 1..];
      WithoutBetween(a[..j], f, a[j + 1..]);
    } else {
      WithoutAbsent(a, f);
    }
  }

  /** The frame has left the list of its partition; nothing else has changed. */
  ghost predicate Unlisted(before: seq<seq<nat>>, after: seq<seq<nat>>, f: nat)
    requires before != []
  {
    var i := f % |before|;
    && |after| == |before| && Erased(before[i], f, after[i])
    && forall j :: 0 <= j < |before| && j != i ==> after[j] == before[j]
  }

  /** The frame has moved to the front of the list of its partition; nothing else has changed. */
  ghost predicate ToFront(before: seq<seq<nat>>, after: seq<seq<nat>>, f: nat)
    requires before != []
  {
    var i := f % |before|;
    && |after| == |before| && after[i] != [] && after[i][0] == f && Erased(before[i], f, after[i][1..])
    && forall j :: 0 <= j < |before| && j != i ==> after[j] == before[j]
  }

  /** There are at most `n` distinct numbers below `n`. */
  lemma {:induction false} Pigeonhole(a: seq<nat>, n: nat)
    requires Distinct(a) && forall g :: g in a ==> g < n
    ensures |a| <= n
    decreases n
  {
    if n == 0 {
      assert forall i :: 0 <= i < |a| ==> a[i] in a;
    } else {
      var b := Without(a, n - 1);
      forall g | g in b ensures g < n - 1 { WithoutMember(a, n - 1, g); }
      WithoutDistinct(a, n - 1);
      Pigeonhole(b, n - 1);
      WithoutLength(a, n - 1);
    }
  }

  const PROBES := 5

  ghost function Below(n: nat): (r: set<nat>)
    ensures forall f :: f in r <==> 0 <= f < n
  {
    if n == 0 then {} else Below(n - 1) + {n - 1}
  }

  /** The `m`-th partition from `start` on, counting round. */
  function Around(start: nat, m: nat, parts: nat): (i: nat)
    requires parts >= 1
    ensures i < parts
    ensures start < parts && m < parts ==> i == if start + m < parts then start + m else start + m - parts
  {
    (start + m) % parts
  }

  /** The frames below `n` whose partition is `i`, in order. */
  function Starting(n: nat, parts: nat, i: nat): seq<nat>
    requires parts >= 1
  {
    if n == 0 then [] else Starting(n - 1, parts, i) + (if (n - 1) % parts == i then [n - 1] else [])
  }

  /** LRU lists from which `f` is taken out. */
  function Untracked(lists: seq<seq<nat>>, f: nat, parts: nat): seq<seq<nat>>
    requires parts >= 1 && |lists| == parts
  {
    lists[f % parts := Without(lists[f % parts], f)]
  }

  /** The last five entries of a list are all being evicted by somebody else. */
  ghost predicate Busy(list: seq<nat>, flags: seq<bool>) {
    forall j :: 0 <= j < |list| && |list| - PROBES <= j ==> list[j] < |flags| && flags[list[j]]
  }

  /** Entry `j` is among the last five of a list, nobody evicts it, and all behind it are being evicted. */
  ghost predicate OldestUnclaimed(list: seq<nat>, flags: seq<bool>, j: nat) {
    && j < |list| && |list| - PROBES <= j && list[j] < |flags| && !flags[list[j]]
    && forall m :: j < m < |list| ==> list[m] < |flags| && flags[list[m]]
  }

  /** Counting on from `start`, every partition is reached. */
  lemma RoundRobin(start: nat, i: nat, parts: nat)
    requires start < parts && i < parts
    ensures exists m :: 0 <= m < parts && Around(start, m, parts) == i
  {
    var m := if i >= start then i - start else i + parts - start;
    assert Around(start, m, parts) == i;
  }

  /** A free list: no frame twice, and exactly of those frames whose slot it is. */
  ghost predicate ListOk(list: seq<nat>, slot: map<nat, nat>, i: nat) {
    Distinct(list) && forall f :: f in list ==> f in slot && slot[f] == i
  }

  lemma ListTail(list: seq<nat>, slot: map<nat, nat>, i: nat)
    requires list != [] && ListOk(list, slot, i)
    ensures ListOk(list[1..], slot - {list[0]}, i)
  {}

  /** An LRU list: no frame twice, all hashed, mapped, unpinned and of this partition. */
  ghost predicate TrackOk(list: seq<nat>, hashed: set<nat>, frames: seq<Frame>, i: nat, parts: nat)
    requires parts >= 1
  {
    Distinct(list) && forall f :: f in list ==> TrackedOk(f, hashed, frames, i, parts)
  }

  ghost predicate TrackedOk(f: nat, hashed: set<nat>, frames: seq<Frame>, i: nat, parts: nat)
    requires parts >= 1
  {
    f in hashed && f % parts == i && f < |frames| && frames[f].page.Some? && frames[f].pins == 0
  }

  /** A list that does not track `f` has room for it. */
  lemma RoomLeft(list: seq<nat>, hashed: set<nat>, frames: seq<Frame>, i: nat, parts: nat, f: nat)
    requires parts >= 1 && TrackOk(list, hashed, frames, i, parts) && f !in list && f < |frames|
    ensures |list| < |frames|
  {
    var a := [f] + list;
    forall g | g in a ensures g < |frames| { if g != f { assert TrackedOk(g, hashed, frames, i, parts); } }
    Pigeonhole(a, |frames|);
  }

  /** A page maps to a frame if and only if that frame names the page. */
  ghost predicate Mapped(frames: seq<Frame>, table: map<int, nat>) {
    && (forall p :: p in table ==> table[p] < |frames| && frames[table[p]].page == Some(p))
    && (forall f :: 0 <= f < |frames| && frames[f].page.Some? ==>
          frames[f].page.value in table && table[frames[f].page.value] == f)
  }

  /** A frame is mapped, free or in transit, and only one of them; free frames are listed once. */
  ghost predicate Listed(frames: seq<Frame>, free: seq<seq<nat>>, slot: map<nat, nat>, transit: set<nat>, parts: nat) {
    && |free| == parts
    && (forall f :: 0 <= f < |frames| ==>
          (frames[f].page == None <==> f in slot || f in transit) && !(f in slot && f in transit))
    && (forall f :: f in slot ==> f < |frames| && slot[f] < parts && f in free[slot[f]])
    && (forall f :: f in transit ==> f < |frames|)
    && (forall i :: 0 <= i < parts ==> ListOk(free[i], slot, i))
  }

  /** The LRU lists and hashes agree and hold mapped, unpinned frames only, each in its own partition. */
  ghost predicate Tracked(frames: seq<Frame>, lru: seq<seq<nat>>, hashed: set<nat>, parts: nat)
    requires parts >= 1
  {
    && |lru| == parts
    && (forall f :: f in hashed ==> f < |frames| && f in lru[f % parts])
    && (forall i :: 0 <= i < parts ==> TrackOk(lru[i], hashed, frames, i, parts))
  }

  /** A frame that is in no list may change. */
  lemma ChangeFrame(frames: seq<Frame>, lru: seq<seq<nat>>, hashed: set<nat>, parts: nat, f: nat, x: Frame)
    requires parts >= 1 && Tracked(frames, lru, hashed, parts) && f < |frames| && f !in hashed
    ensures Tracked(frames[f := x], lru, hashed, parts)
  {
    forall i | 0 <= i < parts ensures TrackOk(lru[i], hashed, frames[f := x], i, parts) {
      assert TrackOk(lru[i], hashed, frames, i, parts);
      forall g | g in lru[i] ensures TrackedOk(g, hashed, frames[f := x], i, parts) {
        assert TrackedOk(g, hashed, frames, i, parts);
      }
    }
  }

  lemma TrackedIsUnpinned(frames: seq<Frame>, lru: seq<seq<nat>>, hashed: set<nat>, parts: nat, f: nat)
    requires parts >= 1 && Tracked(frames, lru, hashed, parts) && f < |frames|
    ensures f in hashed ==> frames[f].pins == 0
    ensures f !in hashed ==> Unlisted(lru, lru, f)
  {
    assert TrackOk(lru[f % parts], hashed, frames, f % parts, parts);
  }

  lemma UntrackFrame(frames: seq<Frame>, lru: seq<seq<nat>>, hashed: set<nat>, parts: nat, f: nat)
    requires parts >= 1 && Tracked(frames, lru, hashed, parts)
    ensures Tracked(frames, Untracked(lru, f, parts), hashed - {f}, parts)
    ensures Unlisted(lru, Untracked(lru, f, parts), f)
    ensures f !in hashed ==> Untracked(lru, f, parts) == lru
  {
    var k := f % parts;
    assert TrackOk(lru[k], hashed, frames, k, parts);
    WithoutErases(lru[k], f);
    WithoutDistinct(lru[k], f);
    assert f !in hashed ==> f !in lru[k];
    forall g ensures g in Without(lru[k], f) <==> g in lru[k] && g != f { WithoutMember(lru[k], f, g); }
    forall i | 0 <= i < parts ensures TrackOk(Untracked(lru, f, parts)[i], hashed - {f}, frames, i, parts) {
      assert TrackOk(lru[i], hashed, frames, i, parts);
      forall g | g in Untracked(lru, f, parts)[i] ensures TrackedOk(g, hashed - {f}, frames, i, parts) {
        assert TrackedOk(g, hashed, frames, i, parts);
      }
    }
  }

  lemma TrackFrame(frames: seq<Frame>, lru: seq<seq<nat>>, hashed: set<nat>, parts: nat, f: nat)
    requires parts >= 1 && Tracked(frames, lru, hashed, parts) && f < |frames| && f !in hashed
    requires frames[f].page.Some? && frames[f].pins == 0
    ensures |lru[f % parts]| < |frames|
    ensures Tracked(frames, lru[f % parts := [f] + lru[f % parts]], hashed + {f}, parts)
  {
    var k := f % parts;
    var after := lru[k := [f] + lru[k]];
    forall i | 0 <= i < parts ensures f !in lru[i] && TrackOk(after[i], hashed + {f}, frames, i, parts) {
      assert TrackOk(lru[i], hashed, frames, i, parts);
      forall g | g in after[i] ensures TrackedOk(g, hashed + {f}, frames, i, parts) {
        if g in lru[i] { assert TrackedOk(g, hashed, frames, i, parts); }
      }
    }
    RoomLeft(lru[k], hashed, frames, k, parts, f);
  }

  lemma EmptyOk(frames: seq<Frame>, free: seq<seq<nat>>, lru: seq<seq<nat>>, transit: set<nat>, parts: nat)
    requires parts >= 1 && |free| == |lru| == parts && transit == Below(|frames|)
    requires (forall f :: f in frames ==> f.page == None) && forall i :: 0 <= i < parts ==> free[i] == lru[i] == []
    ensures Mapped(frames, map[]) && Listed(frames, free, map[], transit, parts) && Tracked(frames, lru, {}, parts)
  {
  }

  /** Filling a frame keeps the maps in order exactly if the frame was in transit. */
  lemma FillFrame(frames: seq<Frame>, table: map<int, nat>, free: seq<seq<nat>>, slot: map<nat, nat>,
                  transit: set<nat>, parts: nat, p: int, f: nat)
    requires Mapped(frames, table) && Listed(frames, free, slot, transit, parts) && p !in table && f < |frames|
    ensures var after := frames[f := frames[f].(page := Some(p))];
      Mapped(after, table[p := f]) && Listed(after, free, slot, transit - {f}, parts) <==> f in transit
  {
    var after := frames[f := frames[f].(page := Some(p))];
    if f in transit {
      assert Mapped(after, table[p := f]);
    } else if frames[f].page.Some? {
      var q := frames[f].page.value;
      assert table[p := f][q] == f && after[f].page == Some(p);
    } else {
      assert f in slot && after[f].page != None;
    }
  }

  /** Taking the first frame of a free list. */
  lemma PopFrame(frames: seq<Frame>, free: seq<seq<nat>>, slot: map<nat, nat>, transit: set<nat>, parts: nat, i: nat)
    requires Listed(frames, free, slot, transit, parts) && i < parts && free[i] != []
    ensures var g := free[i][0];
      g !in transit && Listed(frames, free[i := free[i][1..]], slot - {g}, transit + {g}, parts)
  {
    var g := free[i][0];
    var rest := free[i := free[i][1..]];
    assert g in free[i] && ListOk(free[i], slot, i);
    assert free[i] == [g] + rest[i];
    ListTail(free[i], slot, i);
    forall j | 0 <= j < parts ensures ListOk(rest[j], slot - {g}, j) {
      if j != i { assert ListOk(free[j], slot, j); }
    }
  }

  class Pool {
    const parts: nat
    var frames: seq<Frame>
    var table: map<int, nat>       // page_tables
    var free: seq<seq<nat>>        // free_lists
    var lru: seq<seq<nat>>         // lru_lists, most recently used first
    var hashed: set<nat>           // keys of lru_hashes
    var evicting: seq<bool>        // is_evicting
    ghost var slot: map<nat, nat>  // the free list a free frame is in
    ghost var transit: set<nat>    // frames taken from a free list and not filled yet

    ghost predicate TableOk()
      reads this`frames, this`table
    {
      Mapped(frames, table)
    }

    ghost predicate FreeOk()
      reads this`frames, this`free, this`slot, this`transit
    {
      Listed(frames, free, slot, transit, parts)
    }

    ghost predicate LruOk()
      reads this`frames, this`lru, this`hashed, this`evicting
    {
      parts >= 1 && |evicting| == |frames| && Tracked(frames, lru, hashed, parts)
    }

    ghost predicate Valid()
      reads this
    {
      TableOk() && FreeOk() && LruOk()
    }

    /** An empty pool: frame `i` starts in the free list of partition `i % parts`. */
    constructor (size: nat, partitions: nat)
      requires partitions >= 1
      ensures Valid() && parts == partitions && table == map[] && transit == {} && hashed == {}
      ensures frames == seq(size, i => Frame(None, 0)) && evicting == seq(size, i => false)
      ensures forall i :: 0 <= i < parts ==> free[i] == Starting(size, parts, i)
    {
      parts := partitions;
      frames := seq(size, i => Frame(None, 0));
      table := map[];
      hashed, transit := {}, Below(size);
      evicting := seq(size, i => false);
      lru := seq(partitions, i => []);
      free := seq(partitions, i => []);
      slot := map[];
      new;
      EmptyOk(frames, free, lru, transit, parts);
      FillFree();
    }

    /** Every frame goes to the free list of its own partition. */
    method FillFree()
      requires parts >= 1 && FreeOk() && transit == Below(|frames|)
      requires forall i :: 0 <= i < parts ==> free[i] == []
      modifies this`free, this`slot, this`transit
      ensures FreeOk() && transit == {}
      ensures forall i :: 0 <= i < parts ==> free[i] == Starting(|frames|, parts, i)
    {
      var i := 0;
      while i < |frames|
        invariant 0 <= i <= |frames| && FreeOk() && (forall f :: f in transit <==> i <= f < |frames|)
        invariant forall j :: 0 <= j < parts ==> free[j] == Starting(i, parts, j)
        modifies this`free, this`slot, this`transit
      {
        PutFree(i, i % parts);
        i := i + 1;
      }
    }

    /** A frame nobody uses goes to the end of a free list. */
    method PutFree(f: nat, i: nat)
      requires FreeOk() && f in transit && i < parts
      modifies this`free, this`slot, this`transit
      ensures FreeOk() && transit == old(transit) - {f}
      ensures free == old(free)[i := old(free)[i] + [f]] && slot == old(slot)[f := i]
    {
      assert f !in slot && f !in free[i];
      free := free[i := free[i] + [f]];
      slot := slot[f := i];
      transit := transit - {f};
    }

    /** From `start` on, `n` partitions are searched in vain, and `f` is the oldest unclaimed frame of the next. */
    ghost predicate FoundIn(start: nat, n: nat, flags: seq<bool>, f: nat)
      requires parts >= 1 && |lru| == parts
      reads this`lru
    {
      && (forall m :: 0 <= m < n ==> Busy(lru[Around(start, m, parts)], flags))
      && var list := lru[Around(start, n, parts)];
         exists j: nat :: OldestUnclaimed(list, flags, j) && list[j] == f
    }

    /**
     Marks a victim candidate, searching every partition from `start` on and at
     most five frames of each, least recently used first. None is found only if
     all of those are taken.
     */
    method TryVictim(start: nat) returns (f: Option<nat>)
      requires LruOk() && start < parts
      modifies this`evicting
      ensures LruOk()
      ensures f.Some? ==>
        f.value in hashed && !old(evicting)[f.value] && evicting == old(evicting)[f.value := true]
      ensures f.Some? ==> exists n :: 0 <= n < parts && FoundIn(start, n, old(evicting), f.value)
      ensures f.None? ==> evicting == old(evicting) && forall i :: 0 <= i < parts ==> Busy(lru[i], evicting)
    {
      var n := 0;
      while n < parts
        invariant 0 <= n <= parts && evicting == old(evicting)
        invariant forall m :: 0 <= m < n ==> Busy(lru[Around(start, m, parts)], evicting)
      {
        f := Probe(Around(start, n, parts));
        if f.Some? {
          assert FoundIn(start, n, old(evicting), f.value);
          return f;
        }
        n := n + 1;
      }
      forall i | 0 <= i < parts ensures Busy(lru[i], evicting) { RoundRobin(start, i, parts); }
      return None;
    }

    /** The search in one partition. */
    method Probe(i: nat) returns (f: Option<nat>)
      requires LruOk() && i < parts
      modifies this`evicting
      ensures LruOk()
      ensures f.Some? ==>
        f.value in hashed && !old(evicting)[f.value] && evicting == old(evicting)[f.value := true]
      ensures f.Some? ==> exists j: nat :: OldestUnclaimed(lru[i], old(evicting), j) && lru[i][j] == f.value
      ensures f.None? ==> evicting == old(evicting) && Busy(lru[i], evicting)
    {
      var list := lru[i];
      assert TrackOk(list, hashed, frames, i, parts);
      var k := |list|;
      while k > 0 && |list| - k < PROBES
        invariant 0 <= k <= |list| && |list| - k <= PROBES && evicting == old(evicting)
        invariant forall j :: k <= j < |list| ==> list[j] < |evicting| && evicting[list[j]]
      {
        k := k - 1;
        var candidate := list[k];
        assert TrackedOk(candidate, hashed, frames, i, parts);
        if !evicting[candidate] {
          assert OldestUnclaimed(list, evicting, k);
          evicting := evicting[candidate := true];
          return Some(candidate);
        }
      }
      return None;
    }

    /** The search is over: a victim that was locked leaves the list, any other stays. */
    method EndVictim(locked: bool, f: nat)
      requires LruOk() && f < |frames|
      modifies this`lru, this`hashed, this`evicting
      ensures LruOk() && evicting == old(evicting)[f := false]
      ensures hashed == if locked then old(hashed) - {f} else old(hashed)
      ensures if locked then Unlisted(old(lru), lru, f) else lru == old(lru)
    {
      if locked { Untrack(f); }
      evicting := evicting[f := false];
    }

    /** replacer->pin: the frame is no victim any more. */
    method Untrack(f: nat)
      requires LruOk() && f < |frames|
      modifies this`lru, this`hashed
      ensures LruOk() && f !in hashed && hashed == old(hashed) - {f} && Unlisted(old(lru), lru, f)
    {
      UntrackFrame(frames, lru, hashed, parts, f);
      if f in hashed {
        lru := lru[f % parts := Without(lru[f % parts], f)];
        hashed := hashed - {f};
      }
    }

    /** The page, if it is here; from now on it is pinned. */
    method TryFetchPage(p: int) returns (f: Option<nat>)
      requires Valid()
      modifies this`frames, this`lru, this`hashed
      ensures Valid()
      ensures f == if p in table then Some(table[p]) else None
      ensures f.Some? ==> f.value !in hashed && hashed == old(hashed) - {f.value}
      ensures f.Some? ==> frames == old(frames)[f.value := Frame(Some(p), old(frames)[f.value].pins + 1)]
      ensures f.Some? ==> Unlisted(old(lru), lru, f.value)
      ensures f.None? ==> frames == old(frames) && hashed == old(hashed) && lru == old(lru)
    {
      if p !in table { return None; }
      var g := table[p];
      var pins := frames[g].pins;
      if pins == 0 {
        Untrack(g);
      } else {
        TrackedIsUnpinned(frames, lru, hashed, parts, g);
      }
      ChangeFrame(frames, lru, hashed, parts, g, frames[g].(pins := pins + 1));
      frames := frames[g := frames[g].(pins := pins + 1)];
      return Some(g);
    }

    /** The page is not used any more but stays here: its frame becomes the most recent victim candidate. */
    method UnpinPage(p: int)
      requires Valid() && p in table
      modifies this`frames, this`lru, this`hashed
      ensures Valid() && hashed == old(hashed) + {table[p]}
      ensures frames == old(frames)[table[p] := Frame(Some(p), 0)]
      ensures ToFront(old(lru), lru, table[p])
    {
      var f := table[p];
      frames := frames[f := frames[f].(pins := 0)];
      Track(f);
    }

    /** replacer->unpin: the frame becomes the most recently used victim candidate. */
    method Track(f: nat)
      requires LruOk() && f < |frames| && frames[f].page.Some? && frames[f].pins == 0
      modifies this`lru, this`hashed
      ensures LruOk() && hashed == old(hashed) + {f}
      ensures ToFront(old(lru), lru, f)
    {
      Untrack(f);
      TrackFrame(frames, lru, hashed, parts, f);
      assert |lru[f % parts]| < |frames|;
      lru := lru[f % parts := [f] + lru[f % parts]];
      hashed := hashed + {f};
    }

    /** The node gives the page up: its frame goes back to the free list of the page's partition. */
    method ReleasePage(p: int)
      requires Valid() && p in table
      modifies this
      ensures Valid() && table == old(table) - {p} && transit == old(transit)
      ensures var f := old(table[p]);
        && hashed == old(hashed) - {f} && Unlisted(old(lru), lru, f)
        && frames == old(frames)[f := Frame(None, 0)]
        && free == old(free)[p % parts := old(free)[p % parts] + [f]]
    {
      var f := table[p];
      Untrack(f);
      ChangeFrame(frames, lru, hashed, parts, f, Frame(None, 0));
      frames := frames[f := Frame(None, 0)];
      table := table - {p};
      transit := transit + {f};
      PutFree(f, p % parts);
    }

    /** Takes a free frame of the page's partition, if there is one. */
    method TakeFree(p: int) returns (f: Option<nat>)
      requires Valid() && p !in table
      modifies this`free, this`slot, this`transit
      ensures Valid()
      ensures f.Some? <==> old(free)[p % parts] != []
      ensures f.Some? ==> f.value !in old(transit) && transit == old(transit) + {f.value}
      ensures f.Some? ==> [f.value] + free[p % parts] == old(free)[p % parts]
      ensures f.Some? ==> free == old(free)[p % parts := free[p % parts]]
      ensures f.None? ==> transit == old(transit) && free == old(free)
    {
      if free[p % parts] == [] { return None; }
      var g := PopFree(p % parts);
      return Some(g);
    }

    /** Takes the first frame out of a free list. */
    method PopFree(i: nat) returns (g: nat)
      requires FreeOk() && i < parts && free[i] != []
      modifies this`free, this`slot, this`transit
      ensures FreeOk() && g !in old(transit) && transit == old(transit) + {g}
      ensures [g] + free[i] == old(free)[i] && free == old(free)[i := free[i]] && slot == old(slot) - {g}
    {
      PopFrame(frames, free, slot, transit, parts, i);
      g := free[i][0];
      assert free[i] == [g] + free[i][1..];
      free := free[i := free[i][1..]];
      slot := slot - {g};
      transit := transit + {g};
    }

    /** Fills a frame. The pool stays in order exactly if the frame is in transit. */
    method InsertPage(p: int, f: nat)
      requires Valid() && p !in table && f < |frames|
      modifies this
      ensures Valid() <==> f in old(transit)
      ensures table == old(table)[p := f] && transit == old(transit) - {f} && free == old(free) && LruOk()
      ensures frames == old(frames)[f := old(frames)[f].(page := Some(p))]
      ensures hashed == old(hashed) - {f} && Unlisted(old(lru), lru, f)
    {
      FillFrame(frames, table, free, slot, transit, parts, p, f);
      Untrack(f);
      ChangeFrame(frames, lru, hashed, parts, f, frames[f].(page := Some(p)));
      frames, table, transit := frames[f := frames[f].(page := Some(p))], table[p := f], transit - {f};
      assert LruOk() && (TableOk() && FreeOk() <==> f in old(transit));
    }

    /** Gives the victim's frame to a new page. The pool stays in order exactly if the frame still holds the victim. */
    method ReplacePage(p: int, f: nat, victim: int)
      requires Valid() && p !in table && victim in table && f < |frames|
      modifies this
      ensures Valid() <==> old(table)[victim] == f
      ensures table == (old(table) - {victim})[p := f] && transit == old(transit) && free == old(free) && LruOk()
      ensures frames == old(frames)[f := old(frames)[f].(page := Some(p))]
      ensures hashed == old(hashed) - {f} && Unlisted(old(lru), lru, f)
    {
      ghost var held := table[victim];
      Untrack(f);
      ChangeFrame(frames, lru, hashed, parts, f, frames[f].(page := Some(p)));
      table := (table - {victim})[p := f];
      frames := frames[f := frames[f].(page := Some(p))];
      assert held != f ==> frames[held].page == Some(victim) && victim !in table;
    }
  }
}
