/**
 The copies of a page and the log together. Both models keep the same picture of
 the page: who has a copy, to whom one is on its way, and how many writes there
 have been. Here is what each step of either model does to that picture.
 */
module JointSteps {
  import opened Options
  import opened PageLockTypes
  import opened PageOwnership
  import opened PageSteps
  import PageTheorems
  import opened PageCopies
  import opened CopySteps
  import opened CopyTheorems
  import Log = WriteAheadLog

  /** Copies, receivers of copies on their way, and writes so far. */
  datatype Picture = Picture(at: set<Node>, fly: set<Node>, version: nat)

  function PictureOf(d: Data): Picture {
    Picture((set n | n in d.copy && HasCopy(d, n)), (set n | n in d.via && d.via[n].Flying?), d.version)
  }

  // ----- the side of the copies -----

  predicate Sends(d: Data, n: Node) {
    var src := d.s.g.src;
    src.Some? && src.value in d.via && d.via[src.value] == Pended(n) && n in d.copy
  }

  /** Who sends the page to whom in a step of the ownership protocol. */
  function PushIn(d: Data, e: Step): Option<(Node, Node)>
    requires MayStep(d, e)
  {
    match e
    case Ask(n) =>
      if Asked(d.s, n).granted && n !in d.valid && d.newest.Some? then Some((d.newest.value, n)) else None
    case Unlock(n) => if d.s.nodes[n].pending && Sends(d, n) then Some((n, d.s.g.src.value)) else None
    case PendingArrives(n) =>
      if OnPending(d.s.nodes[n], d.s.pend[n]).1 && Sends(d, n) then Some((n, d.s.g.src.value)) else None
    case _ => None
  }

  predicate Evicts(d: Data, e: Step)
    requires MayStep(d, e)
  {
    e.AskEvict? && e.n in d.s.g.holders && !d.s.g.pending
  }

  function WithPush(v: Picture, push: Option<(Node, Node)>): Picture {
    if push.Some? then v.(fly := v.fly + {push.value.1}) else v
  }

  /** Sending needs a copy, and the receiver is another node to which none is on its way. */
  lemma PushFacts(d: Data, e: Step)
    requires DataInv(d) && May(d, Protocol(e)) && PushIn(d, e).Some?
    ensures var (m, to) := PushIn(d, e).value;
      HasCopy(d, m) && m != to && m in d.s.nodes && to in d.s.nodes && to !in PictureOf(d).fly
  {
    var (m, to) := PushIn(d, e).value;
    if e.Ask? {
      AskManager(d, e.n);
      NewestCopy(d, m);
      assert NodeOkIn(d.s, m) && CopyOkIn(d, m);
    } else {
      assert CopyOkIn(d, to);
      SenderHasCopy(d, m);
    }
  }

  /** A holder is not throwing its copy away. */
  lemma SenderHasCopy(d: Data, m: Node)
    requires DataInv(d) && m in d.s.g.holders && m in d.copy
    ensures HasCopy(d, m)
  {
    assert NodeOkIn(d.s, m);
  }

  lemma PushOutPicture(d: Data, n: Node)
    ensures PictureOf(PushOut(d, n)) ==
      WithPush(PictureOf(d), if Sends(d, n) then Some((n, d.s.g.src.value)) else None)
  {
  }

  /** Giving the page up drops the copy, and sends nothing else. */
  lemma LeavePicture(d: Data, s: State, n: Node, l: Local)
    requires Departs(d, s, n, l)
    ensures var d' := LeaveData(d, n).(s := GiveUp(s, n, l));
      PictureOf(d') == PictureOf(d).(at := PictureOf(d).at - {n})
  {
    var d' := LeaveData(d, n).(s := GiveUp(s, n, l));
    forall k ensures k in PictureOf(d').fly <==> k in PictureOf(d).fly { LeaveFlies(d, s, n, l, k); }
    LeaveCopies(d, s, n, l);
  }

  lemma LeaveCopies(d: Data, s: State, n: Node, l: Local)
    requires Departs(d, s, n, l)
    ensures var d' := LeaveData(d, n).(s := GiveUp(s, n, l));
      PictureOf(d').at == PictureOf(d).at - {n} && d'.version == d.version
  {
    LeaveDataCopies(d, n);
    CopyGone(d, LeaveData(d, n).(s := GiveUp(s, n, l)), n);
  }

  lemma LeaveDataCopies(d: Data, n: Node)
    ensures LeaveData(d, n).copy == d.copy - {n} && LeaveData(d, n).version == d.version
  {
  }

  /** Only the copy of `n` is gone, and no other node has begun or ended an eviction. */
  lemma CopyGone(d: Data, d': Data, n: Node)
    requires d'.copy == d.copy - {n} && n in d'.s.nodes && d'.s.nodes == d.s.nodes[n := d'.s.nodes[n]]
    ensures PictureOf(d').at == PictureOf(d).at - {n}
  {
  }

  lemma LeaveFlies(d: Data, s: State, n: Node, l: Local, k: Node)
    requires Departs(d, s, n, l)
    ensures var via := LeaveData(d, n).via;
      k in via && via[k].Flying? <==> k in d.via && d.via[k].Flying?
  {
    if Transfer(Drop(s.g, n)).1 {
      OnlyTheNext(d, s, n, l);
      PassedSources(d, s, n, l, k);
    }
  }

  lemma UnlockPicture(d: Data, n: Node)
    requires DataInv(d) && May(d, Protocol(Unlock(n)))
    ensures var v := WithPush(PictureOf(d), PushIn(d, Unlock(n)));
      PictureOf(Do(d, Protocol(Unlock(n)))) == if Unlatch(d.s.nodes[n]).1 then v.(at := v.at - {n}) else v
  {
    var l := d.s.nodes[n];
    OwnerOf(d, n);
    PushOutKeeps(d, n);
    PushOutPicture(d, n);
    if Unlatch(l).1 {
      PageTheorems.UnlockLeaves(d.s, n);
      LeavePicture(PushOut(d, n), d.s, n, Unlatch(l).0);
    } else {
      assert NodeOkIn(d.s, n);
      QuietPicture(if l.pending then PushOut(d, n) else d, Unlock(n));
    }
  }

  lemma PendingPicture(d: Data, n: Node)
    requires DataInv(d) && May(d, Protocol(PendingArrives(n)))
    ensures var v := WithPush(PictureOf(d), PushIn(d, PendingArrives(n)));
      PictureOf(Do(d, Protocol(PendingArrives(n)))) ==
      if OnPending(d.s.nodes[n], d.s.pend[n]).1 then v.(at := v.at - {n}) else v
  {
    var l := d.s.nodes[n];
    if OnPending(l, d.s.pend[n]).1 {
      PendingOwner(d, n);
      PushOutKeeps(d, n);
      PushOutPicture(d, n);
      PageTheorems.PendingLeaves(d.s, n);
      LeavePicture(PushOut(d, n), d.s.(pend := d.s.pend - {n}), n, OnPending(l, d.s.pend[n]).0);
    } else {
      assert NodeOkIn(d.s, n);
      QuietPicture(d, PendingArrives(n));
    }
  }

  /** A step that starts, ends or agrees to no eviction leaves the copies alone. */
  lemma QuietPicture(d: Data, e: Step)
    requires Enabled(d.s, e) && IsLocal(d.s, e) && !e.FinishEvict? && LocalOk(d.s.nodes[e.n])
    ensures PictureOf(d.(s := Apply(d.s, e))) == PictureOf(d)
  {
    var d' := d.(s := Apply(d.s, e));
    QuietFrame(d.s, e);
    assert d'.s.nodes[e.n].evict == Agreed <==> d.s.nodes[e.n].evict == Agreed;
    forall n ensures HasCopy(d', n) <==> HasCopy(d, n) {}
  }

  lemma AskPicture(d: Data, n: Node)
    requires DataInv(d) && May(d, Protocol(Ask(n)))
    ensures PictureOf(Do(d, Protocol(Ask(n)))) == WithPush(PictureOf(d), PushIn(d, Ask(n)))
  {
    AskSends(d, n);
    AskCopies(d, n);
  }

  lemma AskCopies(d: Data, n: Node)
    requires May(d, Protocol(Ask(n)))
    ensures var d' := Do(d, Protocol(Ask(n)));
      PictureOf(d').at == PictureOf(d).at && d'.version == d.version
  {
    forall k ensures HasCopy(Do(d, Protocol(Ask(n))), k) <==> HasCopy(d, k) {}
  }

  lemma AskSends(d: Data, n: Node)
    requires DataInv(d) && May(d, Protocol(Ask(n)))
    ensures PictureOf(Do(d, Protocol(Ask(n)))).fly == WithPush(PictureOf(d), PushIn(d, Ask(n))).fly
  {
    AskManager(d, n);
    assert AskData(d, n).via.Keys <= d.via.Keys + {n};
  }

  lemma EvictPicture(d: Data, n: Node)
    requires DataInv(d) && May(d, Protocol(AskEvict(n)))
    ensures var v := PictureOf(d);
      PictureOf(Do(d, Protocol(AskEvict(n)))) == if Evicts(d, AskEvict(n)) then v.(at := v.at - {n}) else v
  {
    var d' := Do(d, Protocol(AskEvict(n)));
    forall k | k != n ensures HasCopy(d', k) <==> HasCopy(d, k) {}
  }

  lemma FinishEvictPicture(d: Data, n: Node)
    requires May(d, Protocol(FinishEvict(n)))
    ensures PictureOf(Do(d, Protocol(FinishEvict(n)))) == PictureOf(d)
  {
    var d' := Do(d, Protocol(FinishEvict(n)));
    CopyGone(d, d', n);
    assert !HasCopy(d, n);
  }

  /** What a step of the ownership protocol does to the picture: at most one push, then at most one copy gone. */
  lemma ProtocolPicture(d: Data, e: Step)
    requires DataInv(d) && May(d, Protocol(e))
    ensures var v := WithPush(PictureOf(d), PushIn(d, e));
      PictureOf(Do(d, Protocol(e))) == if Leaving(d, e) || Evicts(d, e) then v.(at := v.at - {e.n}) else v
  {
    match e
    case Ask(n) => AskPicture(d, n);
    case Unlock(n) => UnlockPicture(d, n);
    case PendingArrives(n) => PendingPicture(d, n);
    case AskEvict(n) => EvictPicture(d, n);
    case FinishEvict(n) => FinishEvictPicture(d, n);
    case _ => RestPicture(d, e);
  }

  lemma RestPicture(d: Data, e: Step)
    requires DataInv(d) && May(d, Protocol(e)) && IsLocal(d.s, e) && !e.FinishEvict? && !e.Unlock? && !e.PendingArrives?
    ensures PictureOf(Do(d, Protocol(e))) == PictureOf(d)
  {
    assert NodeOkIn(d.s, e.n);
    QuietPicture(d, e);
    assert PictureOf(Do(d, Protocol(e))).fly == PictureOf(d).fly by { if e.RemoteOK? { assert HasData(d, e.n); } }
  }

  lemma LoadPicture(d: Data, n: Node)
    requires DataInv(d) && May(d, Load(n))
    ensures PictureOf(Do(d, Load(n))) == PictureOf(d).(at := PictureOf(d).at + {n})
  {
    assert CopyOkIn(d, n) && NodeOkIn(d.s, n);
    forall k | k != n ensures HasCopy(Do(d, Load(n)), k) <==> HasCopy(d, k) {}
  }

  lemma ArrivalPicture(d: Data, n: Node)
    requires DataInv(d) && May(d, PushArrives(n))
    ensures PictureOf(Do(d, PushArrives(n))) ==
      PictureOf(d).(at := PictureOf(d).at + {n}, fly := PictureOf(d).fly - {n})
  {
    assert CopyOkIn(d, n) && NodeOkIn(d.s, n);
    SrcIsQueued(d.s, n);
    forall k | k != n ensures HasCopy(Do(d, PushArrives(n)), k) <==> HasCopy(d, k) {}
  }

  lemma WritePicture(d: Data, n: Node)
    requires May(d, Write(n))
    ensures PictureOf(Do(d, Write(n))) == PictureOf(d).(version := d.version + 1)
  {
    forall k ensures HasCopy(Do(d, Write(n)), k) <==> HasCopy(d, k) {}
  }

  lemma ListPicture(d: Data, n: Node, to: Node)
    requires DataInv(d) && May(d, PushListed(n, to))
    ensures PictureOf(Do(d, PushListed(n, to))) == WithPush(PictureOf(d), Some((n, to)))
    ensures HasCopy(d, n) && n != to && to in d.s.nodes && to !in PictureOf(d).fly
  {
    assert CopyOkIn(d, n) && CopyOkIn(d, to) && NodeOkIn(d.s, n);
    SrcIsQueued(d.s, n);
    forall k ensures HasCopy(Do(d, PushListed(n, to)), k) <==> HasCopy(d, k) {}
  }
}
