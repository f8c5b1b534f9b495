/** What storage's notifications mean, over any order and repetition of durable records. */
module NotifierProofs {
  import opened Options
  import opened PreparedTxn
  import opened PrepareNotifier
  import TwoPhase = TwoPhaseCommit
  import TwoPhaseProofs

  /**
   The aggregation; the records observed so far; those of them observed since
   4096 answers last followed an answer for their transaction; and the
   transactions whose notifications have been answered, in order.
   */
  datatype Watch = Watch(v: Votes, seen: set<Request>, kept: set<Request>, answers: seq<Option<Id>>)

  const START := Watch(NO_VOTES, {}, {}, [])

  datatype Event = Observe(r: Request) | Answered(id: Option<Id>)

  /** A failed check stops the process; only a notification that was sent is answered. */
  predicate May(w: Watch, e: Event) {
    match e
    case Observe(r) => Add(w.v, r).1 != Failed
    case Answered(id) => id in w.v.open && w.v.open[id].notified
  }

  function Next(w: Watch, e: Event): Watch
    requires May(w, e)
  {
    match e
    case Observe(r) => w.(v := Add(w.v, r).0, seen := w.seen + {r}, kept := w.kept + {r})
    case Answered(id) =>
      var answers := w.answers + [id];
      w.(v := Complete(w.v, id), kept := Aged(w.kept, answers), answers := answers)
  }

  /** The last 4096 answers. */
  function Recent(answers: seq<Option<Id>>): seq<Option<Id>> {
    if |answers| <= RECENT then answers else answers[|answers| - RECENT..]
  }

  /** The records without those of the transaction whose answer has just become too old. */
  function Aged(kept: set<Request>, answers: seq<Option<Id>>): set<Request> {
    if |answers| <= RECENT then kept else set r | r in kept && r.id != answers[|answers| - RECENT - 1]
  }

  predicate Legal(w: Watch, events: seq<Event>)
    decreases |events|
  {
    events == [] || (May(w, events[0]) && Legal(Next(w, events[0]), events[1..]))
  }

  function After(w: Watch, events: seq<Event>): Watch
    requires Legal(w, events)
    decreases |events|
  {
    if events == [] then w else After(Next(w, events[0]), events[1..])
  }

  /** The participant's record is among those observed. */
  ghost predicate Voted(seen: set<Request>, meta: Meta, p: int) {
    exists r :: r in seen && r.participant == p && MetaOf(r) == meta
  }

  /** Every participant's record is among those observed. */
  ghost predicate EveryVote(seen: set<Request>, meta: Meta) {
    forall p {:trigger Voted(seen, meta, p)} :: p in meta.participants ==> Voted(seen, meta, p)
  }

  ghost predicate HasRecord(seen: set<Request>, meta: Meta) {
    exists r :: r in seen && MetaOf(r) == meta
  }

  // ----- the invariant -----

  /** An open vote set holds observed records of its transaction, and was reported only when complete. */
  ghost predicate OpenOk(w: Watch, id: Option<Id>)
    requires id in w.v.open
  {
    var x := w.v.open[id];
    && x.meta.id == id && id !in w.v.completed && HasRecord(w.kept, x.meta)
    && (forall p :: p in x.votes ==>
          x.votes[p] in w.kept && x.votes[p].participant == p && MetaOf(x.votes[p]) == x.meta)
    && (x.notified ==> AllVoted(x))
  }

  ghost predicate ClosedOk(w: Watch, id: Option<Id>)
    requires id in w.v.completed
  {
    w.v.completed[id].id == id && HasRecord(w.kept, w.v.completed[id]) && EveryVote(w.kept, w.v.completed[id])
  }

  ghost predicate Inv(w: Watch) {
    && (forall id {:trigger OpenOk(w, id)} :: id in w.v.open ==> OpenOk(w, id))
    && (forall id {:trigger ClosedOk(w, id)} :: id in w.v.completed ==> ClosedOk(w, id))
    && OrderOk(w) && w.kept <= w.seen
  }

  /** Exactly the transactions of the last 4096 answers are remembered, each once. */
  ghost predicate OrderOk(w: Watch) {
    w.v.order == Recent(w.answers) && Listed(w.v.completed.Keys, w.v.order)
  }

  /** The sequence has exactly these members, each once. */
  ghost predicate Listed(keys: set<Option<Id>>, order: seq<Option<Id>>) {
    && (forall id :: id in keys <==> id in order)
    && (forall i, j :: 0 <= i < j < |order| ==> order[i] != order[j])
  }

  /** At most one completion is forgotten at a time. */
  lemma TrimmedOnce(completed: map<Option<Id>, Meta>, order: seq<Option<Id>>)
    requires |order| <= RECENT + 1
    ensures Trimmed(completed, order) ==
      if |order| <= RECENT then (completed, order) else (completed - {order[0]}, order[1..])
  {
    if |order| == RECENT + 1 {
      assert Trimmed(completed, order) == Trimmed(completed - {order[0]}, order[1..]);
    }
  }

  lemma RecentMore(answers: seq<Option<Id>>, id: Option<Id>)
    ensures |Recent(answers)| == if |answers| <= RECENT then |answers| else RECENT
    ensures Recent(answers + [id]) ==
      if |answers| < RECENT then Recent(answers) + [id] else Recent(answers)[1..] + [id]
    ensures |answers| >= RECENT ==> (answers + [id])[|answers| - RECENT] == Recent(answers)[0]
  {
  }

  /** One completion more is remembered, and the oldest one forgotten if there are too many. */
  lemma CompleteOne(v: Votes, id: Option<Id>)
    requires id in v.open && id !in v.completed && |v.order| <= RECENT
    ensures var all := v.completed[id := v.open[id].meta];
      Complete(v, id) == if |v.order| < RECENT then Votes(v.open - {id}, all, v.order + [id])
        else Votes(v.open - {id}, all - {v.order[0]}, v.order[1..] + [id])
  {
    TrimmedOnce(v.completed[id := v.open[id].meta], v.order + [id]);
    assert |v.order| == RECENT ==> (v.order + [id])[1..] == v.order[1..] + [id];
  }

  lemma OrderKeeps(w: Watch, w': Watch, id: Option<Id>)
    requires OrderOk(w) && id in w.v.open && id !in w.v.completed
    requires w'.v == Complete(w.v, id) && w'.answers == w.answers + [id]
    ensures OrderOk(w')
    ensures forall j :: j in w'.v.completed ==>
      w'.v.completed[j] == if j == id then w.v.open[id].meta else w.v.completed[j]
    ensures |w.answers| >= RECENT ==>
      && w'.answers[|w.answers| - RECENT] == w.v.order[0]
      && w.v.order[0] in w.v.completed && w'.v.completed.Keys == w.v.completed.Keys - {w.v.order[0]} + {id}
    ensures |w.answers| < RECENT ==> w'.v.completed.Keys == w.v.completed.Keys + {id}
  {
    RecentMore(w.answers, id);
    CompleteOne(w.v, id);
    if |w.answers| < RECENT {
      OrderGrows(w.v.order, w.v.completed.Keys, id);
      KeysMore(w.v.completed, id, w.v.open[id].meta);
    } else {
      OrderMoves(w.v.order, w.v.completed.Keys, id);
      KeysMoved(w.v.completed, w.v.order[0], id, w.v.open[id].meta);
    }
  }

  lemma KeysMore(completed: map<Option<Id>, Meta>, id: Option<Id>, meta: Meta)
    ensures completed[id := meta].Keys == completed.Keys + {id}
  {
  }

  lemma KeysMoved(completed: map<Option<Id>, Meta>, oldest: Option<Id>, id: Option<Id>, meta: Meta)
    requires oldest in completed && id !in completed
    ensures (completed[id := meta] - {oldest}).Keys == completed.Keys - {oldest} + {id}
  {
  }

  lemma OrderGrows(order: seq<Option<Id>>, keys: set<Option<Id>>, id: Option<Id>)
    requires Listed(keys, order) && id !in keys
    ensures Listed(keys + {id}, order + [id])
  {
    assert order == (order + [id])[..|order|];
  }

  lemma OrderMoves(order: seq<Option<Id>>, keys: set<Option<Id>>, id: Option<Id>)
    requires Listed(keys, order) && id !in keys && order != []
    ensures order[0] in keys && Listed(keys - {order[0]} + {id}, order[1..] + [id])
  {
    assert order == [order[0]] + order[1..] && order[0] in order && order[0] !in order[1..];
    OrderGrows(order[1..], keys - {order[0]}, id);
  }

  lemma SeenMore(seen: set<Request>, r: Request, meta: Meta)
    ensures HasRecord(seen, meta) ==> HasRecord(seen + {r}, meta)
    ensures EveryVote(seen, meta) ==> EveryVote(seen + {r}, meta)
  {
    if EveryVote(seen, meta) {
      forall p | p in meta.participants ensures Voted(seen + {r}, meta, p) {
        assert Voted(seen, meta, p);
        var q :| q in seen && q.participant == p && MetaOf(q) == meta;
        assert q in seen + {r};
      }
    }
    if HasRecord(seen, meta) {
      var q :| q in seen && MetaOf(q) == meta;
      assert q in seen + {r};
    }
  }

  lemma AllVotedIsEveryVote(w: Watch, id: Option<Id>)
    requires id in w.v.open && OpenOk(w, id) && AllVoted(w.v.open[id])
    ensures EveryVote(w.kept, w.v.open[id].meta)
  {
    var x := w.v.open[id];
    forall p | p in x.meta.participants ensures Voted(w.kept, x.meta, p) {
      assert x.votes[p] in w.kept;
    }
  }

  lemma ObserveKeeps(w: Watch, r: Request)
    requires Inv(w) && May(w, Observe(r))
    ensures Inv(Next(w, Observe(r)))
  {
    var w' := Next(w, Observe(r));
    forall id | id in w'.v.completed ensures ClosedOk(w', id) {
      assert ClosedOk(w, id);
      SeenMore(w.kept, r, w.v.completed[id]);
    }
    forall id | id in w'.v.open ensures OpenOk(w', id) {
      if id in w.v.open {
        assert OpenOk(w, id);
        SeenMore(w.kept, r, w.v.open[id].meta);
      }
      assert r in w'.kept;
    }
  }

  /** Records of other transactions stay. */
  lemma OthersStay(kept: set<Request>, kept': set<Request>, meta: Meta)
    requires forall r :: r in kept && r.id == meta.id ==> r in kept'
    ensures HasRecord(kept, meta) ==> HasRecord(kept', meta)
    ensures EveryVote(kept, meta) ==> EveryVote(kept', meta)
  {
    if HasRecord(kept, meta) {
      var r :| r in kept && MetaOf(r) == meta;
      assert r in kept';
    }
    if EveryVote(kept, meta) {
      forall p | p in meta.participants ensures Voted(kept', meta, p) {
        assert Voted(kept, meta, p);
        var r :| r in kept && r.participant == p && MetaOf(r) == meta;
        assert r in kept';
      }
    }
  }

  lemma AnsweredKeeps(w: Watch, id: Option<Id>)
    requires Inv(w) && May(w, Answered(id))
    ensures Inv(Next(w, Answered(id)))
  {
    var w' := Next(w, Answered(id));
    assert OpenOk(w, id);
    OrderKeeps(w, w', id);
    forall j | j in w'.v.completed ensures ClosedOk(w', j) {
      if j == id { AllVotedIsEveryVote(w, id); } else { assert ClosedOk(w, j); }
      OthersStay(w.kept, w'.kept, w'.v.completed[j]);
    }
    forall j | j in w'.v.open ensures OpenOk(w', j) {
      assert OpenOk(w, j);
      OthersStay(w.kept, w'.kept, w.v.open[j].meta);
    }
  }

  lemma {:induction false} RunKeeps(w: Watch, events: seq<Event>)
    requires Inv(w) && Legal(w, events)
    ensures Inv(After(w, events))
    decreases |events|
  {
    if events == [] {
    } else {
      match events[0] {
        case Observe(r) => ObserveKeeps(w, r);
        case Answered(id) => AnsweredKeeps(w, id);
      }
      RunKeeps(Next(w, events[0]), events[1..]);
    }
  }

  /**
   Over any order and repetition of records, and however many transactions have
   been forgotten: a coordinator is told only when a record of every participant
   has been observed.
   */
  lemma NoticeIsSound(events: seq<Event>, r: Request)
    requires Legal(START, events) && Add(After(START, events).v, r).1.Notified?
    ensures Add(After(START, events).v, r).1 == Notified(MetaOf(r))
    ensures EveryVote(After(START, events).seen + {r}, MetaOf(r))
  {
    RunKeeps(START, events);
    var w := After(START, events);
    var w' := Next(w, Observe(r));
    ObserveKeeps(w, r);
    assert OpenOk(w', r.id);
    AllVotedIsEveryVote(w', r.id);
    OthersStay(w'.kept, w'.seen, MetaOf(r));
  }

  // ----- records that belong together -----

  /** One transaction has one set of participants and timestamps, and each participant one record. */
  ghost predicate Compatible(seen: set<Request>) {
    && (forall r, q :: r in seen && q in seen && r.id == q.id ==>
          MetaOf(r) == MetaOf(q) && (r.participant == q.participant ==> r == q))
    && (forall r :: r in seen ==> Ascending(r.participants) && r.participant in r.participants)
  }

  function Members(nodes: seq<int>): set<int> { set p | p in nodes }

  lemma {:induction false} MembersCount(nodes: seq<int>)
    requires Ascending(nodes)
    ensures |Members(nodes)| == |nodes|
  {
    if nodes == [] {
      assert Members(nodes) == {};
    } else {
      var last := |nodes| - 1;
      MembersCount(nodes[..last]);
      assert nodes == nodes[..last] + [nodes[last]];
      assert Members(nodes) == Members(nodes[..last]) + {nodes[last]};
      assert nodes[last] !in Members(nodes[..last]);
    }
  }

  lemma SubsetOfSameSize(a: set<int>, b: set<int>)
    requires a <= b && |a| == |b|
    ensures a == b
  {
    assert b == a + (b - a);
    assert |b - a| == 0;
  }

  /** Votes of participants only: as many as there are participants if and only if all are there. */
  lemma CountIsAllVoted(x: VoteSet)
    requires Ascending(x.meta.participants) && forall p :: p in x.votes ==> p in x.meta.participants
    ensures |x.votes| == |x.meta.participants| <==> AllVoted(x)
  {
    MembersCount(x.meta.participants);
    forall p | p in x.votes.Keys ensures p in Members(x.meta.participants) { assert p in x.votes; }
    assert |x.votes| == |x.votes.Keys|;
    if |x.votes| == |x.meta.participants| {
      SubsetOfSameSize(x.votes.Keys, Members(x.meta.participants));
    }
    if AllVoted(x) {
      assert x.votes.Keys == Members(x.meta.participants);
    }
  }

  /** What the compatibility of all records says about one vote set. */
  lemma SetFacts(w: Watch, r: Request)
    requires Inv(w) && Compatible(w.seen + {r}) && r.id !in w.v.completed
    ensures var x := SetOf(w.v, r);
      && x.meta == MetaOf(r) && (r.participant in x.votes ==> x.votes[r.participant] == r)
      && (forall p :: p in x.votes ==> p in r.participants && x.votes[p] in w.kept && x.votes[p].participant == p)
      && (forall p :: p in x.votes ==> MetaOf(x.votes[p]) == MetaOf(r))
  {
    var all := w.seen + {r};
    assert r in all;
    if r.id in w.v.open {
      assert OpenOk(w, r.id);
      var x := w.v.open[r.id];
      var q :| q in w.kept && MetaOf(q) == x.meta;
      assert q in all && q.id == r.id;
      forall p | p in x.votes ensures p in r.participants && (p == r.participant ==> x.votes[p] == r) {
        assert x.votes[p] in all && x.votes[p].id == r.id;
      }
    }
  }

  /** A record completes its vote set if and only if the code counts enough votes. */
  lemma CountIsRight(w: Watch, r: Request)
    requires Inv(w) && Compatible(w.seen + {r}) && r.id !in w.v.completed
    ensures var x := SetOf(w.v, r);
      var voted := x.(votes := x.votes[r.participant := r]);
      |voted.votes| == |x.meta.participants| <==> AllVoted(voted)
  {
    SetFacts(w, r);
    var x := SetOf(w.v, r);
    assert r in w.seen + {r};
    CountIsAllVoted(x.(votes := x.votes[r.participant := r]));
  }

  lemma CompletedMeta(w: Watch, r: Request)
    requires Inv(w) && Compatible(w.seen + {r}) && r.id in w.v.completed
    ensures w.v.completed[r.id] == MetaOf(r) && EveryVote(w.kept, MetaOf(r))
  {
    assert ClosedOk(w, r.id);
    var q :| q in w.kept && MetaOf(q) == w.v.completed[r.id];
    assert q in w.seen + {r} && r in w.seen + {r} && q.id == r.id;
  }

  /** Records that belong together never fail a check. */
  lemma NeverFails(events: seq<Event>, r: Request)
    requires Legal(START, events) && Compatible(After(START, events).seen + {r})
    ensures May(After(START, events), Observe(r))
  {
    RunKeeps(START, events);
    var w := After(START, events);
    if r.id in w.v.completed {
      CompletedMeta(w, r);
    } else {
      SetFacts(w, r);
      CountIsRight(w, r);
    }
  }

  // ----- when a coordinator is told -----

  /** Every kept record has its place, and complete vote sets have been reported. */
  ghost predicate Remembers(w: Watch) {
    && (forall r :: r in w.kept ==> r.id in w.v.open || r.id in w.v.completed)
    && (forall r :: r in w.kept && r.id in w.v.open ==> r.participant in w.v.open[r.id].votes)
    && (forall id :: id in w.v.open && AllVoted(w.v.open[id]) ==> w.v.open[id].notified)
  }

  lemma CompatibleSubset(seen: set<Request>, all: set<Request>)
    requires Compatible(all) && seen <= all
    ensures Compatible(seen)
  {
  }

  lemma ObserveRemembers(w: Watch, r: Request)
    requires Inv(w) && Remembers(w) && Compatible(w.seen + {r}) && May(w, Observe(r))
    ensures Remembers(Next(w, Observe(r)))
  {
    if r.id in w.v.completed {
      assert r.id in w.v.open ==> OpenOk(w, r.id);
    } else {
      CountIsRight(w, r);
      SetFacts(w, r);
      VoteRemembers(w, Next(w, Observe(r)), r);
    }
  }

  /** A record is added to the vote set of its transaction. */
  lemma VoteRemembers(w: Watch, w': Watch, r: Request)
    requires Remembers(w) && w'.kept == w.kept + {r} && w'.v.completed == w.v.completed && r.id in w'.v.open
    requires w'.v.open == w.v.open[r.id := w'.v.open[r.id]]
    requires w'.v.open[r.id].votes == SetOf(w.v, r).votes[r.participant := r]
    requires r.id !in w.v.completed && (AllVoted(w'.v.open[r.id]) ==> w'.v.open[r.id].notified)
    ensures Remembers(w')
  {
  }

  lemma AnsweredRemembers(w: Watch, id: Option<Id>)
    requires Inv(w) && Remembers(w) && May(w, Answered(id))
    ensures Remembers(Next(w, Answered(id)))
  {
    assert OpenOk(w, id);
    OrderKeeps(w, Next(w, Answered(id)), id);
  }

  lemma {:induction false} RunGrows(w: Watch, events: seq<Event>)
    requires Legal(w, events)
    ensures w.seen <= After(w, events).seen
    decreases |events|
  {
    if events == [] {
    } else {
      RunGrows(Next(w, events[0]), events[1..]);
    }
  }

  lemma {:induction false} RunRemembers(w: Watch, events: seq<Event>)
    requires Inv(w) && Remembers(w) && Legal(w, events) && Compatible(After(w, events).seen)
    ensures Remembers(After(w, events))
    decreases |events|
  {
    if events == [] {
    } else {
      var w' := Next(w, events[0]);
      RunGrows(w', events[1..]);
      match events[0] {
        case Observe(r) =>
          CompatibleSubset(w.seen + {r}, After(w, events).seen);
          ObserveKeeps(w, r);
          ObserveRemembers(w, r);
        case Answered(id) =>
          AnsweredKeeps(w, id);
          AnsweredRemembers(w, id);
      }
      RunRemembers(w', events[1..]);
    }
  }

  /** The vote set with this record holds all votes if and only if all are among the kept ones. */
  lemma VotedIsKept(w: Watch, r: Request)
    requires Inv(w) && Remembers(w) && Compatible(w.seen + {r}) && r.id !in w.v.completed
    ensures var x := SetOf(w.v, r);
      && (AllVoted(x.(votes := x.votes[r.participant := r])) <==> EveryVote(w.kept + {r}, MetaOf(r)))
      && (AllVoted(x) <==> EveryVote(w.kept, MetaOf(r)))
  {
    SetFacts(w, r);
    var x := SetOf(w.v, r);
    var all := w.kept + {r};
    assert r in all;
    forall p ensures p in x.votes <==> Voted(w.kept, MetaOf(r), p) {
      if Voted(w.kept, MetaOf(r), p) {
        var q :| q in w.kept && q.participant == p && MetaOf(q) == MetaOf(r);
        assert q.id == r.id;
      }
    }
    forall p ensures Voted(all, MetaOf(r), p) <==> p == r.participant || Voted(w.kept, MetaOf(r), p) {
      if Voted(w.kept, MetaOf(r), p) {
        var q :| q in w.kept && q.participant == p && MetaOf(q) == MetaOf(r);
        assert q in all;
      }
    }
  }

  /**
   In a run of any length: a coordinator is told at exactly the record that
   completes its participants' votes, counting from the start or from when 4096
   answers last followed an answer for its transaction.
   */
  lemma NoticeIsExact(events: seq<Event>, r: Request)
    requires Legal(START, events) && Compatible(After(START, events).seen + {r})
    ensures var w := After(START, events);
      Add(w.v, r).1 == Notified(MetaOf(r)) <==>
      EveryVote(w.kept + {r}, MetaOf(r)) && !EveryVote(w.kept, MetaOf(r))
  {
    var w := After(START, events);
    RunKeeps(START, events);
    CompatibleSubset(w.seen, w.seen + {r});
    RunRemembers(START, events);
    if r.id in w.v.completed {
      CompletedMeta(w, r);
    } else {
      SetFacts(w, r);
      CountIsRight(w, r);
      VotedIsKept(w, r);
      if r.id in w.v.open { assert OpenOk(w, r.id); } else { assert r in w.seen + {r}; }
    }
  }

  /**
   However long the run: a coordinator is told exactly if its transaction is not
   remembered as completed, has not been reported, and this record is the last
   one missing from the votes that are kept.
   */
  lemma ToldIff(events: seq<Event>, r: Request)
    requires Legal(START, events) && Compatible(After(START, events).seen + {r})
    ensures var v := After(START, events).v;
      Add(v, r).1 == Notified(MetaOf(r)) <==>
      && r.id !in v.completed && (r.id in v.open ==> !v.open[r.id].notified)
      && forall p :: p in r.participants && p != r.participant ==> r.id in v.open && p in v.open[r.id].votes
  {
    RunKeeps(START, events);
    var w := After(START, events);
    if r.id in w.v.completed {
      CompletedMeta(w, r);
    } else {
      SetFacts(w, r);
      CountIsRight(w, r);
    }
  }

  lemma OldestIsForgotten(v: Votes, id: Option<Id>)
    requires id in v.open && |v.order| == RECENT && id !in v.completed && id != v.order[0]
    ensures v.order[0] !in Complete(v, id).completed
  {
    CompleteOne(v, id);
  }

  // ----- the records of the cluster -----

  /** Ascending sequences with the same members are the same. */
  lemma {:induction false} SameMembers(a: seq<int>, b: seq<int>)
    requires Ascending(a) && Ascending(b) && forall p :: p in a <==> p in b
    ensures a == b
    decreases |a|
  {
    assert |b| > 0 ==> b[0] in b;
    if a == [] {
    } else {
      assert a[0] in a && a[0] in b;
      assert b[0] in b && b[0] in a;
      assert a == [a[0]] + a[1..] && b == [b[0]] + b[1..];
      assert a[0] == b[0];
      forall p ensures p in a[1..] <==> p in b[1..] { assert p in a <==> p in b; }
      SameMembers(a[1..], b[1..]);
    }
  }

  /** The records in storage. */
  function Stored(s: TwoPhase.State): set<Request> { s.durable.Values }

  lemma StoredFacts(s: TwoPhase.State, r: Request)
    requires TwoPhase.Inv(s) && r in Stored(s)
    ensures r.id.Some? && r.id.value in s.txns && r.participant in s.txns[r.id.value].requests
    ensures var txn := s.txns[r.id.value];
      && txn.requests[r.participant] == r && TwoPhase.Consistent(r.id.value, txn)
      && TwoPhase.RequestOk(r.id.value, txn, r.participant, r)
  {
    var a :| a in s.durable && s.durable[a] == r;
    assert TwoPhase.InTxn(s, a) && TwoPhase.SlotOk(s, a) && TwoPhase.TxnOk(s, a.id);
    var txn := s.txns[a.id];
    assert TwoPhase.RequestOk(a.id, txn, a.node, txn.requests[a.node]);
  }

  /** In every run the records in storage belong together. */
  lemma StoredIsCompatible(s: TwoPhase.State)
    requires TwoPhase.Inv(s)
    ensures Compatible(Stored(s))
  {
    forall r, q | r in Stored(s) && q in Stored(s) && r.id == q.id
      ensures MetaOf(r) == MetaOf(q) && (r.participant == q.participant ==> r == q)
    {
      StoredFacts(s, r);
      StoredFacts(s, q);
      SameMembers(r.participants, q.participants);
    }
    forall r | r in Stored(s) ensures Ascending(r.participants) && r.participant in r.participants {
      StoredFacts(s, r);
    }
  }

  /**
   Storage that watches the records of the cluster, in any order and with any
   repetition, fails no check, and tells a coordinator only when the step
   Notify of the cluster model is possible.
   */
  lemma NotifyGuardHolds(s: TwoPhase.State, events: seq<Event>, r: Request)
    requires TwoPhaseProofs.Reachable(s) && Legal(START, events)
    requires After(START, events).seen + {r} <= Stored(s) && r.version == PROTOCOL_VERSION
    ensures May(After(START, events), Observe(r)) && r.id.Some?
    ensures Add(After(START, events).v, r).1.Notified? ==> TwoPhase.Enabled(s, TwoPhase.Notify(r.id.value))
  {
    var w := After(START, events);
    TwoPhaseProofs.ReachableInv(s);
    StoredIsCompatible(s);
    CompatibleSubset(w.seen + {r}, Stored(s));
    NeverFails(events, r);
    assert r in w.seen + {r};
    StoredFacts(s, r);
    if Add(w.v, r).1.Notified? {
      NoticeIsSound(events, r);
      EveryVoteIsDurable(s, w.seen + {r}, r);
    }
  }

  lemma EveryVoteIsDurable(s: TwoPhase.State, seen: set<Request>, r: Request)
    requires TwoPhase.Inv(s) && r in seen && seen <= Stored(s) && EveryVote(seen, MetaOf(r))
    ensures r.id.Some? && r.id.value in s.txns && TwoPhase.AllDurable(s, r.id.value, s.txns[r.id.value])
  {
    StoredFacts(s, r);
    var id := r.id.value;
    var txn := s.txns[id];
    forall n | n in txn.requests
      ensures TwoPhase.At(n, id) in s.durable && s.durable[TwoPhase.At(n, id)] == txn.requests[n]
    {
      assert n in r.participants;
      assert Voted(seen, MetaOf(r), n);
      var q :| q in seen && q.participant == n && MetaOf(q) == MetaOf(r);
      RecordPlace(s, q);
    }
  }

  /** A record in storage is kept under its own participant and identity. */
  lemma RecordPlace(s: TwoPhase.State, q: Request)
    requires TwoPhase.Inv(s) && q in Stored(s)
    ensures q.id.Some? && q.id.value in s.txns && q.participant in s.txns[q.id.value].requests
    ensures var a := TwoPhase.At(q.participant, q.id.value);
      a in s.durable && s.durable[a] == q && s.txns[q.id.value].requests[q.participant] == q
  {
    var a :| a in s.durable && s.durable[a] == q;
    assert TwoPhase.InTxn(s, a) && TwoPhase.SlotOk(s, a) && TwoPhase.TxnOk(s, a.id);
    var txn := s.txns[a.id];
    assert TwoPhase.RequestOk(a.id, txn, a.node, txn.requests[a.node]);
  }
}
