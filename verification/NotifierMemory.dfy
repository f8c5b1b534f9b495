/**
 How long storage remembers that a coordinator has answered, told by the history
 of a run: until 4096 further answers. A transaction whose records come again
 after that is reported a second time.
 */
module NotifierMemory {
  import opened Options
  import opened PreparedTxn
  import opened PrepareNotifier
  import opened NotifierProofs

  /** The transactions answered in these events, in order. */
  function Answers(events: seq<Event>): seq<Option<Id>> {
    if events == [] then [] else Given(events[0]) + Answers(events[1..])
  }

  function Given(e: Event): seq<Option<Id>> { if e.Answered? then [e.id] else [] }

  /** The records observed in these events. */
  function Observed(events: seq<Event>): set<Request> {
    set e | e in events && e.Observe? :: e.r
  }

  lemma Associative(a: seq<Option<Id>>, b: seq<Option<Id>>, c: seq<Option<Id>>)
    ensures a + b + c == a + (b + c)
  {
  }

  lemma {:induction false} AnswersAfter(w: Watch, events: seq<Event>)
    requires Legal(w, events)
    ensures After(w, events).answers == w.answers + Answers(events)
    decreases |events|
  {
    if events == [] {
    } else {
      var w' := Next(w, events[0]);
      AnswersAfter(w', events[1..]);
      assert w'.answers == w.answers + Given(events[0]);
      Associative(w.answers, Given(events[0]), Answers(events[1..]));
    }
  }

  lemma {:induction false} AnswersSplit(a: seq<Event>, b: seq<Event>)
    ensures Answers(a + b) == Answers(a) + Answers(b)
    decreases |a|
  {
    if a == [] {
      assert a + b == b;
    } else {
      assert (a + b)[1..] == a[1..] + b;
      AnswersSplit(a[1..], b);
      Associative(Given(a[0]), Answers(a[1..]), Answers(b));
    }
  }

  lemma {:induction false} IsAnswered(events: seq<Event>, id: Option<Id>)
    ensures id in Answers(events) <==> Answered(id) in events
    decreases |events|
  {
    if events == [] {
    } else {
      IsAnswered(events[1..], id);
      assert events == [events[0]] + events[1..];
    }
  }

  /** Two runs, one after the other. */
  lemma {:induction false} Join(w: Watch, a: seq<Event>, b: seq<Event>)
    ensures Legal(w, a + b) <==> Legal(w, a) && Legal(After(w, a), b)
    ensures Legal(w, a + b) ==> After(w, a + b) == After(After(w, a), b)
    decreases |a|
  {
    if a == [] {
      assert a + b == b;
    } else {
      assert (a + b)[1..] == a[1..] + b;
      if May(w, a[0]) { Join(Next(w, a[0]), a[1..], b); }
    }
  }

  lemma One(w: Watch, e: Event)
    ensures Legal(w, [e]) <==> May(w, e)
    ensures May(w, e) ==> After(w, [e]) == Next(w, e)
  {
    assert [e][1..] == [];
    if May(w, e) { assert After(w, [e]) == After(Next(w, e), []); }
  }

  lemma Three(w: Watch, a: Event, b: Event, c: Event)
    requires May(w, a) && May(Next(w, a), b) && May(Next(Next(w, a), b), c)
    ensures Legal(w, [a, b, c]) && After(w, [a, b, c]) == Next(Next(Next(w, a), b), c)
  {
    One(w, a);
    One(Next(w, a), b);
    One(Next(Next(w, a), b), c);
    Join(Next(w, a), [b], [c]);
    Join(w, [a], [b] + [c]);
    assert [a] + ([b] + [c]) == [a, b, c];
  }

  /** The last answer for the transaction is at this place. */
  ghost predicate LastAnswer(events: seq<Event>, j: nat, id: Option<Id>) {
    j < |events| && events[j] == Answered(id) && Answered(id) !in events[j + 1..]
  }

  lemma {:induction false} LastPlace(events: seq<Event>, id: Option<Id>) returns (j: nat)
    requires Answered(id) in events
    ensures LastAnswer(events, j, id)
    decreases |events|
  {
    if Answered(id) in events[1..] {
      var i := LastPlace(events[1..], id);
      assert events[1..][i + 1..] == events[i + 2..];
      j := i + 1;
    } else {
      j := 0;
    }
  }

  /** All answers, seen from the last one for a transaction. */
  lemma AnswersAround(events: seq<Event>, j: nat, id: Option<Id>)
    requires LastAnswer(events, j, id)
    ensures Answers(events) == Answers(events[..j]) + [id] + Answers(events[j + 1..])
    ensures id !in Answers(events[j + 1..])
  {
    assert events == events[..j] + ([Answered(id)] + events[j + 1..]);
    AnswersSplit(events[..j], [Answered(id)] + events[j + 1..]);
    IsAnswered(events[j + 1..], id);
  }

  lemma RecentHas(before: seq<Option<Id>>, id: Option<Id>, later: seq<Option<Id>>)
    requires id !in later
    ensures id in Recent(before + [id] + later) <==> |later| < RECENT
  {
    var all := before + [id] + later;
    if |later| >= RECENT {
      assert Recent(all) == later[|later| - RECENT..];
    } else if |all| <= RECENT {
      assert all[|before|] == id;
    } else {
      assert Recent(all)[|before| - (|all| - RECENT)] == id;
    }
  }

  lemma CompletedIff(w: Watch, before: seq<Option<Id>>, id: Option<Id>, later: seq<Option<Id>>)
    requires OrderOk(w) && w.answers == before + [id] + later && id !in later
    ensures id !in w.v.completed <==> |later| >= RECENT
  {
    RecentHas(before, id, later);
    assert id in w.v.completed.Keys <==> id in w.v.order;
  }

  lemma AllAnswers(events: seq<Event>)
    requires Legal(START, events)
    ensures After(START, events).answers == Answers(events)
  {
    AnswersAfter(START, events);
  }

  /** In a run of any length: forgotten if and only if 4096 answers followed the last one of its own. */
  lemma ForgottenIff(events: seq<Event>, j: nat, id: Option<Id>)
    requires Legal(START, events) && LastAnswer(events, j, id)
    ensures id !in After(START, events).v.completed <==> |Answers(events[j + 1..])| >= RECENT
  {
    RunKeeps(START, events);
    AllAnswers(events);
    AnswersAround(events, j, id);
    CompletedIff(After(START, events), Answers(events[..j]), id, Answers(events[j + 1..]));
  }

  /** While it is remembered, no record of the transaction is reported. */
  lemma QuietWhileRemembered(events: seq<Event>, j: nat, r: Request)
    requires Legal(START, events) && Compatible(After(START, events).seen + {r})
    requires LastAnswer(events, j, r.id) && |Answers(events[j + 1..])| < RECENT
    ensures Add(After(START, events).v, r) == (After(START, events).v, Nothing)
  {
    RunKeeps(START, events);
    ForgottenIff(events, j, r.id);
    CompletedMeta(After(START, events), r);
  }

  // ----- the records that count -----

  /** No answer for the transaction is among those that become too old after the first `n` answers. */
  predicate Spared(answers: seq<Option<Id>>, n: nat, id: Option<Id>) {
    forall i :: 0 <= i < |answers| - RECENT && n - RECENT <= i ==> answers[i] != id
  }

  /** While none of its answers becomes too old, every further record of the transaction is kept. */
  lemma {:induction false} KeptSince(w: Watch, events: seq<Event>, id: Option<Id>)
    requires Legal(w, events)
    requires Spared(After(w, events).answers, |w.answers|, id)
    ensures forall r: Request :: r.id == id ==> (r in After(w, events).kept <==> r in w.kept || Observe(r) in events)
    decreases |events|
  {
    if events == [] {
    } else {
      var w' := Next(w, events[0]);
      AnswersAfter(w', events[1..]);
      SparedMore(w, w', After(w, events).answers, events[0], id);
      KeptSince(w', events[1..], id);
      KeptOnce(w, events[0], id);
      assert events == [events[0]] + events[1..];
    }
  }

  lemma SparedMore(w: Watch, w': Watch, answers: seq<Option<Id>>, e: Event, id: Option<Id>)
    requires May(w, e) && w' == Next(w, e) && w'.answers <= answers && Spared(answers, |w.answers|, id)
    ensures Spared(answers, |w'.answers|, id)
    ensures e.Answered? && |w.answers| >= RECENT ==> (w.answers + [e.id])[|w.answers| - RECENT] != id
  {
  }

  lemma KeptOnce(w: Watch, e: Event, id: Option<Id>)
    requires May(w, e)
    requires e.Answered? && |w.answers| >= RECENT ==> (w.answers + [e.id])[|w.answers| - RECENT] != id
    ensures forall r: Request :: r.id == id ==> (r in Next(w, e).kept <==> r in w.kept || Observe(r) == e)
  {
  }

  lemma {:induction false} SeenSince(w: Watch, events: seq<Event>)
    requires Legal(w, events)
    ensures After(w, events).seen == w.seen + Observed(events)
    decreases |events|
  {
    if events == [] {
    } else {
      SeenSince(Next(w, events[0]), events[1..]);
      assert events == [events[0]] + events[1..];
    }
  }

  /** Only records of the transaction itself are votes for it. */
  lemma SameVotes(a: set<Request>, b: set<Request>, meta: Meta)
    requires forall r: Request :: r.id == meta.id ==> (r in a <==> r in b)
    ensures EveryVote(a, meta) <==> EveryVote(b, meta)
  {
    OthersStay(a, b, meta);
    OthersStay(b, a, meta);
  }

  /**
   In a run of any length, for a transaction with fewer than 4096 answers since
   its own, or not answered at all: its coordinator is told at exactly the record
   that completes the votes, and never again.
   */
  lemma NoticeWhileRemembered(events: seq<Event>, r: Request)
    requires Legal(START, events) && Compatible(After(START, events).seen + {r})
    requires forall j: nat :: LastAnswer(events, j, r.id) ==> |Answers(events[j + 1..])| < RECENT
    ensures var w := After(START, events);
      Add(w.v, r).1 == Notified(MetaOf(r)) <==>
      EveryVote(w.seen + {r}, MetaOf(r)) && !EveryVote(w.seen, MetaOf(r))
  {
    var w := After(START, events);
    RunKeeps(START, events);
    if r.id in w.v.completed {
      CompletedMeta(w, r);
      OthersStay(w.kept, w.seen, MetaOf(r));
    } else {
      assert Answered(r.id) !in events by {
        if Answered(r.id) in events {
          var j := LastPlace(events, r.id);
          ForgottenIff(events, j, r.id);
        }
      }
      AnswersAfter(START, events);
      IsAnswered(events, r.id);
      KeptSince(START, events, r.id);
      SeenSince(START, events);
      SameVotes(w.kept, w.seen, MetaOf(r));
      SameVotes(w.kept + {r}, w.seen + {r}, MetaOf(r));
      NoticeIsExact(events, r);
    }
  }

  /** The 4096th answer after its own takes the records of a transaction with it. */
  lemma NoneKept(events: seq<Event>, j: nat, id: Option<Id>)
    requires Legal(START, events) && LastAnswer(events, j, id) && |Answers(events[j + 1..])| == RECENT
    requires events[|events| - 1].Answered?
    ensures forall r: Request :: r.id == id ==> r !in After(START, events).kept
  {
    var last := |events| - 1;
    assert events == events[..last] + [events[last]];
    LastStep(events[..last], events[last]);
    AllAnswers(events);
    AnswersAround(events, j, id);
    OldestDropped(After(START, events[..last]), events[last], Answers(events[..j]), id, Answers(events[j + 1..]));
  }

  lemma LastStep(events: seq<Event>, e: Event)
    requires Legal(START, events + [e])
    ensures Legal(START, events) && May(After(START, events), e)
    ensures After(START, events + [e]) == Next(After(START, events), e)
  {
    Join(START, events, [e]);
    One(After(START, events), e);
  }

  lemma OldestDropped(w: Watch, e: Event, before: seq<Option<Id>>, id: Option<Id>, later: seq<Option<Id>>)
    requires May(w, e) && e.Answered? && Next(w, e).answers == before + [id] + later && |later| == RECENT
    ensures forall r: Request :: r.id == id ==> r !in Next(w, e).kept
  {
    assert (before + [id] + later)[|before|] == id;
  }

  /** None of the answers that become too old in the second part is for the transaction. */
  lemma LateAnswers(early: seq<Event>, late: seq<Event>, j: nat, id: Option<Id>)
    requires LastAnswer(early, j, id) && Answered(id) !in late && |Answers(early[j + 1..])| == RECENT
    ensures Spared(Answers(early + late), |Answers(early)|, id)
  {
    AnswersAround(early, j, id);
    AnswersSplit(early, late);
    IsAnswered(late, id);
  }

  /** From the place where its answer becomes too old, exactly the later records of a transaction are kept. */
  lemma KeptSinceForgotten(early: seq<Event>, late: seq<Event>, j: nat, id: Option<Id>)
    requires Legal(START, early + late) && LastAnswer(early, j, id) && Answered(id) !in late
    requires early[|early| - 1].Answered? && |Answers(early[j + 1..])| == RECENT
    ensures forall r: Request :: r.id == id ==> (r in After(START, early + late).kept <==> r in Observed(late))
  {
    Join(START, early, late);
    LateAnswers(early, late, j, id);
    NoneKept(early, j, id);
    AllAnswers(early);
    AllAnswers(early + late);
    KeptFresh(After(START, early), late, id);
  }

  lemma KeptFresh(w: Watch, events: seq<Event>, id: Option<Id>)
    requires Legal(w, events) && Spared(After(w, events).answers, |w.answers|, id)
    requires forall r: Request :: r.id == id ==> r !in w.kept
    ensures forall r: Request :: r.id == id ==> (r in After(w, events).kept <==> r in Observed(events))
  {
    KeptSince(w, events, id);
  }

  /** The votes that count are those of the kept records of the transaction. */
  lemma ToldSince(events: seq<Event>, since: set<Request>, r: Request)
    requires Legal(START, events) && Compatible(After(START, events).seen + {r})
    requires forall q: Request :: q.id == r.id ==> (q in After(START, events).kept <==> q in since)
    ensures Add(After(START, events).v, r).1 == Notified(MetaOf(r)) <==>
      EveryVote(since + {r}, MetaOf(r)) && !EveryVote(since, MetaOf(r))
  {
    var kept := After(START, events).kept;
    SameVotes(kept, since, MetaOf(r));
    SameVotes(kept + {r}, since + {r}, MetaOf(r));
    NoticeIsExact(events, r);
  }

  /**
   A run whose first part ends with the 4096th answer after the last one for a
   transaction, and whose second part has none for it: its coordinator is told
   again at exactly the record that completes the votes observed in the second part.
   */
  lemma ToldAgainIff(early: seq<Event>, late: seq<Event>, j: nat, r: Request)
    requires Legal(START, early + late) && Compatible(After(START, early + late).seen + {r})
    requires LastAnswer(early, j, r.id) && Answered(r.id) !in late
    requires early[|early| - 1].Answered? && |Answers(early[j + 1..])| == RECENT
    ensures Add(After(START, early + late).v, r).1 == Notified(MetaOf(r)) <==>
      EveryVote(Observed(late) + {r}, MetaOf(r)) && !EveryVote(Observed(late), MetaOf(r))
  {
    KeptSinceForgotten(early, late, j, r.id);
    ToldSince(early + late, Observed(late), r);
  }

  // ----- a run in which a coordinator is told twice -----

  const WRITE := Write(Some(Tuple(1, 1, 1)), "t", true, 1, "v")

  function IdOf(i: nat): Option<Id> { Some(Id(0, "0123456789abcdef", i)) }

  /** The record of node `p` for transaction `i` of nodes 1 and 2. */
  function Record(i: nat, p: int): Request {
    Request(PROTOCOL_VERSION, IdOf(i), i, i, i + 1, [1, 2], p, [WRITE])
  }

  /** Both records of a transaction are observed, and its coordinator answers. */
  function Round(i: nat): seq<Event> {
    [Observe(Record(i, 1)), Observe(Record(i, 2)), Answered(IdOf(i))]
  }

  function Rounds(n: nat): seq<Event> {
    if n == 0 then [] else Rounds(n - 1) + Round(n - 1)
  }

  lemma {:induction false} RoundsStart(n: nat)
    requires n > 0
    ensures [Observe(Record(0, 1)), Observe(Record(0, 2))] <= Rounds(n)
  {
    if n == 1 {
      assert Rounds(1) == [] + Round(0);
    } else {
      RoundsStart(n - 1);
    }
  }

  /** Two participants: the first record is counted, the second one reported. */
  lemma TwoVotesTell(v: Votes, a: Request, b: Request)
    requires MetaOf(a) == MetaOf(b) && a.participant != b.participant
    requires a.participants == [a.participant, b.participant]
    requires a.id !in v.open && a.id !in v.completed
    ensures Add(v, a).1 == Nothing && Add(Add(v, a).0, b).1 == Notified(MetaOf(a))
    ensures Add(Add(v, a).0, b).0.completed == v.completed
    ensures Add(Add(v, a).0, b).0.open.Keys == v.open.Keys + {a.id} && Add(Add(v, a).0, b).0.open[a.id].notified
  {
    var one := map[a.participant := a];
    assert |one| == 1 && |one[b.participant := b]| == 2;
  }

  /** One round of a transaction that is neither open nor remembered. */
  lemma RoundRuns(w: Watch, i: nat)
    requires w.v.open == map[] && IdOf(i) !in w.v.completed
    ensures Legal(w, Round(i)) && After(w, Round(i)).v.open == map[]
    ensures After(w, Round(i)).answers == w.answers + [IdOf(i)]
    ensures After(w, Round(i)).seen == w.seen + {Record(i, 1), Record(i, 2)}
  {
    var a, b, id := Record(i, 1), Record(i, 2), IdOf(i);
    TwoVotesTell(w.v, a, b);
    Three(w, Observe(a), Observe(b), Answered(id));
  }

  ghost predicate RoundsDone(w: Watch, n: nat) {
    && w.v.open == map[] && |w.answers| == n
    && (forall i: nat :: i < n ==> w.answers[i] == IdOf(i))
    && (forall r :: r in w.seen ==> exists i: nat, p :: i < n && 1 <= p <= 2 && r == Record(i, p))
  }

  lemma RoundsMore(w: Watch, w': Watch, n: nat)
    requires RoundsDone(w, n) && w'.v.open == map[] && w'.answers == w.answers + [IdOf(n)]
    requires w'.seen == w.seen + {Record(n, 1), Record(n, 2)}
    ensures RoundsDone(w', n + 1)
  {
    forall r | r in w'.seen ensures exists i: nat, p :: i < n + 1 && 1 <= p <= 2 && r == Record(i, p) {
      if r in w.seen {
        var i: nat, p :| i < n && 1 <= p <= 2 && r == Record(i, p);
      }
    }
  }

  /** One round after others. */
  lemma RoundAfter(events: seq<Event>, n: nat)
    requires Legal(START, events) && RoundsDone(After(START, events), n)
    ensures Legal(START, events + Round(n)) && RoundsDone(After(START, events + Round(n)), n + 1)
  {
    RunKeeps(START, events);
    var w := After(START, events);
    Unanswered(w, n);
    RoundRuns(w, n);
    Join(START, events, Round(n));
    RoundsMore(w, After(w, Round(n)), n);
  }

  /** Any number of rounds is a run, and all their answers are in order. */
  lemma {:induction false} RoundsRun(n: nat)
    ensures Legal(START, Rounds(n)) && RoundsDone(After(START, Rounds(n)), n)
  {
    if n == 0 {
    } else {
      RoundsRun(n - 1);
      RoundAfter(Rounds(n - 1), n - 1);
    }
  }

  lemma Unanswered(w: Watch, n: nat)
    requires OrderOk(w) && RoundsDone(w, n)
    ensures IdOf(n) !in w.v.completed
  {
    assert forall id :: id in w.v.order ==> id in w.answers;
    assert IdOf(n) in w.v.completed.Keys <==> IdOf(n) in w.v.order;
  }

  /** After at least one round: the first transaction is forgotten from the 4097th round on. */
  lemma FirstForgotten(w: Watch, n: nat)
    requires OrderOk(w) && RoundsDone(w, n) && n > 0
    ensures IdOf(0) !in w.v.completed <==> n > RECENT
  {
    assert w.answers == [] + [IdOf(0)] + w.answers[1..];
    assert forall i: nat :: i < n - 1 ==> w.answers[1..][i] == IdOf(i + 1);
    CompletedIff(w, [], IdOf(0), w.answers[1..]);
  }

  /** The records of such rounds belong together. */
  lemma RoundsCompatible(seen: set<Request>)
    requires forall r :: r in seen ==> exists i: nat, p :: 1 <= p <= 2 && r == Record(i, p)
    ensures Compatible(seen)
  {
    forall r | r in seen ensures Ascending(r.participants) && r.participant in r.participants {
      var i: nat, p :| 1 <= p <= 2 && r == Record(i, p);
      assert [1, 2][0] == 1 && [1, 2][1] == 2;
    }
  }

  /** Both records of the first transaction once more, after some rounds. */
  lemma Again(w: Watch, n: nat)
    requires Inv(w) && RoundsDone(w, n) && n > 0 && May(w, Observe(Record(0, 1)))
    ensures Add(Next(w, Observe(Record(0, 1))).v, Record(0, 2)).1 == Notified(MetaOf(Record(0, 2))) <==> n > RECENT
  {
    FirstForgotten(w, n);
    if n > RECENT { TwoVotesTell(w.v, Record(0, 1), Record(0, 2)); }
  }

  lemma RoundsCompatibleWith(w: Watch, n: nat)
    requires RoundsDone(w, n)
    ensures Compatible(w.seen + {Record(0, 1)}) && Compatible(w.seen + {Record(0, 1)} + {Record(0, 2)})
  {
    var all := w.seen + {Record(0, 1)} + {Record(0, 2)};
    forall r | r in all ensures exists i: nat, p :: 1 <= p <= 2 && r == Record(i, p) {
      if r in w.seen {
        var i: nat, p :| i < n && 1 <= p <= 2 && r == Record(i, p);
      }
    }
    RoundsCompatible(all);
    CompatibleSubset(w.seen + {Record(0, 1)}, all);
  }

  /**
   A coordinator can be told twice about one transaction, by records that all
   belong together. The first of `n` transactions is reported in its round; when
   both its records come once more after all rounds, it is reported again exactly
   if there were more than 4096 of them.
   */
  lemma ToldTwice(n: nat)
    requires n > 0
    ensures var a, b, meta := Record(0, 1), Record(0, 2), MetaOf(Record(0, 2));
      && [Observe(a), Observe(b)] <= Rounds(n)
      && Legal(START, [Observe(a)]) && Add(After(START, [Observe(a)]).v, b).1 == Notified(meta)
      && Legal(START, Rounds(n) + [Observe(a)])
      && Compatible(After(START, Rounds(n) + [Observe(a)]).seen + {b})
      && (Add(After(START, Rounds(n) + [Observe(a)]).v, b).1 == Notified(meta) <==> n > RECENT)
  {
    var a, b, events := Record(0, 1), Record(0, 2), Rounds(n);
    TwoVotesTell(NO_VOTES, a, b);
    One(START, Observe(a));
    RoundsStart(n);
    RoundsRun(n);
    RunKeeps(START, events);
    var w := After(START, events);
    RoundsCompatibleWith(w, n);
    NeverFails(events, a);
    One(w, Observe(a));
    Join(START, events, [Observe(a)]);
    Again(w, n);
  }
}
