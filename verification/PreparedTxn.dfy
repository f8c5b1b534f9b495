/**
 Durable-Prepare two-phase commit, the values: requests, their validation, and
 the participant's registry of prepared contexts.
 */
module PreparedTxn {
  import opened Options

  const PARTICIPANT_REPLY_VERSION := 1
  const PROTOCOL_VERSION := 2

  datatype Id = Id(coordinator: int, incarnation: string, tx: nat)
  datatype Tuple = Tuple(table: int, page: int, slot: int)
  datatype Write = Write(tuple: Option<Tuple>, name: string, update: bool, key: int, value: string)

  datatype Request = Request(
    version: int,
    id: Option<Id>,
    tx: nat,
    start: nat,
    commit: nat,
    participants: seq<int>,
    participant: int,
    writes: seq<Write>)

  predicate ValidIdentity(id: Id) {
    id.coordinator >= 0 && |id.incarnation| == 16
  }

  predicate ValidWrite(w: Write) {
    && w.tuple.Some? && w.tuple.value.table >= 0 && w.tuple.value.page > 0 && w.tuple.value.slot >= 0
    && w.name != "" && w.update
  }

  predicate Ascending(nodes: seq<int>) {
    forall i, j :: 0 <= i < j < |nodes| ==> nodes[i] < nodes[j]
  }

  predicate DistinctTuples(writes: seq<Write>) {
    forall i, j :: 0 <= i < j < |writes| ==> writes[i].tuple != writes[j].tuple
  }

  /** A well-formed durable Prepare, stated without the scan that checks it. */
  predicate ValidRequest(r: Request) {
    && (r.version == PROTOCOL_VERSION || r.version == PARTICIPANT_REPLY_VERSION)
    && r.id.Some? && ValidIdentity(r.id.value) && r.id.value.tx == r.tx
    && r.start != 0 && r.commit != 0
    && |r.participants| >= 2 && Ascending(r.participants) && r.participants[0] >= 0
    && r.participant in r.participants
    && r.writes != [] && (forall w :: w in r.writes ==> ValidWrite(w)) && DistinctTuples(r.writes)
  }

  /** The scan of the request: one pass over the participants, one over the writes. */
  method CheckRequest(r: Request) returns (ok: bool)
    ensures ok <==> ValidRequest(r)
  {
    if (r.version != PROTOCOL_VERSION && r.version != PARTICIPANT_REPLY_VERSION) || r.id.None? ||
       !ValidIdentity(r.id.value) || r.id.value.tx != r.tx || r.start == 0 || r.commit == 0 ||
       |r.participants| < 2 || |r.writes| == 0
    {
      return false;
    }
    var self := CheckParticipants(r.participants, r.participant);
    if !self { return false; }
    ok := CheckWrites(r.writes);
  }

  method CheckParticipants(nodes: seq<int>, self: int) returns (ok: bool)
    requires nodes != []
    ensures ok <==> Ascending(nodes) && nodes[0] >= 0 && self in nodes
  {
    var previous := -1;
    var includesSelf := false;
    var i := 0;
    while i < |nodes|
      invariant 0 <= i <= |nodes|
      invariant Ascending(nodes[..i]) && (i > 0 ==> nodes[0] >= 0)
      invariant previous == if i == 0 then -1 else nodes[i - 1]
      invariant includesSelf <==> self in nodes[..i]
    {
      if nodes[i] <= previous { return false; }
      previous := nodes[i];
      includesSelf := includesSelf || nodes[i] == self;
      assert nodes[..i + 1] == nodes[..i] + [nodes[i]];
      i := i + 1;
    }
    assert nodes[..i] == nodes;
    return includesSelf;
  }

  method CheckWrites(writes: seq<Write>) returns (ok: bool)
    ensures ok <==> (forall w :: w in writes ==> ValidWrite(w)) && DistinctTuples(writes)
  {
    var tuples: set<Option<Tuple>> := {};
    var i := 0;
    while i < |writes|
      invariant 0 <= i <= |writes|
      invariant forall j :: 0 <= j < i ==> ValidWrite(writes[j]) && writes[j].tuple in tuples
      invariant forall t :: t in tuples ==> exists j :: 0 <= j < i && writes[j].tuple == t
      invariant DistinctTuples(writes[..i])
    {
      var w := writes[i];
      if !ValidWrite(w) || w.tuple in tuples { return false; }
      tuples := tuples + {w.tuple};
      assert writes[..i + 1] == writes[..i] + [w];
      i := i + 1;
    }
    assert writes[..i] == writes;
    return true;
  }

  // ----- what a registry holds -----

  datatype Status = PREPARING | PREPARED | APPLYING

  /** A live context, as its registry shows it. */
  datatype Slot = Slot(request: Request, state: Status)

  type Live = map<Option<Id>, Slot>

  datatype Commit = Commit(id: Option<Id>, tx: nat, start: nat, commit: nat)

  predicate Matches(r: Request, c: Commit) {
    r.id == c.id && r.tx == c.tx && r.start == c.start && r.commit == c.commit
  }

  /** A Prepare leaves a context of its identity behind, its own or the one that was there. */
  function Began(v: Live, r: Request): Live { if r.id in v then v else v[r.id := Slot(r, PREPARING)] }

  function Marked(v: Live, id: Option<Id>): Live { if id in v then v[id := v[id].(state := PREPARED)] else v }

  /** The context a Commit takes, if it finds one that agrees and is prepared. */
  function Committed(v: Live, c: Commit): Live {
    if c.id in v && Matches(v[c.id].request, c) && v[c.id].state == PREPARED
    then v[c.id := v[c.id].(state := APPLYING)]
    else v
  }

  // ----- the registry, under any sequence of calls -----

  /** A context; `marks` and `takes` count what has happened to it. */
  datatype Context = Context(request: Request, state: Status, marks: nat, takes: nat)

  /** A Commit that has looked its context up, and the handle it has found. */
  datatype Lookup = Lookup(commit: Commit, h: nat)

  /**
   Contexts ever created, by handle, and the live one of each identity. A lookup
   stays in `lookups`: the same Commit may arrive any number of times, and its
   handle outlives the erasure of the context.
   */
  datatype Registry = Registry(contexts: seq<Context>, live: map<Option<Id>, nat>, lookups: set<Lookup>)

  const EMPTY := Registry([], map[], {})

  predicate Wf(g: Registry) {
    && (forall id :: id in g.live ==> g.live[id] < |g.contexts| && g.contexts[g.live[id]].request.id == id)
    && (forall l :: l in g.lookups ==> l.h < |g.contexts|)
  }

  /** The handle a Prepare works on, if the identity is free or carries the same payload. */
  function Begin(g: Registry, r: Request): (Registry, Option<nat>, bool)
    requires Wf(g)
  {
    if r.id in g.live then
      (g, if g.contexts[g.live[r.id]].request == r then Some(g.live[r.id]) else None, false)
    else
      (g.(contexts := g.contexts + [Context(r, PREPARING, 0, 0)], live := g.live[r.id := |g.contexts|]),
       Some(|g.contexts|), true)
  }

  function MarkPrepared(g: Registry, h: nat): Registry
    requires h < |g.contexts|
  {
    var c := g.contexts[h];
    g.(contexts := g.contexts[h := c.(state := PREPARED, marks := c.marks + 1)])
  }

  /** The first half of TakeForCommit, under the lock of the map: the live context, if it agrees. */
  function Look(g: Registry, c: Commit): Registry
    requires Wf(g)
  {
    if c.id in g.live && Matches(g.contexts[g.live[c.id]].request, c)
    then g.(lookups := g.lookups + {Lookup(c, g.live[c.id])})
    else g
  }

  datatype Outcome = WAIT | REFUSED | TAKEN

  /** The second half, under the lock of the context that was found: a call that waits comes back for another look. */
  function Answer(x: Context): Outcome {
    if x.state == PREPARING && x.request.version == PROTOCOL_VERSION then WAIT
    else if x.state != PREPARED then REFUSED
    else TAKEN
  }

  function Take(g: Registry, h: nat): Registry
    requires h < |g.contexts|
  {
    var x := g.contexts[h];
    if Answer(x) == TAKEN then g.(contexts := g.contexts[h := x.(state := APPLYING, takes := x.takes + 1)]) else g
  }

  function Erase(g: Registry, h: nat): Registry
    requires h < |g.contexts|
  {
    g.(live := g.live - {g.contexts[h].request.id})
  }

  datatype Op = OpBegin(r: Request) | OpMark(h: nat) | OpLook(c: Commit) | OpTake(l: Lookup) | OpErase(h: nat)

  predicate Callable(g: Registry, op: Op) {
    match op
    case OpBegin(_) => true
    case OpMark(h) => h < |g.contexts|
    case OpLook(_) => true
    case OpTake(l) => l in g.lookups
    case OpErase(h) => h < |g.contexts|
  }

  function Do(g: Registry, op: Op): (g': Registry)
    requires Wf(g) && Callable(g, op)
    ensures Wf(g') && |g.contexts| <= |g'.contexts|
    ensures forall h :: 0 <= h < |g.contexts| ==> g'.contexts[h].request == g.contexts[h].request
  {
    match op
    case OpBegin(r) => Begin(g, r).0
    case OpMark(h) => MarkPrepared(g, h)
    case OpLook(c) => Look(g, c)
    case OpTake(l) => Take(g, l.h)
    case OpErase(h) => Erase(g, h)
  }

  predicate Runs(g: Registry, ops: seq<Op>)
    requires Wf(g)
    decreases |ops|
  {
    ops == [] || (Callable(g, ops[0]) && Runs(Do(g, ops[0]), ops[1..]))
  }

  function RunAll(g: Registry, ops: seq<Op>): (g': Registry)
    requires Wf(g) && Runs(g, ops)
    ensures Wf(g') && |g.contexts| <= |g'.contexts|
    ensures forall h :: 0 <= h < |g.contexts| ==> g'.contexts[h].request == g.contexts[h].request
    decreases |ops|
  {
    if ops == [] then g else RunAll(Do(g, ops[0]), ops[1..])
  }

  /** The live contexts. */
  function LiveOf(g: Registry): Live
    requires Wf(g)
  {
    map id | id in g.live :: Slot(g.contexts[g.live[id]].request, g.contexts[g.live[id]].state)
  }

  predicate IsLive(g: Registry, h: nat) {
    h < |g.contexts| && g.contexts[h].request.id in g.live && g.live[g.contexts[h].request.id] == h
  }

  /** What each call does to the live contexts; a call through the handle of an erased context does nothing to them. */
  lemma CallsOnLive(g: Registry, op: Op)
    requires Wf(g) && Callable(g, op) && LookupsMatch(g)
    ensures var v, v' := LiveOf(g), LiveOf(Do(g, op));
      match op
      case OpBegin(r) => v' == Began(v, r)
      case OpMark(h) => v' == if IsLive(g, h) then Marked(v, g.contexts[h].request.id) else v
      case OpLook(_) => v' == v
      case OpTake(l) => v' == if IsLive(g, l.h) then Committed(v, l.commit) else v
      case OpErase(h) => v' == v - {g.contexts[h].request.id}
  {
    match op
    case OpBegin(r) => BeginOnLive(g, r);
    case OpMark(h) => ContextChanged(g, h, g.contexts[h].(state := PREPARED, marks := g.contexts[h].marks + 1));
    case OpTake(l) => TakeOnLive(g, l);
    case OpErase(h) => EraseOnLive(g, h);
    case OpLook(_) =>
  }

  lemma EraseOnLive(g: Registry, h: nat)
    requires Wf(g) && h < |g.contexts|
    ensures Wf(Erase(g, h)) && LiveOf(Erase(g, h)) == LiveOf(g) - {g.contexts[h].request.id}
  {
  }

  lemma BeginOnLive(g: Registry, r: Request)
    requires Wf(g)
    ensures Wf(Begin(g, r).0) && LiveOf(Begin(g, r).0) == Began(LiveOf(g), r)
  {
  }

  lemma TakeOnLive(g: Registry, l: Lookup)
    requires Wf(g) && l.h < |g.contexts| && Matches(g.contexts[l.h].request, l.commit)
    ensures Wf(Take(g, l.h))
    ensures LiveOf(Take(g, l.h)) == if IsLive(g, l.h) then Committed(LiveOf(g), l.commit) else LiveOf(g)
  {
    var x := g.contexts[l.h];
    if Answer(x) == TAKEN {
      ContextChanged(g, l.h, x.(state := APPLYING, takes := x.takes + 1));
    } else if IsLive(g, l.h) {
      assert LiveOf(g)[l.commit.id].state == x.state != PREPARED;
    }
  }

  lemma ContextChanged(g: Registry, h: nat, x: Context)
    requires Wf(g) && h < |g.contexts| && x.request == g.contexts[h].request
    ensures var g' := g.(contexts := g.contexts[h := x]);
      Wf(g') && LiveOf(g') == if IsLive(g, h) then LiveOf(g)[x.request.id := Slot(x.request, x.state)] else LiveOf(g)
  {
  }

  /** A context is in the applying state exactly when its last mark has been used up. */
  ghost predicate Counted(g: Registry) {
    forall h :: 0 <= h < |g.contexts| ==>
      var c := g.contexts[h];
      && c.takes <= c.marks
      && (c.state == PREPARED ==> c.takes < c.marks)
      && (c.state == PREPARING ==> c.marks == 0)
  }

  lemma {:induction false} RunCounted(g: Registry, ops: seq<Op>)
    requires Wf(g) && Counted(g) && Runs(g, ops)
    ensures Counted(RunAll(g, ops))
    decreases |ops|
  {
    if ops == [] {
    } else {
      RunCounted(Do(g, ops[0]), ops[1..]);
    }
  }

  /** Whatever is called in whatever order, a context is taken at most as often as it was marked prepared. */
  lemma TakenAtMostMarked(ops: seq<Op>, h: nat)
    requires Runs(EMPTY, ops) && h < |RunAll(EMPTY, ops).contexts|
    ensures var c := RunAll(EMPTY, ops).contexts[h];
      c.takes <= c.marks && (c.marks <= 1 ==> c.takes <= 1) && (c.marks == 0 ==> c.takes == 0)
  {
    RunCounted(EMPTY, ops);
  }

  // ----- what a Commit gets -----

  predicate IsTake(op: Op, h: nat) { op.OpTake? && op.l.h == h }

  predicate IsPrepared(g: Registry, h: nat) { h < |g.contexts| && g.contexts[h].state == PREPARED }

  function TakesOf(g: Registry, h: nat): nat { if h < |g.contexts| then g.contexts[h].takes else 0 }

  /** The context was marked, and nobody has tried to take it since. */
  ghost predicate MarkIsLast(ops: seq<Op>, h: nat) {
    exists i :: 0 <= i < |ops| && ops[i] == OpMark(h) && forall j :: i < j < |ops| ==> !IsTake(ops[j], h)
  }

  ghost predicate NoTake(ops: seq<Op>, h: nat) {
    forall j :: 0 <= j < |ops| ==> !IsTake(ops[j], h)
  }

  lemma NoTakeStep(ops: seq<Op>, h: nat)
    requires ops != []
    ensures NoTake(ops, h) <==> !IsTake(ops[0], h) && NoTake(ops[1..], h)
  {
    assert ops == [ops[0]] + ops[1..];
  }

  lemma MarkIsLastStep(ops: seq<Op>, h: nat)
    requires ops != []
    ensures MarkIsLast(ops, h) <==> (ops[0] == OpMark(h) && NoTake(ops[1..], h)) || MarkIsLast(ops[1..], h)
  {
    var rest := ops[1..];
    if MarkIsLast(ops, h) {
      var i :| 0 <= i < |ops| && ops[i] == OpMark(h) && forall j :: i < j < |ops| ==> !IsTake(ops[j], h);
      forall j | i <= j < |rest| ensures !IsTake(rest[j], h) { assert rest[j] == ops[j + 1]; }
      if i > 0 { assert rest[i - 1] == OpMark(h); }
    }
    if ops[0] == OpMark(h) && NoTake(rest, h) {
      forall j | 0 < j < |ops| ensures !IsTake(ops[j], h) { assert ops[j] == rest[j - 1]; }
    }
    if MarkIsLast(rest, h) {
      var i :| 0 <= i < |rest| && rest[i] == OpMark(h) && forall j :: i < j < |rest| ==> !IsTake(rest[j], h);
      forall j | i + 1 < j < |ops| ensures !IsTake(ops[j], h) { assert ops[j] == rest[j - 1]; }
      assert ops[i + 1] == OpMark(h);
    }
  }

  /** A context is prepared exactly when a mark is the last thing that happened to it. */
  lemma {:induction false} PreparedIffMarkIsLast(g: Registry, ops: seq<Op>, h: nat)
    requires Wf(g) && Runs(g, ops)
    ensures IsPrepared(RunAll(g, ops), h) <==> (IsPrepared(g, h) && NoTake(ops, h)) || MarkIsLast(ops, h)
    decreases |ops|
  {
    if ops == [] {
    } else {
      PreparedIffMarkIsLast(Do(g, ops[0]), ops[1..], h);
      MarkIsLastStep(ops, h);
      NoTakeStep(ops, h);
    }
  }

  ghost predicate LookupsMatch(g: Registry) {
    forall l :: l in g.lookups ==> l.h < |g.contexts| && Matches(g.contexts[l.h].request, l.commit)
  }

  lemma {:induction false} LookupsStayMatched(g: Registry, ops: seq<Op>)
    requires Wf(g) && LookupsMatch(g) && Runs(g, ops)
    ensures LookupsMatch(RunAll(g, ops))
    decreases |ops|
  {
    if ops == [] {
    } else {
      LookupsStayMatched(Do(g, ops[0]), ops[1..]);
    }
  }

  /**
   After any calls, a Commit works on a context whose identity and timestamps
   are its own. It gets that context exactly if the context was marked prepared
   and no Commit has come since.
   */
  lemma TakeIsExact(ops: seq<Op>, l: Lookup)
    requires Runs(EMPTY, ops) && l in RunAll(EMPTY, ops).lookups
    ensures var g := RunAll(EMPTY, ops);
      && Matches(g.contexts[l.h].request, l.commit)
      && (Answer(g.contexts[l.h]) == TAKEN <==> MarkIsLast(ops, l.h))
      && (Answer(g.contexts[l.h]) != TAKEN ==> Do(g, OpTake(l)) == g)
      && Answer(Do(g, OpTake(l)).contexts[l.h]) != TAKEN
  {
    LookupsStayMatched(EMPTY, ops);
    PreparedIffMarkIsLast(EMPTY, ops, l.h);
  }

  ghost predicate NoMark(ops: seq<Op>, h: nat) {
    forall j :: 0 <= j < |ops| ==> ops[j] != OpMark(h)
  }

  predicate IsPreparing(g: Registry, h: nat) { h < |g.contexts| && g.contexts[h].state == PREPARING }

  lemma StillPreparing(g: Registry, op: Op, h: nat)
    requires Wf(g) && Callable(g, op) && h < |g.contexts|
    ensures IsPreparing(Do(g, op), h) <==> IsPreparing(g, h) && op != OpMark(h)
  {
  }

  /** A context leaves the preparing state only by a mark. */
  lemma {:induction false} PreparingIffUnmarked(g: Registry, ops: seq<Op>, h: nat)
    requires Wf(g) && Runs(g, ops) && h < |RunAll(g, ops).contexts| && (h < |g.contexts| ==> IsPreparing(g, h))
    ensures IsPreparing(RunAll(g, ops), h) <==> NoMark(ops, h)
    decreases |ops|
  {
    if ops == [] {
    } else {
      var g' := Do(g, ops[0]);
      assert ops == [ops[0]] + ops[1..];
      if h < |g.contexts| { StillPreparing(g, ops[0], h); }
      if h < |g.contexts| && ops[0] == OpMark(h) {
        MarkedStays(g', ops[1..], h);
      } else {
        PreparingIffUnmarked(g', ops[1..], h);
      }
    }
  }

  lemma {:induction false} MarkedStays(g: Registry, ops: seq<Op>, h: nat)
    requires Wf(g) && Runs(g, ops) && h < |g.contexts| && !IsPreparing(g, h)
    ensures !IsPreparing(RunAll(g, ops), h)
    decreases |ops|
  {
    if ops == [] {
    } else {
      StillPreparing(g, ops[0], h);
      MarkedStays(Do(g, ops[0]), ops[1..], h);
    }
  }

  /** A Commit waits exactly for a version-2 context that nobody has marked yet. */
  lemma WaitsIffUnmarked(ops: seq<Op>, l: Lookup)
    requires Runs(EMPTY, ops) && l in RunAll(EMPTY, ops).lookups
    ensures var x := RunAll(EMPTY, ops).contexts[l.h];
      Answer(x) == WAIT <==> x.request.version == PROTOCOL_VERSION && NoMark(ops, l.h)
  {
    PreparingIffUnmarked(EMPTY, ops, l.h);
  }

  /** A mark that a take follows. */
  ghost predicate MarkThenTake(ops: seq<Op>, h: nat) {
    exists i, j :: 0 <= i < j < |ops| && ops[i] == OpMark(h) && IsTake(ops[j], h)
  }

  lemma MarkThenTakeStep(ops: seq<Op>, h: nat)
    requires ops != []
    ensures MarkThenTake(ops, h) <==> (ops[0] == OpMark(h) && !NoTake(ops[1..], h)) || MarkThenTake(ops[1..], h)
  {
    var rest := ops[1..];
    if MarkThenTake(ops, h) {
      var i, j :| 0 <= i < j < |ops| && ops[i] == OpMark(h) && IsTake(ops[j], h);
      assert IsTake(rest[j - 1], h);
      if i > 0 { assert rest[i - 1] == OpMark(h); }
    }
    if ops[0] == OpMark(h) && !NoTake(rest, h) {
      var j :| 0 <= j < |rest| && IsTake(rest[j], h);
      assert IsTake(ops[j + 1], h);
    }
    if MarkThenTake(rest, h) {
      var i, j :| 0 <= i < j < |rest| && rest[i] == OpMark(h) && IsTake(rest[j], h);
      assert ops[i + 1] == OpMark(h) && IsTake(ops[j + 1], h);
    }
  }

  lemma {:induction false} TakesOnlyGrow(g: Registry, ops: seq<Op>, h: nat)
    requires Wf(g) && Runs(g, ops)
    ensures TakesOf(g, h) <= TakesOf(RunAll(g, ops), h)
    decreases |ops|
  {
    if ops == [] {
    } else {
      TakesOnlyGrow(Do(g, ops[0]), ops[1..], h);
    }
  }

  /** From any registry and over any calls: the context is taken exactly if a take finds a mark before it. */
  lemma {:induction false} TakenIffMarked(g: Registry, ops: seq<Op>, h: nat)
    requires Wf(g) && Runs(g, ops)
    ensures TakesOf(RunAll(g, ops), h) > TakesOf(g, h) <==>
            (IsPrepared(g, h) && !NoTake(ops, h)) || MarkThenTake(ops, h)
    decreases |ops|
  {
    if ops == [] {
    } else {
      TakenIffMarked(Do(g, ops[0]), ops[1..], h);
      TakesOnlyGrow(Do(g, ops[0]), ops[1..], h);
      MarkThenTakeStep(ops, h);
      NoTakeStep(ops, h);
    }
  }

  /**
   A context that is being applied is committed a second time exactly if it is
   marked prepared again and a matching Commit comes after that.
   */
  lemma SecondTakeIffMarkedAgain(before: seq<Op>, ops: seq<Op>, h: nat)
    requires Runs(EMPTY, before) && h < |RunAll(EMPTY, before).contexts|
    requires RunAll(EMPTY, before).contexts[h].state == APPLYING && Runs(RunAll(EMPTY, before), ops)
    ensures TakesOf(RunAll(RunAll(EMPTY, before), ops), h) > TakesOf(RunAll(EMPTY, before), h) <==> MarkThenTake(ops, h)
  {
    TakenIffMarked(RunAll(EMPTY, before), ops, h);
  }

  // ----- what a Prepare gets -----

  /** The call erases the live context of the identity. */
  predicate Erases(g: Registry, op: Op, id: Option<Id>) {
    op.OpErase? && op.h < |g.contexts| && g.contexts[op.h].request.id == id
  }

  ghost predicate NeverErased(g: Registry, ops: seq<Op>, id: Option<Id>)
    requires Wf(g) && Runs(g, ops)
    decreases |ops|
  {
    ops == [] || (!Erases(g, ops[0], id) && NeverErased(Do(g, ops[0]), ops[1..], id))
  }

  lemma StaysLive(g: Registry, op: Op, id: Option<Id>)
    requires Wf(g) && Callable(g, op) && id in g.live && !Erases(g, op, id)
    ensures id in Do(g, op).live && Do(g, op).live[id] == g.live[id]
  {
  }

  /**
   Until its context is erased, an identity keeps its context and its payload,
   whatever is called: a Prepare with that payload gets the context, every other
   payload is refused, and neither changes anything.
   */
  lemma {:induction false} ConflictIsRefused(g: Registry, ops: seq<Op>, r: Request)
    requires Wf(g) && Runs(g, ops) && r.id in g.live && NeverErased(g, ops, r.id)
    ensures var h := g.live[r.id];
      Begin(RunAll(g, ops), r) == (RunAll(g, ops), if r == g.contexts[h].request then Some(h) else None, false)
    decreases |ops|
  {
    if ops == [] {
    } else {
      StaysLive(g, ops[0], r.id);
      ConflictIsRefused(Do(g, ops[0]), ops[1..], r);
    }
  }

  // ----- a second commit -----

  lemma RunFirst(g: Registry, op: Op, ops: seq<Op>)
    requires Wf(g) && Callable(g, op) && Runs(Do(g, op), ops)
    ensures Runs(g, [op] + ops) && RunAll(g, [op] + ops) == RunAll(Do(g, op), ops)
  {
    assert ([op] + ops)[1..] == ops;
  }

  function TakenOnceMore(x: Context): Context { x.(state := APPLYING, marks := x.marks + 1, takes := x.takes + 1) }

  /** A mark and a take, whatever comes after them. */
  lemma MarkAndTake(g: Registry, l: Lookup, ops: seq<Op>)
    requires Wf(g) && |g.contexts| == 1 && l.h == 0 && l in g.lookups
    requires Runs(g.(contexts := [TakenOnceMore(g.contexts[0])]), ops)
    ensures var x := TakenOnceMore(g.contexts[0]);
      && Runs(g, [OpMark(0)] + ([OpTake(l)] + ops))
      && RunAll(g, [OpMark(0)] + ([OpTake(l)] + ops)) == RunAll(g.(contexts := [x]), ops)
  {
    var x := TakenOnceMore(g.contexts[0]);
    assert Do(Do(g, OpMark(0)), OpTake(l)) == g.(contexts := [x]);
    RunFirst(Do(g, OpMark(0)), OpTake(l), ops);
    RunFirst(g, OpMark(0), [OpTake(l)] + ops);
  }

  lemma TwiceMarkedAndTaken(g: Registry, r: Request, l: Lookup)
    requires Wf(g) && g.contexts == [Context(r, PREPARING, 0, 0)] && l.h == 0 && l in g.lookups
    ensures var twice := [OpMark(0)] + ([OpTake(l)] + ([OpMark(0)] + ([OpTake(l)] + [])));
      Runs(g, twice) && RunAll(g, twice).contexts == [Context(r, APPLYING, 2, 2)]
  {
    MarkAndTake(g.(contexts := [Context(r, APPLYING, 1, 1)]), l, []);
    MarkAndTake(g, l, [OpMark(0)] + ([OpTake(l)] + []));
  }

  /** Marking twice is what would allow a second commit: the registry itself does not prevent it. */
  lemma TwoMarksTwoTakes(r: Request)
    requires ValidRequest(r)
    ensures var l := Lookup(Commit(r.id, r.tx, r.start, r.commit), 0);
      var twice := [OpMark(0)] + ([OpTake(l)] + ([OpMark(0)] + ([OpTake(l)] + [])));
      var ops := [OpBegin(r)] + ([OpLook(l.commit)] + twice);
      Runs(EMPTY, ops) && RunAll(EMPTY, ops).contexts == [Context(r, APPLYING, 2, 2)]
  {
    var l := Lookup(Commit(r.id, r.tx, r.start, r.commit), 0);
    var twice := [OpMark(0)] + ([OpTake(l)] + ([OpMark(0)] + ([OpTake(l)] + [])));
    var g := Registry([Context(r, PREPARING, 0, 0)], map[r.id := 0], {});
    var found := g.(lookups := {l});
    TwiceMarkedAndTaken(found, r, l);
    assert Do(EMPTY, OpBegin(r)) == g && Do(g, OpLook(l.commit)) == found;
    RunFirst(g, OpLook(l.commit), twice);
    RunFirst(EMPTY, OpBegin(r), [OpLook(l.commit)] + twice);
  }
}
