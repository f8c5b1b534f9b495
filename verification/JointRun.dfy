/** The copies of a page and the log in one run: the log's conditions on copies are met by themselves. */
module JointRun {
  import opened Options
  import opened PageLockTypes
  import opened PageOwnership
  import opened PageCopies
  import opened CopySteps
  import opened CopyTheorems
  import opened JointSteps
  import Log = WriteAheadLog
  import WalProofs

  // ----- the side of the log -----

  function LogPicture(w: Log.State, p: Log.PageNo): Picture
    requires p in w.pages
  {
    Picture(w.pages[p].at,
            (set m | m in w.pushes && m.page == p :: m.to) + (set t | t in w.tasks && t.page == p :: t.to),
            |w.pages[p].chain|)
  }

  /** Nobody is sent the page twice at a time. */
  ghost predicate OneEach(w: Log.State, p: Log.PageNo) {
    && (forall t, u :: t in w.tasks && u in w.tasks && t.page == u.page == p && t.to == u.to ==> t == u)
    && (forall t :: t in w.tasks && t.page == p ==> Log.Push(p, t.to) !in w.pushes)
  }

  /** Both models show the same picture of the page. */
  ghost predicate Agrees(d: Data, w: Log.State, p: Log.PageNo) {
    && p in w.pages && (forall n :: n in d.s.nodes ==> n in w.logs)
    && LogPicture(w, p) == PictureOf(d) && OneEach(w, p)
  }

  lemma InLogFlight(w: Log.State, p: Log.PageNo)
    requires p in w.pages
    ensures Log.InFlight(w, p) <==> LogPicture(w, p).fly != {}
  {
    if Log.InFlight(w, p) {
      if t :| t in w.tasks && t.page == p { assert t.to in LogPicture(w, p).fly; }
      else { var m :| m in w.pushes && m.page == p; assert m.to in LogPicture(w, p).fly; }
    }
    if LogPicture(w, p).fly != {} {
      var n :| n in LogPicture(w, p).fly;
    }
  }

  /** The picture is all that the conditions of the log model ask of the copies. */
  lemma AgreeingMirrors(d: Data, w: Log.State, p: Log.PageNo)
    requires Agrees(d, w, p)
    ensures Mirrors(d, w, p)
  {
    InLogFlight(w, p);
    forall n ensures n in w.pages[p].at <==> HasCopy(d, n) { assert n in PictureOf(d).at <==> HasCopy(d, n); }
    if InFlight(d) {
      var n :| n in d.via && d.via[n].Flying?;
      assert n in PictureOf(d).fly;
    }
    if PictureOf(d).fly != {} {
      var n :| n in PictureOf(d).fly;
      assert n in d.via && d.via[n].Flying?;
    }
  }

  /** A push, at once or scheduled. */
  function PushStep(push: (Node, Node), p: Log.PageNo, later: bool): Log.Step {
    if later then Log.PushLater(push.0, p, push.1) else Log.PushNow(push.0, p, push.1)
  }

  lemma PushEffect(w: Log.State, p: Log.PageNo, push: (Node, Node), later: bool)
    requires Log.Enabled(w, PushStep(push, p, later)) && OneEach(w, p) && push.1 !in LogPicture(w, p).fly
    ensures var w' := Log.Apply(w, PushStep(push, p, later));
      && p in w'.pages && w'.logs == w.logs && w'.pages == w.pages
      && LogPicture(w', p) == WithPush(LogPicture(w, p), Some(push)) && OneEach(w', p)
  {
    var w' := Log.Apply(w, PushStep(push, p, later));
    if later {
      var t := Log.NewTask(w, push.0, p, push.1);
      forall u | u in w.tasks && u.page == p ensures u.to != push.1 { assert u.to in LogPicture(w, p).fly; }
      assert forall m :: m in w.pushes && m.page == p ==> m.to in LogPicture(w, p).fly;
      assert forall n :: n in LogPicture(w', p).fly ==> n in LogPicture(w, p).fly || n == push.1;
      assert t in w'.tasks && t.page == p && t.to == push.1;
    } else {
      forall u | u in w.tasks && u.page == p ensures u.to != push.1 { assert u.to in LogPicture(w, p).fly; }
      assert Log.Push(p, push.1) in w'.pushes;
    }
  }

  lemma ArriveEffect(w: Log.State, p: Log.PageNo, n: Node)
    requires Log.Enabled(w, Log.Arrive(Log.Push(p, n))) && OneEach(w, p)
    ensures var w' := Log.Apply(w, Log.Arrive(Log.Push(p, n)));
      && p in w'.pages && w'.logs == w.logs && OneEach(w', p)
      && LogPicture(w', p) == LogPicture(w, p).(at := LogPicture(w, p).at + {n}, fly := LogPicture(w, p).fly - {n})
  {
    var w' := Log.Apply(w, Log.Arrive(Log.Push(p, n)));
    forall k ensures k in LogPicture(w', p).fly <==> k in LogPicture(w, p).fly && k != n {
      assert Log.Push(p, k) in w'.pushes <==> Log.Push(p, k) in w.pushes && k != n;
      assert forall m :: m in w.pushes && m.page == p && m.to == k ==> m == Log.Push(p, k);
    }
  }

  lemma RunTaskEffect(w: Log.State, p: Log.PageNo, t: Log.Task)
    requires p in w.pages && Log.Enabled(w, Log.RunTask(t)) && OneEach(w, p)
    ensures var w' := Log.Apply(w, Log.RunTask(t));
      p in w'.pages && w'.logs == w.logs && LogPicture(w', p) == LogPicture(w, p) && OneEach(w', p)
  {
    var w' := Log.Apply(w, Log.RunTask(t));
    assert Log.Push(t.page, t.to) in w'.pushes;
    forall k ensures k in LogPicture(w', p).fly <==> k in LogPicture(w, p).fly {
      if k in LogPicture(w, p).fly {
        if m :| m in w.pushes && m.page == p && m.to == k { assert m in w'.pushes; }
        else {
          var u :| u in w.tasks && u.page == p && u.to == k;
          assert u == t || u in w'.tasks;
        }
      }
    }
  }

  // ----- a step of both -----

  /** What an action on the copies means for the log. */
  function LogSteps(d: Data, a: Action, p: Log.PageNo, later: bool): seq<Log.Step>
    requires May(d, a)
  {
    match a
    case Write(n) => [Log.Write(n, p)]
    case Load(n) => [Log.Load(n, p)]
    case PushArrives(n) => [Log.Arrive(Log.Push(p, n))]
    case PushListed(n, to) => [PushStep((n, to), p, later)]
    case Protocol(e) => PushSteps(d, e, p, later) + LeaveSteps(d, e, p)
  }

  function PushSteps(d: Data, e: Step, p: Log.PageNo, later: bool): seq<Log.Step>
    requires MayStep(d, e)
  {
    if PushIn(d, e).Some? then [PushStep(PushIn(d, e).value, p, later)] else []
  }

  function LeaveSteps(d: Data, e: Step, p: Log.PageNo): seq<Log.Step>
    requires MayStep(d, e)
  {
    if Leaving(d, e) then [Log.DropCopy(e.n, p)] else if Evicts(d, e) then [Log.Evict(e.n, p)] else []
  }

  /** The sender has waited for its log, unless the push is scheduled. */
  predicate LogIsOut(w: Log.State, p: Log.PageNo, n: Node, later: bool)
    requires p in w.pages
  {
    later || n !in w.pages[p].dirty
  }

  /** What the code waits for in the log before it acts: the flush of a dirty page, or the scheduled push. */
  predicate LogAllows(d: Data, a: Action, w: Log.State, p: Log.PageNo, later: bool)
    requires May(d, a) && p in w.pages
  {
    match a
    case PushArrives(n) => Log.Push(p, n) in w.pushes
    case PushListed(n, _) => LogIsOut(w, p, n, later)
    case Protocol(e) =>
      && (PushIn(d, e).Some? ==> LogIsOut(w, p, PushIn(d, e).value.0, later))
      && (Evicts(d, e) ==> e.n !in w.pages[p].dirty)
    case _ => true
  }

  /** One step is taken in both models and they still agree. */
  ghost predicate Together(d: Data, w: Log.State, steps: seq<Log.Step>, d': Data, p: Log.PageNo) {
    Log.Legal(w, steps) && Agrees(d', Log.After(w, steps), p)
  }

  lemma OneLogStep(w: Log.State, e: Log.Step)
    requires Log.Enabled(w, e)
    ensures Log.Legal(w, [e]) && Log.After(w, [e]) == Log.Apply(w, e)
  {
    assert [e][1..] == [];
    assert Log.After(w, [e]) == Log.After(Log.Apply(w, e), []);
  }

  lemma TwoLogSteps(w: Log.State, e: Log.Step, f: Log.Step)
    requires Log.Enabled(w, e) && Log.Enabled(Log.Apply(w, e), f)
    ensures Log.Legal(w, [e] + [f]) && Log.After(w, [e] + [f]) == Log.Apply(Log.Apply(w, e), f)
  {
    assert ([e] + [f])[1..] == [f];
    OneLogStep(Log.Apply(w, e), f);
  }

  /** A push by a node with a copy to one that is not sent any. */
  lemma PushTogether(d: Data, d': Data, w: Log.State, p: Log.PageNo, push: (Node, Node), later: bool)
    requires Agrees(d, w, p) && HasCopy(d, push.0) && push.0 != push.1 && push.1 !in PictureOf(d).fly
    requires LogIsOut(w, p, push.0, later)
    requires d'.s.nodes.Keys == d.s.nodes.Keys && PictureOf(d') == WithPush(PictureOf(d), Some(push))
    ensures Log.Enabled(w, PushStep(push, p, later)) && Agrees(d', Log.Apply(w, PushStep(push, p, later)), p)
  {
    assert push.0 in PictureOf(d).at && push.0 in w.pages[p].at;
    PushEffect(w, p, push, later);
  }

  lemma WriteTogether(d: Data, w: Log.State, p: Log.PageNo, n: Node)
    requires Reachable(d) && Agrees(d, w, p) && May(d, Write(n))
    ensures Together(d, w, [Log.Write(n, p)], Do(d, Write(n)), p)
  {
    AgreeingMirrors(d, w, p);
    LogMayWrite(d, w, p, n);
    WritePicture(d, n);
    OneLogStep(w, Log.Write(n, p));
    SameFlight(w, Log.Apply(w, Log.Write(n, p)), p);
  }

  lemma LoadTogether(d: Data, w: Log.State, p: Log.PageNo, n: Node)
    requires Reachable(d) && Agrees(d, w, p) && May(d, Load(n))
    ensures Together(d, w, [Log.Load(n, p)], Do(d, Load(n)), p)
  {
    ReachableData(d);
    AgreeingMirrors(d, w, p);
    LogMayLoad(d, w, p, n);
    LoadPicture(d, n);
    OneLogStep(w, Log.Load(n, p));
    SameFlight(w, Log.Apply(w, Log.Load(n, p)), p);
  }

  lemma SameFlight(w: Log.State, w': Log.State, p: Log.PageNo)
    requires w'.pushes == w.pushes && w'.tasks == w.tasks && p in w.pages && p in w'.pages
    ensures LogPicture(w', p).fly == LogPicture(w, p).fly && (OneEach(w, p) ==> OneEach(w', p))
  {
  }

  lemma ArrivalTogether(d: Data, w: Log.State, p: Log.PageNo, n: Node)
    requires Reachable(d) && Agrees(d, w, p) && May(d, PushArrives(n)) && Log.Push(p, n) in w.pushes
    ensures Together(d, w, [Log.Arrive(Log.Push(p, n))], Do(d, PushArrives(n)), p)
  {
    ReachableData(d);
    AgreeingMirrors(d, w, p);
    LogMayArrive(d, w, p, n);
    ArrivalPicture(d, n);
    OneLogStep(w, Log.Arrive(Log.Push(p, n)));
    ArriveEffect(w, p, n);
  }

  lemma ListTogether(d: Data, w: Log.State, p: Log.PageNo, n: Node, to: Node, later: bool)
    requires Reachable(d) && Agrees(d, w, p) && May(d, PushListed(n, to)) && LogIsOut(w, p, n, later)
    ensures Together(d, w, [PushStep((n, to), p, later)], Do(d, PushListed(n, to)), p)
  {
    ReachableData(d);
    ListPicture(d, n, to);
    PushTogether(d, Do(d, PushListed(n, to)), w, p, (n, to), later);
    OneLogStep(w, PushStep((n, to), p, later));
  }

  /** A copy that is dropped or evicted. */
  lemma GoneTogether(d: Data, d': Data, w: Log.State, p: Log.PageNo, e: Log.Step, n: Node)
    requires Agrees(d, w, p) && Log.Enabled(w, e) && (e == Log.DropCopy(n, p) || e == Log.Evict(n, p))
    requires d'.s.nodes.Keys == d.s.nodes.Keys && PictureOf(d') == PictureOf(d).(at := PictureOf(d).at - {n})
    ensures Agrees(d', Log.Apply(w, e), p)
  {
    SameFlight(w, Log.Apply(w, e), p);
  }

  lemma NodesStay(s: State, e: Step)
    requires Enabled(s, e)
    ensures Apply(s, e).nodes.Keys == s.nodes.Keys
  {
  }

  lemma LeavingTogether(d: Data, w: Log.State, p: Log.PageNo, e: Step, later: bool)
    requires Reachable(d) && Agrees(d, w, p) && May(d, Protocol(e)) && Leaving(d, e)
    requires LogAllows(d, Protocol(e), w, p, later)
    ensures Together(d, w, LogSteps(d, Protocol(e), p, later), Do(d, Protocol(e)), p)
  {
    ReachableData(d);
    PushOutPicture(d, e.n);
    LeavingPush(d, e);
    var sent := PushOut(d, e.n);
    var drop := Log.DropCopy(e.n, p);
    if PushIn(d, e).Some? {
      var push := PushIn(d, e).value;
      PushFacts(d, e);
      PushTogether(d, sent, w, p, push, later);
      var w1 := Log.Apply(w, PushStep(push, p, later));
      DropTogether(d, w1, p, e);
      TwoLogSteps(w, PushStep(push, p, later), drop);
    } else {
      assert PictureOf(sent) == PictureOf(d) && Agrees(sent, w, p);
      DropTogether(d, w, p, e);
      OneLogStep(w, drop);
      assert LogSteps(d, Protocol(e), p, later) == [drop];
    }
  }

  /** After the push, the copy is dropped. */
  lemma DropTogether(d: Data, w: Log.State, p: Log.PageNo, e: Step)
    requires Reachable(d) && May(d, Protocol(e)) && Leaving(d, e) && Agrees(PushOut(d, e.n), w, p)
    ensures Log.Enabled(w, Log.DropCopy(e.n, p))
    ensures Agrees(Do(d, Protocol(e)), Log.Apply(w, Log.DropCopy(e.n, p)), p)
  {
    ReachableData(d);
    NodesStay(d.s, e);
    PushOutPicture(d, e.n);
    ProtocolPicture(d, e);
    LeavingPush(d, e);
    AgreeingMirrors(PushOut(d, e.n), w, p);
    LogMayDrop(d, w, p, e);
    GoneTogether(PushOut(d, e.n), Do(d, Protocol(e)), w, p, Log.DropCopy(e.n, p), e.n);
  }

  /** A holder that leaves has been told to, so it sends what it was told to send. */
  lemma LeavingPush(d: Data, e: Step)
    requires May(d, Protocol(e)) && Leaving(d, e)
    ensures PushIn(d, e) == if Sends(d, e.n) then Some((e.n, d.s.g.src.value)) else None
    ensures !Evicts(d, e)
  {
  }

  lemma StayingTogether(d: Data, w: Log.State, p: Log.PageNo, e: Step, later: bool)
    requires Reachable(d) && Agrees(d, w, p) && May(d, Protocol(e)) && !Leaving(d, e)
    requires LogAllows(d, Protocol(e), w, p, later)
    ensures Together(d, w, LogSteps(d, Protocol(e), p, later), Do(d, Protocol(e)), p)
  {
    ReachableData(d);
    NodesStay(d.s, e);
    ProtocolPicture(d, e);
    var d' := Do(d, Protocol(e));
    if PushIn(d, e).Some? {
      PushFacts(d, e);
      PushTogether(d, d', w, p, PushIn(d, e).value, later);
      OneLogStep(w, PushStep(PushIn(d, e).value, p, later));
      assert LogSteps(d, Protocol(e), p, later) == [PushStep(PushIn(d, e).value, p, later)];
    } else if Evicts(d, e) {
      EvictedHadCopy(d, e);
      assert e.n in PictureOf(d).at;
      GoneTogether(d, d', w, p, Log.Evict(e.n, p), e.n);
      OneLogStep(w, Log.Evict(e.n, p));
      assert LogSteps(d, Protocol(e), p, later) == [Log.Evict(e.n, p)];
    } else {
      assert LogSteps(d, Protocol(e), p, later) == [];
    }
  }

  lemma EvictedHadCopy(d: Data, e: Step)
    requires DataInv(d) && May(d, Protocol(e)) && Evicts(d, e)
    ensures HasCopy(d, e.n)
  {
    assert NodeOkIn(d.s, e.n) && CopyOkIn(d, e.n);
  }

  /**
   Whatever the copies may do, once the code has waited for the log where it
   does, the log's own steps are possible, and both models agree again.
   */
  lemma ActTogether(d: Data, w: Log.State, p: Log.PageNo, a: Action, later: bool)
    requires Reachable(d) && Agrees(d, w, p) && May(d, a) && LogAllows(d, a, w, p, later)
    ensures Together(d, w, LogSteps(d, a, p, later), Do(d, a), p)
  {
    match a
    case Write(n) => WriteTogether(d, w, p, n);
    case Load(n) => LoadTogether(d, w, p, n);
    case PushArrives(n) => ArrivalTogether(d, w, p, n);
    case PushListed(n, to) => ListTogether(d, w, p, n, to, later);
    case Protocol(e) =>
      if Leaving(d, e) { LeavingTogether(d, w, p, e, later); } else { StayingTogether(d, w, p, e, later); }
  }

  // ----- joint runs -----

  /** Steps of the log that are part of an action on page `p`. */
  predicate Touches(e: Log.Step, p: Log.PageNo) {
    match e
    case Write(_, q) => q == p
    case PushNow(_, q, _) => q == p
    case PushLater(_, q, _) => q == p
    case Arrive(m) => m.page == p
    case DropCopy(_, q) => q == p
    case Evict(_, q) => q == p
    case Load(_, q) => q == p
    case _ => false
  }

  datatype Both = Both(d: Data, w: Log.State)

  /** An action on the copies of the page with its steps of the log, or any other step of the log. */
  datatype Event = Act(a: Action, later: bool) | LogOnly(e: Log.Step)

  /** An action asks nothing of the log but what the code waits for. */
  predicate MayBoth(b: Both, p: Log.PageNo, ev: Event) {
    match ev
    case Act(a, later) => May(b.d, a) && p in b.w.pages && LogAllows(b.d, a, b.w, p, later)
    case LogOnly(e) => Log.Enabled(b.w, e) && !Touches(e, p)
  }

  ghost function DoBoth(b: Both, p: Log.PageNo, ev: Event): Both
    requires MayBoth(b, p, ev)
  {
    match ev
    case Act(a, later) =>
      var steps := LogSteps(b.d, a, p, later);
      Both(Do(b.d, a), if Log.Legal(b.w, steps) then Log.After(b.w, steps) else b.w)
    case LogOnly(e) => b.(w := Log.Apply(b.w, e))
  }

  ghost predicate RunsBoth(b: Both, p: Log.PageNo, events: seq<Event>)
    decreases |events|
  {
    events == [] || (MayBoth(b, p, events[0]) && RunsBoth(DoBoth(b, p, events[0]), p, events[1..]))
  }

  ghost function EndBoth(b: Both, p: Log.PageNo, events: seq<Event>): Both
    requires RunsBoth(b, p, events)
    decreases |events|
  {
    if events == [] then b else EndBoth(DoBoth(b, p, events[0]), p, events[1..])
  }

  ghost predicate StartBoth(b: Both, p: Log.PageNo) {
    Start(b.d) && Log.Init(b.w) && p in b.w.pages && forall n :: n in b.d.s.nodes ==> n in b.w.logs
  }

  lemma OtherPushes(w: Log.State, e: Log.Step, p: Log.PageNo)
    requires p in w.pages && Log.Enabled(w, e) && !Touches(e, p) && !e.RunTask?
    ensures var w' := Log.Apply(w, e);
      && (forall m: Log.Push :: m.page == p ==> (m in w'.pushes <==> m in w.pushes))
      && (forall t: Log.Task :: t.page == p ==> (t in w'.tasks <==> t in w.tasks))
      && p in w'.pages && w'.pages[p].at == w.pages[p].at && w'.pages[p].chain == w.pages[p].chain
      && w'.logs.Keys == w.logs.Keys
  {
  }

  /** The rest of the log leaves the picture of the page alone. */
  lemma LogOnlyKeeps(d: Data, w: Log.State, p: Log.PageNo, e: Log.Step)
    requires Agrees(d, w, p) && Log.Enabled(w, e) && !Touches(e, p)
    ensures Agrees(d, Log.Apply(w, e), p)
  {
    if e.RunTask? {
      RunTaskEffect(w, p, e.t);
    } else {
      OtherPushes(w, e, p);
      var w' := Log.Apply(w, e);
      assert LogPicture(w', p).fly == LogPicture(w, p).fly;
    }
  }

  lemma StartAgrees(b: Both, p: Log.PageNo)
    requires StartBoth(b, p)
    ensures Agrees(b.d, b.w, p)
  {
    assert b.w.pages[p] == Log.Page([], {}, {});
    assert LogPicture(b.w, p) == Picture({}, {}, 0);
    assert PictureOf(b.d) == Picture({}, {}, 0);
  }

  lemma {:induction false} LogGoesOn(w: Log.State, first: seq<Log.Step>, steps: seq<Log.Step>)
    requires Log.Legal(w, first) && Log.Legal(Log.After(w, first), steps)
    ensures Log.Legal(w, first + steps) && Log.After(w, first + steps) == Log.After(Log.After(w, first), steps)
    decreases |first|
  {
    if first == [] {
      assert [] + steps == steps;
    } else {
      assert (first + steps)[1..] == first[1..] + steps;
      LogGoesOn(Log.Apply(w, first[0]), first[1..], steps);
    }
  }

  lemma LogStaysReachable(w: Log.State, steps: seq<Log.Step>)
    requires WalProofs.Reachable(w) && Log.Legal(w, steps)
    ensures WalProofs.Reachable(Log.After(w, steps))
  {
    var w0, first :| Log.Init(w0) && Log.Legal(w0, first) && Log.After(w0, first) == w;
    LogGoesOn(w0, first, steps);
  }

  /** What holds in every joint run. */
  ghost predicate InStep(b: Both, p: Log.PageNo) {
    Agrees(b.d, b.w, p) && Reachable(b.d) && WalProofs.Reachable(b.w)
  }

  lemma EventKeeps(b: Both, p: Log.PageNo, ev: Event)
    requires InStep(b, p) && MayBoth(b, p, ev)
    ensures InStep(DoBoth(b, p, ev), p)
  {
    match ev
    case Act(a, later) =>
      ActTogether(b.d, b.w, p, a, later);
      ReachableAction(b.d, a, Do(b.d, a));
      LogStaysReachable(b.w, LogSteps(b.d, a, p, later));
    case LogOnly(e) =>
      LogOnlyKeeps(b.d, b.w, p, e);
      OneLogStep(b.w, e);
      LogStaysReachable(b.w, [e]);
  }

  lemma {:induction false} RunInStep(b: Both, p: Log.PageNo, events: seq<Event>)
    requires InStep(b, p) && RunsBoth(b, p, events)
    ensures InStep(EndBoth(b, p, events), p)
    decreases |events|
  {
    if events == [] {
    } else {
      EventKeeps(b, p, events[0]);
      RunInStep(DoBoth(b, p, events[0]), p, events[1..]);
    }
  }

  ghost predicate ReachableBoth(b: Both, p: Log.PageNo) {
    exists b0, events :: StartBoth(b0, p) && RunsBoth(b0, p, events) && EndBoth(b0, p, events) == b
  }

  /** In every joint run both parts are runs of their own models, and they agree on the page. */
  lemma JointRunsAgree(b: Both, p: Log.PageNo)
    requires ReachableBoth(b, p)
    ensures InStep(b, p)
  {
    var b0, events :| StartBoth(b0, p) && RunsBoth(b0, p, events) && EndBoth(b0, p, events) == b;
    StartAgrees(b0, p);
    assert Follows(b0.d, []) && End(b0.d, []) == b0.d;
    assert Log.Legal(b0.w, []) && Log.After(b0.w, []) == b0.w;
    RunInStep(b0, p, events);
  }

  /**
   In every joint run, whatever the copies may do is possible for the log as
   well, once the code has waited for the log where it does: the log model's
   conditions on copies and pushes hold by themselves.
   */
  lemma LogNeverHoldsUp(b: Both, p: Log.PageNo, a: Action, later: bool)
    requires ReachableBoth(b, p) && MayBoth(b, p, Act(a, later))
    ensures Log.Legal(b.w, LogSteps(b.d, a, p, later))
  {
    JointRunsAgree(b, p);
    ActTogether(b.d, b.w, p, a, later);
  }

  /** In every joint run whoever uses the page sees all writes in its log, and others' are durable when it arrives. */
  lemma UsersSeeTheLog(b: Both, p: Log.PageNo, n: Node)
    requires ReachableBoth(b, p) && n in b.d.s.nodes
    ensures InUse(b.d.s.nodes[n]) ==> n in b.d.copy && p in b.w.pages && b.d.copy[n] == |b.w.pages[p].chain|
    ensures MayBoth(b, p, Act(PushArrives(n), false)) ==>
      && b.d.via[n].version == |b.w.pages[p].chain|
      && Log.AllDurable(b.w, b.w.pages[p].chain)
  {
    JointRunsAgree(b, p);
    if InUse(b.d.s.nodes[n]) { UsersHaveTheNewest(b.d, n); }
    if MayBoth(b, p, Act(PushArrives(n), false)) {
      AgreeingMirrors(b.d, b.w, p);
      LogMayArrive(b.d, b.w, p, n);
      WalProofs.WalBeforeArrival(b.w, Log.Push(p, n));
      ReachableData(b.d);
      assert CopyOkIn(b.d, n);
    }
  }
}
