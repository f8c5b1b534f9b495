/** The log of one node and its push scheduler, as the objects whose methods update them in place. */
module NodeLog {
  import opened Options
  import opened WriteAheadLog
  import opened WalProofs

  class LogBuffer {
    const node: Node
    var cur: nat
    var queued: seq<Rec>
    var durable: seq<Rec>
    var persist: nat
    var ready: nat

    /** The log between two flushes. */
    function View(): Log
      reads this
    {
      Log(cur, queued, [], durable, false, 0, persist, ready)
    }

    ghost predicate Valid()
      reads this
    {
      LogOk(node, View())
    }

    constructor (n: Node)
      ensures Valid() && node == n && View() == NO_LOG
    {
      node := n;
      cur, queued, durable, persist, ready := 0, [], [], 0, 0;
    }

    /** generate_next_llsn, pushed past the page's LSN if that is ahead. */
    method UpdatePageLlsn(pageLsn: nat) returns (lsn: nat)
      modifies this`cur
      ensures cur == lsn == NextLsn(old(cur), pageLsn)
      ensures lsn == if pageLsn <= old(cur) then old(cur) + 1 else pageLsn + 1
      ensures lsn > old(cur) && lsn > pageLsn
    {
      cur := cur + 1;
      lsn := cur;
      if lsn <= pageLsn {
        lsn := pageLsn + 1;
        if lsn > cur { cur := lsn; }
      }
    }

    /** A page update: the record names the page's previous LSN and gets a larger one than any before it. */
    method AddPageLog(p: PageNo, pageLsn: nat) returns (lsn: nat)
      requires Valid()
      modifies this`cur, this`queued
      ensures Valid()
      ensures View() == Append(old(View()), Rec(node, NextLsn(old(cur), pageLsn), pageLsn, Some(p)))
      ensures lsn == cur && queued == old(queued) + [Rec(node, lsn, pageLsn, Some(p))]
    {
      AppendKeeps(node, View(), Rec(node, NextLsn(cur, pageLsn), pageLsn, Some(p)));
      lsn := UpdatePageLlsn(pageLsn);
      queued := queued + [Rec(node, lsn, pageLsn, Some(p))];
    }

    method AddMetadataLog() returns (lsn: nat)
      requires Valid()
      modifies this`cur, this`queued
      ensures Valid() && View() == Append(old(View()), Rec(node, old(cur) + 1, 0, None)) && lsn == cur
    {
      AppendKeeps(node, View(), Rec(node, cur + 1, 0, None));
      cur := cur + 1;
      lsn := cur;
      queued := queued + [Rec(node, lsn, 0, None)];
    }

    /** One whole flush with nothing appended meanwhile: everything issued becomes durable and published. */
    method LogFlush()
      requires Valid()
      modifies this`queued, this`durable, this`persist
      ensures Valid() && queued == [] && durable == Issued(old(View()))
      ensures old(queued) != [] ==> persist == LastLsn(durable)
      ensures old(queued) == [] ==> persist == old(persist)
    {
      ghost var log := View();
      assert Issued(log) == durable + queued;
      if queued == [] {
        assert durable == Issued(log);
        return;
      }
      MaxIsLastOf(node, log);
      FlushedOk(node, log);
      var batch := queued;
      queued := [];
      var high := LargestLsn(batch);
      durable := durable + batch;
      if high > persist { persist := high; }
    }
  }

  method LargestLsn(batch: seq<Rec>) returns (high: nat)
    ensures forall r :: r in batch ==> r.lsn <= high
    ensures batch != [] ==> exists r :: r in batch && r.lsn == high
    ensures high == MaxLsn(batch)
  {
    high := 0;
    var i := 0;
    while i < |batch|
      invariant 0 <= i <= |batch| && high == MaxLsn(batch[..i])
      invariant forall r :: r in batch[..i] ==> r.lsn <= high
      invariant i > 0 ==> exists r :: r in batch[..i] && r.lsn == high
    {
      assert batch[..i + 1][..i] == batch[..i] && batch[..i + 1] == batch[..i] + [batch[i]];
      if batch[i].lsn > high || i == 0 { assert batch[i] in batch[..i + 1]; }
      if batch[i].lsn > high { high := batch[i].lsn; }
      i := i + 1;
    }
    assert batch[..i] == batch;
  }

  /** A complete flush leaves the log in order, with the watermark on its last record. */
  lemma FlushedOk(n: Node, log: Log)
    requires LogOk(n, log) && log.queued != [] && log.batch == [] && !log.flushing
    ensures LogOk(n, Log(log.cur, [], [], Issued(log), false, 0, LastLsn(Issued(log)), log.ready))
  {
    MaxIsLastOf(n, log);
    assert Issued(log) + [] + [] == Issued(log);
  }

  lemma MaxIsLastOf(n: Node, log: Log)
    requires LogOk(n, log) && log.queued != [] && log.batch == []
    ensures MaxLsn(log.queued) == LastLsn(log.queued) == LastLsn(Issued(log)) && log.persist <= LastLsn(log.queued)
  {
    assert log.queued == Issued(log)[|log.durable|..];
    MaxIsLast(log.queued);
    if log.durable != [] {
      var i, j := |log.durable| - 1, |Issued(log)| - 1;
      assert Issued(log)[i] == log.durable[i] && Issued(log)[j] == log.queued[|log.queued| - 1];
    }
  }

  /** Tasks of the push scheduler, in arrival order. */
  class PushScheduler {
    var ready: nat
    var tasks: seq<Task>

    constructor ()
      ensures ready == 0 && tasks == []
    {
      ready, tasks := 0, [];
    }

    /** scheduleNoLock. */
    method Schedule(t: Task)
      modifies this`tasks
      ensures tasks == old(tasks) + [t.(can := Runnable(t, ready))]
    {
      tasks := tasks + [t.(can := t.can || t.wait == 0 || t.wait <= ready)];
    }

    /** The push watermark never goes back, however late a smaller value arrives. */
    method MarkPushReady(lsn: nat)
      modifies this`ready
      ensures ready == Max(old(ready), lsn)
    {
      var observed := ready;
      while observed < lsn
        invariant ready == if observed < lsn then old(ready) else Max(old(ready), lsn)
        invariant observed == ready
        decreases lsn - observed
      {
        ready := lsn;
        observed := ready;
      }
    }

    /**
     Takes the first task that may run out of the list. A task may run if it was
     queued as ready or the watermark has reached its LSN; if none may, the list
     keeps them all, in order.
     */
    method Dequeue() returns (next: Option<Task>)
      modifies this`tasks
      ensures match next
        case None => tasks == old(tasks) && forall t :: t in tasks ==> !Runnable(t, ready)
        case Some(t) => exists i :: 0 <= i < |old(tasks)| && IsFirst(old(tasks), i, ready, t, tasks)
    {
      var i := 0;
      while i < |tasks|
        invariant 0 <= i <= |tasks| && tasks == old(tasks)
        invariant forall j :: 0 <= j < i ==> !Runnable(tasks[j], ready)
      {
        var t := tasks[i];
        if !t.can && (t.wait == 0 || t.wait <= ready) { t := t.(can := true); }
        if t.can {
          tasks := tasks[..i] + tasks[i + 1..];
          assert IsFirst(old(tasks), i, ready, t, tasks);
          return Some(t);
        }
        i := i + 1;
      }
      return None;
    }
  }

  /** Task `i` is the first that may run; `t` is that task, marked ready, and `rest` all the others. */
  ghost predicate IsFirst(before: seq<Task>, i: nat, ready: nat, t: Task, rest: seq<Task>)
    requires i < |before|
  {
    && Runnable(before[i], ready) && t == before[i].(can := true)
    && (forall j :: 0 <= j < i ==> !Runnable(before[j], ready))
    && rest == before[..i] + before[i + 1..]
  }
}
