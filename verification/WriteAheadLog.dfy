/**
 Logging on every node and pages that travel between nodes: per-node LSN
 counters, group flush with a persisted watermark, and the three ways in which
 a page may leave a node. A page is written only by a node that alone has its
 current copy while none is on its way; CopyTheorems shows that page ownership
 provides this.
 */
module WriteAheadLog {
  import opened Options

  type Node = nat
  type PageNo = int

  /** A log record; a metadata record belongs to no page. */
  datatype Rec = Rec(node: Node, lsn: nat, prev: nat, page: Option<PageNo>)

  /** `batch` is taken out of the queue and not stored yet; `high` is the largest LSN of the flush under way. */
  datatype Log = Log(
    cur: nat,
    queued: seq<Rec>,
    batch: seq<Rec>,
    durable: seq<Rec>,
    flushing: bool,
    high: nat,
    persist: nat,
    ready: nat)

  const NO_LOG := Log(0, [], [], [], false, 0, 0, 0)

  /** The records on a page in the order they were written, its current copies, and which are dirty. */
  datatype Page = Page(chain: seq<Rec>, at: set<Node>, dirty: set<Node>)

  /** A queued push: it may run at once, or once the push watermark has reached `wait`. */
  datatype Task = Task(page: PageNo, from: Node, to: Node, wait: nat, can: bool)

  datatype Push = Push(page: PageNo, to: Node)

  datatype State = State(logs: map<Node, Log>, pages: map<PageNo, Page>, tasks: set<Task>, pushes: set<Push>)

  ghost predicate Init(s: State) {
    && (forall n :: n in s.logs ==> s.logs[n] == NO_LOG)
    && (forall p :: p in s.pages ==> s.pages[p] == Page([], {}, {}))
    && s.tasks == {} && s.pushes == {}
  }

  function LastLsn(recs: seq<Rec>): nat {
    if recs == [] then 0 else recs[|recs| - 1].lsn
  }

  function MaxLsn(recs: seq<Rec>): nat {
    if recs == [] then 0
    else var m := MaxLsn(recs[..|recs| - 1]);
      if recs[|recs| - 1].lsn > m then recs[|recs| - 1].lsn else m
  }

  function Max(a: nat, b: nat): nat { if a > b then a else b }

  /** update_page_llsn: larger than anything this node issued and than the page's LSN. */
  function NextLsn(cur: nat, pageLsn: nat): nat {
    if cur + 1 <= pageLsn then pageLsn + 1 else cur + 1
  }

  function Append(log: Log, r: Rec): Log {
    log.(cur := r.lsn, queued := log.queued + [r])
  }

  /** The flush takes the whole queue and notes its largest LSN. */
  function Taken(log: Log): Log {
    log.(batch := log.queued, queued := [], flushing := true, high := MaxLsn(log.queued))
  }

  /** Storage has acknowledged the batch. */
  function Stored(log: Log): Log { log.(durable := log.durable + log.batch, batch := []) }

  /** The persisted watermark catches up and wakes those who wait for it. */
  function Published(log: Log): Log { log.(persist := Max(log.persist, log.high), flushing := false) }

  /** Some copy of the page is queued or on its way. */
  predicate InFlight(s: State, p: PageNo) {
    (exists t :: t in s.tasks && t.page == p) || (exists m :: m in s.pushes && m.page == p)
  }

  /** wait_log_flush lets the page go: clean, or its last record is covered by the watermark. */
  predicate Covered(s: State, n: Node, p: PageNo)
    requires n in s.logs && p in s.pages
  {
    n in s.pages[p].dirty ==> LastLsn(s.pages[p].chain) <= s.logs[n].persist
  }

  predicate Runnable(t: Task, ready: nat) {
    t.can || t.wait == 0 || t.wait <= ready
  }

  datatype Step =
    | Write(n: Node, p: PageNo) | Meta(n: Node)
    | TakeBatch(n: Node) | StoreBatch(n: Node) | PublishLsn(n: Node) | MarkReady(n: Node, lsn: nat)
    | Clean(n: Node, p: PageNo) | PushNow(n: Node, p: PageNo, to: Node) | PushLater(n: Node, p: PageNo, to: Node)
    | RunTask(t: Task) | Arrive(m: Push)
    | DropCopy(n: Node, p: PageNo) | Evict(n: Node, p: PageNo) | Load(n: Node, p: PageNo)

  predicate HasCopy(s: State, n: Node, p: PageNo) {
    n in s.logs && p in s.pages && n in s.pages[p].at
  }

  predicate Enabled(s: State, e: Step) {
    match e
    case Write(n, p) => HasCopy(s, n, p) && s.pages[p].at == {n} && !InFlight(s, p)
    case Meta(n) => n in s.logs
    case TakeBatch(n) => n in s.logs && !s.logs[n].flushing && s.logs[n].queued != []
    case StoreBatch(n) => n in s.logs && s.logs[n].flushing && s.logs[n].batch != []
    case PublishLsn(n) => n in s.logs && s.logs[n].flushing && s.logs[n].batch == []
    case MarkReady(n, lsn) => n in s.logs && lsn <= s.logs[n].persist
    case Clean(n, p) => HasCopy(s, n, p) && Covered(s, n, p)
    case PushNow(n, p, to) => HasCopy(s, n, p) && n !in s.pages[p].dirty && to != n
    case PushLater(n, p, to) => HasCopy(s, n, p) && to != n
    case RunTask(t) => t in s.tasks && t.from in s.logs && Runnable(t, s.logs[t.from].ready)
    case Arrive(m) => m in s.pushes && m.page in s.pages && m.to in s.logs && m.to !in s.pages[m.page].at
    case DropCopy(n, p) => HasCopy(s, n, p) && (s.pages[p].at != {n} || InFlight(s, p))
    case Evict(n, p) => HasCopy(s, n, p) && n !in s.pages[p].dirty
    case Load(n, p) => n in s.logs && p in s.pages && s.pages[p].at == {} && !InFlight(s, p)
  }

  function PutLog(s: State, n: Node, log: Log): State { s.(logs := s.logs[n := log]) }
  function PutPage(s: State, p: PageNo, page: Page): State { s.(pages := s.pages[p := page]) }

  /** A page update and its record: AddUpdateLog, AddLockLog and the like. */
  function DoWrite(s: State, n: Node, p: PageNo): State
    requires HasCopy(s, n, p)
  {
    var page := s.pages[p];
    var pageLsn := LastLsn(page.chain);
    var r := Rec(n, NextLsn(s.logs[n].cur, pageLsn), pageLsn, Some(p));
    PutPage(PutLog(s, n, Append(s.logs[n], r)), p, page.(chain := page.chain + [r], dirty := page.dirty + {n}))
  }

  /** The scheduled push: queued with the LSN it has to wait for. */
  function NewTask(s: State, n: Node, p: PageNo, to: Node): Task
    requires HasCopy(s, n, p)
  {
    var wait := LastLsn(s.pages[p].chain);
    var can := Covered(s, n, p);
    Task(p, n, to, wait, can || wait == 0 || wait <= s.logs[n].ready)
  }

  function DropAt(s: State, n: Node, p: PageNo): State
    requires p in s.pages
  {
    var page := s.pages[p];
    PutPage(s, p, page.(at := page.at - {n}, dirty := page.dirty - {n}))
  }

  function Apply(s: State, e: Step): State
    requires Enabled(s, e)
  {
    match e
    case Write(n, p) => DoWrite(s, n, p)
    case Meta(n) => PutLog(s, n, Append(s.logs[n], Rec(n, s.logs[n].cur + 1, 0, None)))
    case TakeBatch(n) => PutLog(s, n, Taken(s.logs[n]))
    case StoreBatch(n) => PutLog(s, n, Stored(s.logs[n]))
    case PublishLsn(n) => PutLog(s, n, Published(s.logs[n]))
    case MarkReady(n, lsn) => PutLog(s, n, s.logs[n].(ready := Max(s.logs[n].ready, lsn)))
    case Clean(n, p) => PutPage(s, p, s.pages[p].(dirty := s.pages[p].dirty - {n}))
    case PushNow(n, p, to) => s.(pushes := s.pushes + {Push(p, to)})
    case PushLater(n, p, to) => s.(tasks := s.tasks + {NewTask(s, n, p, to)})
    case RunTask(t) => s.(tasks := s.tasks - {t}, pushes := s.pushes + {Push(t.page, t.to)})
    case Arrive(m) =>
      var page := s.pages[m.page];
      PutPage(s, m.page, page.(at := page.at + {m.to}, dirty := page.dirty - {m.to})).(pushes := s.pushes - {m})
    case DropCopy(n, p) => DropAt(s, n, p)
    case Evict(n, p) => DropAt(s, n, p)
    case Load(n, p) => PutPage(s, p, s.pages[p].(at := {n}))
  }

  predicate Legal(s: State, steps: seq<Step>)
    decreases |steps|
  {
    steps == [] || (Enabled(s, steps[0]) && Legal(Apply(s, steps[0]), steps[1..]))
  }

  function After(s: State, steps: seq<Step>): State
    requires Legal(s, steps)
    decreases |steps|
  {
    if steps == [] then s else After(Apply(s, steps[0]), steps[1..])
  }

  // ----- the invariant -----

  ghost predicate Increasing(recs: seq<Rec>) {
    forall i, j :: 0 <= i < j < |recs| ==> recs[i].lsn < recs[j].lsn
  }

  /** Everything the node has issued, oldest first. */
  function Issued(log: Log): seq<Rec> { log.durable + log.batch + log.queued }

  ghost predicate LogOk(n: Node, log: Log) {
    && Increasing(Issued(log))
    && (forall r :: r in Issued(log) ==> r.node == n && 0 < r.lsn <= log.cur)
    && log.ready <= log.persist <= LastLsn(log.durable)
    && (log.flushing ==> log.high == if log.batch == [] then LastLsn(log.durable) else LastLsn(log.batch))
    && (!log.flushing ==> log.batch == [])
  }

  /** Each record names the LSN of the one before it on the page. */
  ghost predicate ChainOk(p: PageNo, chain: seq<Rec>) {
    && Increasing(chain)
    && (forall i :: 0 <= i < |chain| ==> chain[i].page == Some(p) && chain[i].lsn > 0)
    && (forall i :: 0 <= i < |chain| ==> chain[i].prev == if i == 0 then 0 else chain[i - 1].lsn)
  }

  predicate IsIssued(s: State, r: Rec) { r.node in s.logs && r in Issued(s.logs[r.node]) }
  predicate IsDurable(s: State, r: Rec) { r.node in s.logs && r in s.logs[r.node].durable }

  /** Every record of the page is durable, except possibly those of node `n`. */
  predicate DurableBut(s: State, chain: seq<Rec>, n: Node) {
    forall r :: r in chain ==> IsDurable(s, r) || r.node == n
  }

  predicate AllDurable(s: State, chain: seq<Rec>) {
    forall r :: r in chain ==> IsDurable(s, r)
  }

  predicate CopyOk(s: State, page: Page, n: Node) {
    if n in page.dirty then DurableBut(s, page.chain, n) else AllDurable(s, page.chain)
  }

  predicate TaskOk(s: State, t: Task, page: Page) {
    && t.wait == LastLsn(page.chain) && t.from in s.logs && DurableBut(s, page.chain, t.from)
    && (t.can ==> AllDurable(s, page.chain))
  }

  ghost predicate PageOk(s: State, p: PageNo)
    requires p in s.pages
  {
    var page := s.pages[p];
    && ChainOk(p, page.chain)
    && (forall r :: r in page.chain ==> IsIssued(s, r))
    && page.dirty <= page.at
    && (forall n :: n in page.at ==> n in s.logs && CopyOk(s, page, n))
    && (forall t :: t in s.tasks && t.page == p ==> TaskOk(s, t, page))
    && (forall m :: m in s.pushes && m.page == p ==> AllDurable(s, page.chain))
    && (page.at == {} && !InFlight(s, p) ==> AllDurable(s, page.chain))
  }

  ghost predicate Inv(s: State) {
    && (forall n :: n in s.logs ==> LogOk(n, s.logs[n]))
    && (forall p :: p in s.pages ==> PageOk(s, p))
    && (forall t :: t in s.tasks ==> t.page in s.pages)
    && (forall m :: m in s.pushes ==> m.page in s.pages)
  }
}
