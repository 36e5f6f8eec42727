/** The dispatch protocol as a state machine: one controller whose ticks, launches and cancels are
    serialised, the sessions Devin holds, and one concurrent `ingest` process that competes for the
    single write lock. A step is what happens between two points at which the controller can crash:
    a committed transaction or one remote call. */
module Dispatch {
  import opened Domain
  import opened StateTables

  datatype Config = Config(maxSessions: nat, budget: real, maxFailures: nat, maxRetries: nat)

  /** A work item row. `cap` is its ACU cap, `active` the session it is bound to. */
  datatype Item = Item(life: Life, active: Option<nat>, retries: nat, failures: nat, cap: real,
                       issue: bool, pr: bool)

  /** A session row: what the database last recorded about a session. */
  datatype Row = Row(item: nat, cap: real, acus: real)

  /** A session at Devin; `tag` is the work item named by its `wi-<id>` tag, `active` means it can
      still produce work. */
  datatype Remote = Remote(tag: nat, active: bool, acus: real, cap: real)

  /** A session as one Devin response describes it. */
  datatype Snap = Snap(sid: nat, active: bool, acus: real)

  /** Where the controller is between two steps; everything but `Idle` is lost in a crash. */
  datatype Pc =
    | Idle
    | Launching(item: nat, seenRuns: nat)      // operator launch, write lock held since its first read
    | Reserved(item: nat, recovering: bool)    // `dispatching` committed, sessions not looked up yet
    | LookupFailed(item: nat)
    | Found(item: nat, snap: Snap)             // a session to adopt
    | Clear(item: nat, recovering: bool)       // nothing to adopt
    | CreateFailed(item: nat)
    | Created(item: nat, snap: Snap)           // Devin answered the creation, not recorded yet
    | Polled(item: nat, snap: Snap)
    | Stopped(item: nat, snap: Snap)           // Devin answered the operator's stop

  datatype Lock = Free | HeldByController | HeldByIngest

  /** `items`, `rows`, `runs` (scan runs ingested) and `pending` (those owed an evaluation) are the
      committed database. `debt` and `reentries` are history: what entered the active states without
      an admission check. */
  datatype World = World(items: seq<Item>, rows: map<nat, Row>, remote: seq<Remote>,
                         runs: nat, pending: nat, pc: Pc, lock: Lock,
                         debt: real, reentries: nat)

  const START := World([], map[], [], 0, 0, Idle, Free, 0.0, 0)

  datatype Decision = KeepPolling | SendMessage(delivered: bool, ok: bool) | Escalate | PrReady

  datatype Step =
    | Consume(sid: nat, acus: real)            // Devin meters a working session
    | GoInactive(sid: nat)                     // a session exits, fails or hits a hard stop
    | IngestBegin | IngestCommit | IngestAbort
    | ApplyScans(left: nat)                    // closing evaluations committed by a tick
    | NewItem(cap: real)
    | Observe(i: nat, e: WorkItemEvent)        // a poll, label or evaluation that only moves the item
    | RetryByLabel(i: nat)
    | Nudge(i: nat, delivered: bool)           // a message to the bound session outside a poll
    | Red(i: nat, delivered: bool, ok: bool)   // a red verdict and the same-session retry
    | PollRead(i: nat)
    | PollApply(decision: Decision)
    | StopCall(i: nat, effect: bool, ok: bool)
    | StopRecord
    | Reserve(i: nat)                          // a tick's dispatch admits the item
    | LaunchBegin(i: nat)
    | LaunchReserve
    | LaunchGiveUp(prepared: bool)             // a GitHub call failed; what was written commits
    | RecoverBegin(i: nat)
    | Lookup(ok: bool)
    | Adopt
    | Fail                                     // the dispatch-failure path
    | CreateCall(effect: bool, ok: bool)
    | RecordCreated
    | Crash

  // ---------------------------------------------------------------- capacity and budget figures

  function ActiveCount(items: seq<Item>): nat {
    if items == [] then 0
    else ActiveCount(items[..|items| - 1]) + if IsActive(items[|items| - 1].life.state) then 1 else 0
  }

  /** Caps of items reserved but not bound to a session yet. */
  function ReservedCaps(items: seq<Item>): real {
    if items == [] then 0.0
    else
      ReservedCaps(items[..|items| - 1]) +
      (if items[|items| - 1].life.state == Dispatching then items[|items| - 1].cap else 0.0)
  }

  function Positive(x: real): real {
    if x > 0.0 then x else 0.0
  }

  predicate Binds(items: seq<Item>, i: nat, sid: nat) {
    i < |items| && items[i].active == Some(sid) && IsActive(items[i].life.state)
  }

  /** One session's share of the committed ACUs: what it consumed, plus the rest of its cap while
      an active item is bound to it. */
  function Share(items: seq<Item>, rows: map<nat, Row>, sid: nat): real {
    if sid !in rows then 0.0
    else
      rows[sid].acus +
      (if Binds(items, rows[sid].item, sid) then Positive(rows[sid].cap - rows[sid].acus) else 0.0)
  }

  /** Consumed plus outstanding ACUs over the sessions below `n`. */
  function Committed(items: seq<Item>, rows: map<nat, Row>, n: nat): real {
    if n == 0 then 0.0 else Committed(items, rows, n - 1) + Share(items, rows, n - 1)
  }

  function CommittedIn(w: World): real {
    Committed(w.items, w.rows, |w.remote|)
  }

  predicate HasRoom(cfg: Config, w: World, i: nat)
    requires i < |w.items|
  {
    ActiveCount(w.items) < cfg.maxSessions && CommittedIn(w) + w.items[i].cap <= cfg.budget
  }

  // ---------------------------------------------------------------- item updates

  function Move(it: Item, e: WorkItemEvent): Item {
    it.(life := Fire(it.life, e), issue := it.issue || (e == IssueCreated && it.life.state == Queued))
  }

  function Retried(it: Item): Item {
    Move(it.(retries := 0, active := None), HumanRetry)
  }

  /** A launch brings the item to `issue_open`: a retry for one a human owns, an issue for one that
      is queued. */
  function MadeReady(it: Item): Item {
    if it.life.state in {NeedsHuman, Failed} then Retried(it)
    else if it.life.state == Queued then Move(it, IssueCreated)
    else it
  }

  function DispatchFailure(cfg: Config, it: Item): Item {
    var counted := it.(failures := it.failures + 1);
    if counted.failures >= cfg.maxFailures then Move(counted, Blocked) else Move(counted, DispatchFailed)
  }

  function Put(w: World, i: nat, it: Item): World
    requires i < |w.items|
  {
    w.(items := w.items[i := it])
  }

  /** A transaction that moves item `i` outside the admission path; one that re-enters the active
      states from `ready_for_human` is remembered with the cap it re-reserves. */
  function Commit(w: World, i: nat, it: Item): World
    requires i < |w.items|
  {
    if !IsActive(w.items[i].life.state) && IsActive(it.life.state)
    then Put(w, i, it).(reentries := w.reentries + 1,
                        debt := w.debt + match it.active
                                         case Some(s) => if s in w.rows then Positive(w.rows[s].cap - w.rows[s].acus)
                                           else 0.0
                                         case None => 0.0)
    else Put(w, i, it)
  }

  function Wake(w: World, sid: nat): World {
    if sid < |w.remote| then w.(remote := w.remote[sid := w.remote[sid].(active := true)]) else w
  }

  function SnapOf(w: World, sid: nat): Snap
    requires sid < |w.remote|
  {
    Snap(sid, w.remote[sid].active, w.remote[sid].acus)
  }

  // ---------------------------------------------------------------- adoption

  /** The sessions tagged `wi-<i>` that the controller may bind: those that can still work and those
      it never recorded. */
  predicate Adoptable(w: World, i: nat, sid: nat) {
    sid < |w.remote| && w.remote[sid].tag == i &&
    (w.remote[sid].active || !(sid in w.rows && w.rows[sid].item == i))
  }

  /** Active sessions first, then the youngest; session ids grow with creation. */
  predicate Better(w: World, s: nat, t: nat)
    requires s < |w.remote| && t < |w.remote|
  {
    if w.remote[s].active == w.remote[t].active then s >= t else w.remote[s].active
  }

  /** The best adoptable session below `n`. */
  function Choice(w: World, i: nat, n: nat): (r: Option<nat>)
    requires n <= |w.remote|
    ensures r.None? ==> forall s :: 0 <= s < n ==> !Adoptable(w, i, s)
    ensures r.Some? ==> r.value < n && Adoptable(w, i, r.value)
    ensures r.Some? ==> forall s :: 0 <= s < n && Adoptable(w, i, s) ==> Better(w, r.value, s)
  {
    if n == 0 then None
    else
      var best := Choice(w, i, n - 1);
      if !Adoptable(w, i, n - 1) then best
      else if best.Some? && !Better(w, n - 1, best.value) then best
      else Some(n - 1)
  }

  /** Binds the item; a session seen before keeps the row it has. */
  function Record(w: World, i: nat, snap: Snap, e: WorkItemEvent): World
    requires i < |w.items|
  {
    var rows := if snap.sid in w.rows then w.rows
                else w.rows[snap.sid := Row(i, w.items[i].cap, snap.acus)];
    Put(w, i, Move(w.items[i].(active := Some(snap.sid)), e)).(rows := rows, pc := Idle)
  }

  // ---------------------------------------------------------------- steps

  /** Events that a poll, a label or an evaluation may fire on its own. */
  predicate Observable(e: WorkItemEvent) {
    e !in {DispatchStarted, SessionCreated, SessionAdopted, DispatchFailed, ChecksRed, RetrySent,
           RetriesExhausted, HumanRetry, OperatorCancelled}
  }

  predicate NoneDispatching(items: seq<Item>) {
    forall i :: 0 <= i < |items| ==> items[i].life.state != Dispatching
  }

  predicate Enabled(cfg: Config, w: World, s: Step) {
    match s
    case Consume(sid, acus) =>
      sid < |w.remote| && w.remote[sid].active && w.remote[sid].acus <= acus <= w.remote[sid].cap
    case GoInactive(sid) => sid < |w.remote|
    case IngestBegin => w.lock == Free
    case IngestCommit => w.lock == HeldByIngest
    case IngestAbort => w.lock == HeldByIngest
    case Crash => true
    case ApplyScans(left) => w.pc == Idle && w.lock == Free && left <= w.pending
    case NewItem(cap) => w.pc == Idle && w.lock == Free && cap > 0.0
    case Observe(i, e) =>
      w.pc == Idle && w.lock == Free && i < |w.items| && Observable(e) &&
      w.items[i].life.state != Dispatching
    case RetryByLabel(i) =>
      w.pc == Idle && w.lock == Free && i < |w.items| && w.items[i].life.state in {NeedsHuman, Failed}
    case Nudge(i, delivered) =>
      w.pc == Idle && w.lock == Free && i < |w.items| && w.items[i].active.Some? && IsActive(w.items[i].life.state)
    case Red(i, delivered, ok) =>
      w.pc == Idle && w.lock == Free && i < |w.items| &&
      w.items[i].life.state in {ChecksRunning, ReviewPending, ReadyForHuman}
    case PollRead(i) =>
      w.pc == Idle && i < |w.items| && w.items[i].life.state == SessionActive && w.items[i].active.Some? &&
      w.items[i].active.value < |w.remote|
    case PollApply(d) => w.pc.Polled? && w.lock == Free
    case StopCall(i, effect, ok) =>
      w.pc == Idle && w.lock == Free && i < |w.items| && w.items[i].life.state == SessionActive && !w.items[i].pr &&
      w.items[i].active.Some? && w.items[i].active.value in w.rows && w.items[i].active.value < |w.remote| &&
      (ok ==> effect)
    case StopRecord => w.pc.Stopped? && w.lock == Free
    case Reserve(i) =>
      w.pc == Idle && w.lock == Free && i < |w.items| && w.items[i].life.state == IssueOpen && w.items[i].issue &&
      NoneDispatching(w.items) && HasRoom(cfg, w, i)
    case LaunchBegin(i) =>
      w.pc == Idle && w.lock == Free && i < |w.items| &&
      w.items[i].life.state in {Queued, IssueOpen, NeedsHuman, Failed} && w.pending == 0 && HasRoom(cfg, w, i)
    case LaunchReserve => w.pc.Launching? && w.pc.item < |w.items| && MadeReady(w.items[w.pc.item]).issue
    case LaunchGiveUp(prepared) => w.pc.Launching? && w.pc.item < |w.items|
    case RecoverBegin(i) =>
      w.pc == Idle && w.lock == Free && i < |w.items| && w.items[i].life.state == Dispatching
    case Lookup(ok) => w.pc.Reserved?
    case Adopt => w.pc.Found? && w.lock == Free && w.pc.item < |w.items|
    case Fail =>
      (w.pc.LookupFailed? || w.pc.CreateFailed? || (w.pc.Clear? && w.pc.recovering)) && w.lock == Free &&
      w.pc.item < |w.items|
    case CreateCall(effect, ok) =>
      w.pc.Clear? && !w.pc.recovering && w.pc.item < |w.items| && (ok ==> effect)
    case RecordCreated => w.pc.Created? && w.lock == Free && w.pc.item < |w.items|
  }

  /** The red verdict, then one retry of the same session or the end of the line. When the message
      call raises, the transaction is rolled back whether or not Devin got the message. */
  function AfterRed(cfg: Config, w: World, i: nat, delivered: bool, ok: bool): World
    requires i < |w.items|
  {
    var it := w.items[i];
    if it.retries >= cfg.maxRetries || it.active == None then
      Commit(w, i, Move(Move(it, ChecksRed), RetriesExhausted))
    else
      var woken := if delivered then Wake(w, it.active.value) else w;
      if !ok then woken
      else Commit(woken, i, Move(Move(it.(retries := it.retries + 1), ChecksRed), RetrySent))
  }

  /** What one polled snapshot does to the item; the rows written before a raised message call are
      rolled back, and a snapshot of a session the item no longer owns is dropped. */
  function AfterPoll(w: World, d: Decision): World
    requires w.pc.Polled?
  {
    var i, snap := w.pc.item, w.pc.snap;
    var idle := w.(pc := Idle);
    if !(i < |w.items| && w.items[i].life.state == SessionActive && w.items[i].active == Some(snap.sid)) then idle
    else if snap.sid !in w.rows then Commit(idle, i, Move(w.items[i], Blocked))
    else
      var seen := idle.(rows := w.rows[snap.sid := w.rows[snap.sid].(acus := snap.acus)]);
      match d
      case KeepPolling => seen
      case SendMessage(delivered, ok) =>
        var kept := if ok then seen else idle;
        if delivered then Wake(kept, snap.sid) else kept
      case Escalate => Commit(seen, i, Move(w.items[i], Blocked))
      case PrReady => Commit(seen, i, Move(Move(w.items[i].(pr := true), PrOpened), ChecksStarted))
  }

  function Next(cfg: Config, w: World, s: Step): World
    requires Enabled(cfg, w, s)
  {
    match s
    case Consume(sid, acus) => w.(remote := w.remote[sid := w.remote[sid].(acus := acus)])
    case GoInactive(sid) => w.(remote := w.remote[sid := w.remote[sid].(active := false)])
    case IngestBegin => w.(lock := HeldByIngest)
    case IngestCommit => w.(lock := Free, runs := w.runs + 1, pending := w.pending + 1)
    case IngestAbort => w.(lock := Free)
    case Crash => w.(pc := Idle, lock := if w.lock == HeldByController then Free else w.lock)
    case ApplyScans(left) => w.(pending := left)
    case NewItem(cap) => w.(items := w.items + [Item(NEW_LIFE, None, 0, 0, cap, false, false)])
    case Observe(i, e) => Commit(w, i, Move(w.items[i], e))
    case RetryByLabel(i) => Commit(w, i, Retried(w.items[i]))
    case Nudge(i, delivered) => if delivered then Wake(w, w.items[i].active.value) else w
    case Red(i, delivered, ok) => AfterRed(cfg, w, i, delivered, ok)
    case PollRead(i) => w.(pc := Polled(i, SnapOf(w, w.items[i].active.value)))
    case PollApply(d) => AfterPoll(w, d)
    case StopCall(i, effect, ok) =>
      var sid := w.items[i].active.value;
      var after := if effect then w.(remote := w.remote[sid := w.remote[sid].(active := false)]) else w;
      if ok then after.(pc := Stopped(i, SnapOf(after, sid))) else after
    case StopRecord =>
      var i, snap := w.pc.item, w.pc.snap;
      if i < |w.items| && snap.sid in w.rows
      then Commit(w.(pc := Idle, rows := w.rows[snap.sid := w.rows[snap.sid].(acus := snap.acus)]),
                  i, Move(w.items[i], OperatorCancelled))
      else w.(pc := Idle)
    case Reserve(i) => Put(w, i, Move(w.items[i], DispatchStarted)).(pc := Reserved(i, false))
    case LaunchBegin(i) => w.(pc := Launching(i, w.runs), lock := HeldByController)
    case LaunchReserve =>
      var i := w.pc.item;
      Put(w, i, Move(MadeReady(w.items[i]), DispatchStarted))
        .(pc := Reserved(i, false), lock := Free, debt := w.debt + ReservedCaps(w.items))
    case LaunchGiveUp(prepared) =>
      var i := w.pc.item;
      Put(w, i, if prepared then MadeReady(w.items[i]) else w.items[i]).(pc := Idle, lock := Free)
    case RecoverBegin(i) => w.(pc := Reserved(i, true))
    case Lookup(ok) =>
      var i := w.pc.item;
      if !ok then w.(pc := LookupFailed(i))
      else (match Choice(w, i, |w.remote|)
            case Some(sid) => w.(pc := Found(i, SnapOf(w, sid)))
            case None => w.(pc := Clear(i, w.pc.recovering)))
    case Adopt => Record(w, w.pc.item, w.pc.snap, SessionAdopted)
    case Fail => Put(w, w.pc.item, DispatchFailure(cfg, w.items[w.pc.item])).(pc := Idle)
    case CreateCall(effect, ok) =>
      var i := w.pc.item;
      var after := if effect then w.(remote := w.remote + [Remote(i, true, 0.0, w.items[i].cap)]) else w;
      after.(pc := if ok then Created(i, SnapOf(after, |w.remote|)) else CreateFailed(i))
    case RecordCreated => Record(w, w.pc.item, w.pc.snap, SessionCreated)
  }

  /** `steps` can be taken one after the other from `w`. */
  predicate IsRun(cfg: Config, w: World, steps: seq<Step>)
    decreases |steps|, 0
  {
    steps == [] ||
    (IsRun(cfg, w, steps[..|steps| - 1]) &&
     Enabled(cfg, After(cfg, w, steps[..|steps| - 1]), steps[|steps| - 1]))
  }

  function After(cfg: Config, w: World, steps: seq<Step>): World
    requires IsRun(cfg, w, steps)
    decreases |steps|, 1
  {
    if steps == [] then w
    else Next(cfg, After(cfg, w, steps[..|steps| - 1]), steps[|steps| - 1])
  }
}
