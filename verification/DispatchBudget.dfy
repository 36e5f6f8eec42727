/** ACU conservation and session capacity over every run of the dispatch protocol. */
module DispatchBudget {
  import opened Domain
  import opened StateTables
  import opened Dispatch
  import opened DispatchSafety

  // ---------------------------------------------------------------- sums

  lemma {:induction false} CommittedExceptOne(
      a: seq<Item>, ra: map<nat, Row>, b: seq<Item>, rb: map<nat, Row>, n: nat, k: nat)
    requires forall s: nat :: s < n && s != k ==> Share(a, ra, s) == Share(b, rb, s)
    ensures Committed(b, rb, n) - Committed(a, ra, n) == if k < n then Share(b, rb, k) - Share(a, ra, k) else 0.0
  {
    if n > 0 {
      CommittedExceptOne(a, ra, b, rb, n - 1, k);
    }
  }

  lemma {:induction false} CountsAfterPut(items: seq<Item>, i: nat, it: Item)
    requires i < |items|
    ensures ActiveCount(items[i := it]) - ActiveCount(items) ==
      (if IsActive(it.life.state) then 1 else 0) - (if IsActive(items[i].life.state) then 1 else 0)
    ensures ReservedCaps(items[i := it]) - ReservedCaps(items) ==
      (if it.life.state == Dispatching then it.cap else 0.0) -
      (if items[i].life.state == Dispatching then items[i].cap else 0.0)
  {
    var n := |items| - 1;
    if i == n {
      assert items[i := it][..n] == items[..n];
    } else {
      assert items[i := it][..n] == items[..n][i := it];
      CountsAfterPut(items[..n], i, it);
    }
  }

  lemma {:induction false} NoReservation(items: seq<Item>)
    requires NoneDispatching(items)
    ensures ReservedCaps(items) == 0.0
  {
    if items != [] {
      NoReservation(items[..|items| - 1]);
    }
  }

  lemma {:induction false} ReservationsArePositive(items: seq<Item>)
    requires forall i :: 0 <= i < |items| ==> items[i].cap > 0.0
    ensures ReservedCaps(items) >= 0.0
  {
    if items != [] {
      ReservationsArePositive(items[..|items| - 1]);
    }
  }

  // ---------------------------------------------------------------- one item, one session

  /** What `it` holds of the budget beyond what its session consumed. */
  function Hold(rows: map<nat, Row>, it: Item): real {
    if IsActive(it.life.state) && it.active.Some? && it.active.value in rows
    then Positive(rows[it.active.value].cap - rows[it.active.value].acus) else 0.0
  }

  /** Moving one item changes the committed ACUs by what it holds afterwards less what it held. */
  lemma PutCommitted(cfg: Config, w: World, i: nat, it: Item)
    requires DataOk(cfg, w) && i < |w.items|
    requires it.active == w.items[i].active || (it.active == None && !IsActive(w.items[i].life.state))
    ensures CommittedIn(Put(w, i, it)) == CommittedIn(w) + Hold(w.rows, it) - Hold(w.rows, w.items[i])
    ensures CommittedIn(Commit(w, i, it)) == CommittedIn(Put(w, i, it))
  {
    assert ItemOk(cfg, w, i);
    var v := Put(w, i, it);
    var k := if w.items[i].active.Some? then w.items[i].active.value else |w.remote|;
    forall s: nat | s < |w.remote| && s != k ensures Share(w.items, w.rows, s) == Share(v.items, v.rows, s) {
    }
    CommittedExceptOne(w.items, w.rows, v.items, v.rows, |w.remote|, k);
  }

  /** Polling or stopping the session of an active item moves ACUs from outstanding to consumed and
      leaves their sum as it was. */
  lemma MeterConserves(cfg: Config, w: World, i: nat, snap: Snap)
    requires DataOk(cfg, w) && Binds(w.items, i, snap.sid) && Earlier(w, snap, i) && snap.sid in w.rows
    ensures CommittedIn(w.(rows := w.rows[snap.sid := w.rows[snap.sid].(acus := snap.acus)])) == CommittedIn(w)
  {
    assert ItemOk(cfg, w, i);
    var v := w.(rows := w.rows[snap.sid := w.rows[snap.sid].(acus := snap.acus)]);
    CommittedExceptOne(w.items, w.rows, v.items, v.rows, |w.remote|, snap.sid);
  }

  lemma RecordCommitted(cfg: Config, w: World, i: nat, snap: Snap, e: WorkItemEvent)
    requires DataOk(cfg, w) && AtDispatch(w, i) && Earlier(w, snap, i) && e in {SessionCreated, SessionAdopted}
    ensures CommittedIn(Record(w, i, snap, e)) <= CommittedIn(w) + w.items[i].cap
  {
    assert ItemOk(cfg, w, i);
    var v := Record(w, i, snap, e);
    forall s: nat | s < |w.remote| && s != snap.sid ensures Share(w.items, w.rows, s) == Share(v.items, v.rows, s) {
    }
    CommittedExceptOne(w.items, w.rows, v.items, v.rows, |w.remote|, snap.sid);
  }

  // ---------------------------------------------------------------- the invariant

  ghost predicate WithinBudget(cfg: Config, w: World) {
    CommittedIn(w) + ReservedCaps(w.items) <= cfg.budget + w.debt && w.debt >= 0.0
  }

  ghost predicate WithinCapacity(cfg: Config, w: World) {
    ActiveCount(w.items) <= cfg.maxSessions + w.reentries
  }

  ghost predicate Bounded(cfg: Config, w: World) {
    WithinBudget(cfg, w) && WithinCapacity(cfg, w)
  }

  /** The step leaves the committed ACUs, the reservations and the number of active items no higher
      than they were, up to what it adds to the two history counters. */
  ghost predicate NoHigher(w: World, v: World) {
    CommittedIn(v) + ReservedCaps(v.items) <= CommittedIn(w) + ReservedCaps(w.items) + v.debt - w.debt &&
    ActiveCount(v.items) <= ActiveCount(w.items) + v.reentries - w.reentries &&
    v.debt >= w.debt
  }

  lemma CommitNoHigher(cfg: Config, w: World, i: nat, it: Item)
    requires DataOk(cfg, w) && i < |w.items|
    requires it.active == w.items[i].active || (it.active == None && !IsActive(w.items[i].life.state))
    requires it.life.state != Dispatching
    ensures NoHigher(w, Commit(w, i, it))
  {
    assert ItemOk(cfg, w, i);
    PutCommitted(cfg, w, i, it);
    CountsAfterPut(w.items, i, it);
  }

  lemma MoveIsNoReservation(it: Item, e: WorkItemEvent)
    requires e != DispatchStarted &&
      (it.life.state != Dispatching || e in {DispatchFailed, Blocked, SessionCreated, SessionAdopted})
    ensures Move(it, e).life.state != Dispatching && Move(it, e).active == it.active && Move(it, e).cap == it.cap
  {
    BlockingEscalates(it.life.state);
  }

  lemma WokenNoHigher(cfg: Config, w: World, i: nat, delivered: bool, after: Item)
    requires DataOk(cfg, w) && i < |w.items| && after.active == w.items[i].active && after.life.state != Dispatching
    requires delivered ==> w.items[i].active.Some?
    ensures var woken := if delivered then Wake(w, w.items[i].active.value) else w;
      NoHigher(w, woken) && NoHigher(w, Commit(woken, i, after))
  {
    if delivered {
      WakeKeepsData(cfg, w, i);
      CommitNoHigher(cfg, Wake(w, w.items[i].active.value), i, after);
    } else {
      CommitNoHigher(cfg, w, i, after);
    }
  }

  lemma TwoMovesReserveNothing(it: Item, first: WorkItemEvent, second: WorkItemEvent)
    requires it.life.state != Dispatching && first != DispatchStarted && second != DispatchStarted
    ensures var after := Move(Move(it, first), second);
      after.life.state != Dispatching && after.active == it.active && after.cap == it.cap
  {
    MoveIsNoReservation(it, first);
    MoveIsNoReservation(Move(it, first), second);
  }

  lemma RedNoHigher(cfg: Config, w: World, i: nat, delivered: bool, ok: bool)
    requires Inv(cfg, w) && Enabled(cfg, w, Red(i, delivered, ok))
    ensures NoHigher(w, AfterRed(cfg, w, i, delivered, ok))
  {
    hide AfterRed, Move, Commit, NoHigher, ItemOk, PcOk;
    var it := w.items[i];
    RedLeads(cfg, w, i, delivered, ok);
    if it.retries >= cfg.maxRetries || it.active == None {
      TwoMovesReserveNothing(it, ChecksRed, RetriesExhausted);
      WokenNoHigher(cfg, w, i, false, Move(Move(it, ChecksRed), RetriesExhausted));
    } else {
      var counted := it.(retries := it.retries + 1);
      TwoMovesReserveNothing(counted, ChecksRed, RetrySent);
      WokenNoHigher(cfg, w, i, delivered, Move(Move(counted, ChecksRed), RetrySent));
    }
  }

  lemma SeenNoHigher(cfg: Config, w: World, i: nat, snap: Snap, after: Item)
    requires DataOk(cfg, w) && Binds(w.items, i, snap.sid) && Earlier(w, snap, i) && snap.sid in w.rows
    requires after.active == w.items[i].active && after.life.state != Dispatching
    ensures var seen := w.(rows := w.rows[snap.sid := w.rows[snap.sid].(acus := snap.acus)]);
      NoHigher(w, seen) && NoHigher(w, Commit(seen, i, after))
  {
    hide Commit, ActiveCount, ReservedCaps, Committed;
    assert ItemOk(cfg, w, i);
    MeterConserves(cfg, w, i, snap);
    MeterKeepsData(cfg, w, snap);
    CommitNoHigher(cfg, w.(rows := w.rows[snap.sid := w.rows[snap.sid].(acus := snap.acus)]), i, after);
  }

  /** The tables a poll can commit for the session of a working item. */
  lemma PolledNoHigher(cfg: Config, w: World, i: nat, snap: Snap)
    requires DataOk(cfg, w) && i < |w.items| && Earlier(w, snap, i)
    requires w.items[i].life.state == SessionActive && w.items[i].active == Some(snap.sid)
    ensures snap.sid in w.rows
    ensures var it := w.items[i];
      var seen := w.(rows := w.rows[snap.sid := w.rows[snap.sid].(acus := snap.acus)]);
      NoHigher(w, seen) && NoHigher(w, Commit(seen, i, Move(it, Blocked))) &&
      NoHigher(w, Commit(seen, i, Move(Move(it.(pr := true), PrOpened), ChecksStarted)))
  {
    hide Move, Commit, NoHigher, Earlier;
    assert ItemOk(cfg, w, i);
    var it := w.items[i];
    MoveIsNoReservation(it, Blocked);
    SeenNoHigher(cfg, w, i, snap, Move(it, Blocked));
    TwoMovesReserveNothing(it.(pr := true), PrOpened, ChecksStarted);
    SeenNoHigher(cfg, w, i, snap, Move(Move(it.(pr := true), PrOpened), ChecksStarted));
  }

  lemma PollNoHigher(cfg: Config, w: World, d: Decision)
    requires Inv(cfg, w) && Enabled(cfg, w, PollApply(d))
    ensures NoHigher(w, AfterPoll(w, d))
  {
    hide Move, Commit, ActiveCount, ReservedCaps, Committed;
    var i, snap := w.pc.item, w.pc.snap;
    var idle := w.(pc := Idle);
    SameData(cfg, w, idle);
    assert ItemOk(cfg, w, i);
    if w.items[i].life.state == SessionActive && w.items[i].active == Some(snap.sid) {
      PolledNoHigher(cfg, idle, i, snap);
    }
  }

  lemma StopRecordNoHigher(cfg: Config, w: World)
    requires Inv(cfg, w) && Enabled(cfg, w, StopRecord)
    ensures NoHigher(w, Next(cfg, w, StopRecord))
  {
    var i, snap := w.pc.item, w.pc.snap;
    var idle := w.(pc := Idle);
    SameData(cfg, w, idle);
    assert ItemOk(cfg, w, i);
    var seen := idle.(rows := w.rows[snap.sid := w.rows[snap.sid].(acus := snap.acus)]);
    MeterConserves(cfg, idle, i, snap);
    MeterKeepsData(cfg, idle, snap);
    MoveIsNoReservation(w.items[i], OperatorCancelled);
    CommitNoHigher(cfg, seen, i, Move(w.items[i], OperatorCancelled));
  }

  lemma BindNoHigher(cfg: Config, w: World, s: Step)
    requires Inv(cfg, w) && Enabled(cfg, w, s) && (s.Adopt? || s.RecordCreated?)
    ensures NoHigher(w, Next(cfg, w, s))
  {
    hide Committed, ReservedCaps, ActiveCount;
    var e := if s.Adopt? then SessionAdopted else SessionCreated;
    RecordCommitted(cfg, w, w.pc.item, w.pc.snap, e);
    CountsAfterPut(w.items, w.pc.item, Move(w.items[w.pc.item].(active := Some(w.pc.snap.sid)), e));
  }

  lemma FreeingNoHigher(cfg: Config, w: World, i: nat, it: Item)
    requires DataOk(cfg, w) && AtDispatch(w, i)
    requires it.active == w.items[i].active && it.cap == w.items[i].cap && !IsActive(it.life.state)
    ensures NoHigher(w, Put(w, i, it).(pc := Idle))
  {
    assert ItemOk(cfg, w, i);
    PutCommitted(cfg, w, i, it);
    CountsAfterPut(w.items, i, it);
  }

  lemma FailureFrees(cfg: Config, it: Item)
    requires it.life.state == Dispatching
    ensures DispatchFailure(cfg, it).life.state in {IssueOpen, NeedsHuman}
    ensures DispatchFailure(cfg, it).active == it.active && DispatchFailure(cfg, it).cap == it.cap
  {
  }

  lemma FailNoHigher(cfg: Config, w: World)
    requires Inv(cfg, w) && Enabled(cfg, w, Fail)
    ensures NoHigher(w, Next(cfg, w, Fail))
  {
    var i := w.pc.item;
    assert ItemOk(cfg, w, i);
    FailureFrees(cfg, w.items[i]);
    FreeingNoHigher(cfg, w, i, DispatchFailure(cfg, w.items[i]));
  }

  lemma LaunchGiveUpNoHigher(cfg: Config, w: World, prepared: bool)
    requires Inv(cfg, w) && Enabled(cfg, w, LaunchGiveUp(prepared))
    ensures NoHigher(w, Next(cfg, w, LaunchGiveUp(prepared)))
  {
    hide Committed, ReservedCaps, ActiveCount;
    var i := w.pc.item;
    assert ItemOk(cfg, w, i);
    MadeReadyKeeps(cfg, w, i);
    var it := if prepared then MadeReady(w.items[i]) else w.items[i];
    PutCommitted(cfg, w, i, it);
    CountsAfterPut(w.items, i, it);
  }

  lemma CreateNoHigher(cfg: Config, w: World, effect: bool, ok: bool)
    requires Inv(cfg, w) && Enabled(cfg, w, CreateCall(effect, ok))
    ensures NoHigher(w, Next(cfg, w, CreateCall(effect, ok)))
  {
    assert |w.remote| !in w.rows;
  }

  lemma ObserveNoHigher(cfg: Config, w: World, s: Step)
    requires Inv(cfg, w) && Enabled(cfg, w, s) && (s.Observe? || s.RetryByLabel?)
    ensures NoHigher(w, Next(cfg, w, s))
  {
    if s.Observe? {
      MoveIsNoReservation(w.items[s.i], s.e);
      CommitNoHigher(cfg, w, s.i, Move(w.items[s.i], s.e));
    } else {
      MoveIsNoReservation(w.items[s.i].(retries := 0, active := None), HumanRetry);
      CommitNoHigher(cfg, w, s.i, Retried(w.items[s.i]));
    }
  }

  lemma {:induction false} CommittedWithNewItem(w: World, n: nat, it: Item)
    requires !IsActive(it.life.state)
    ensures Committed(w.items + [it], w.rows, n) == Committed(w.items, w.rows, n)
  {
    if n > 0 {
      CommittedWithNewItem(w, n - 1, it);
    }
  }

  lemma CountsWithNewItem(items: seq<Item>, it: Item)
    requires !IsActive(it.life.state)
    ensures ActiveCount(items + [it]) == ActiveCount(items) && ReservedCaps(items + [it]) == ReservedCaps(items)
  {
    assert (items + [it])[..|items|] == items;
  }

  lemma NewItemNoHigher(cfg: Config, w: World, cap: real)
    requires Inv(cfg, w) && Enabled(cfg, w, NewItem(cap))
    ensures NoHigher(w, Next(cfg, w, NewItem(cap)))
  {
    var it := Item(NEW_LIFE, None, 0, 0, cap, false, false);
    CommittedWithNewItem(w, |w.remote|, it);
    CountsWithNewItem(w.items, it);
  }

  /** An inactive item enters `dispatching` as `ready`. */
  lemma AdmittedFigures(cfg: Config, w: World, i: nat, ready: Item)
    requires DataOk(cfg, w) && i < |w.items| && !IsActive(w.items[i].life.state)
    requires ready.life.state == IssueOpen && ready.active == None && ready.cap == w.items[i].cap
    ensures var v := Put(w, i, Move(ready, DispatchStarted));
      ActiveCount(v.items) == ActiveCount(w.items) + 1 && CommittedIn(v) == CommittedIn(w) &&
      ReservedCaps(v.items) == ReservedCaps(w.items) + w.items[i].cap && ReservedCaps(w.items) >= 0.0
  {
    hide Committed, ReservedCaps, ActiveCount, ItemOk;
    var it := Move(ready, DispatchStarted);
    assert it.life.state == Dispatching && it.active == None && it.cap == ready.cap;
    PutCommitted(cfg, w, i, it);
    CountsAfterPut(w.items, i, it);
    forall j | 0 <= j < |w.items| ensures w.items[j].cap > 0.0 {
      assert ItemOk(cfg, w, j);
      CapIsPositive(cfg, w, j);
    }
    ReservationsArePositive(w.items);
  }

  lemma CapIsPositive(cfg: Config, w: World, i: nat)
    requires i < |w.items| && ItemOk(cfg, w, i)
    ensures w.items[i].cap > 0.0
  {
  }

  /** Admission is what may raise the figures, and only to the configured limits: the committed ACUs
      include the new reservation, and reservations other items still hold are booked as debt. */
  lemma AdmissionIsBounded(cfg: Config, w: World, s: Step)
    requires Inv(cfg, w) && Bounded(cfg, w) && Enabled(cfg, w, s) && (s.Reserve? || s.LaunchReserve?)
    ensures Bounded(cfg, Next(cfg, w, s))
    ensures ActiveCount(Next(cfg, w, s).items) <= cfg.maxSessions
    ensures s.Reserve? ==> CommittedIn(Next(cfg, w, s)) + ReservedCaps(Next(cfg, w, s).items) <= cfg.budget
  {
    hide Committed, ReservedCaps, ActiveCount, ItemOk, Move, MadeReady;
    if s.Reserve? {
      UnboundItem(cfg, w, s.i);
      AdmittedFigures(cfg, w, s.i, w.items[s.i]);
      NoReservation(w.items);
    } else {
      MadeReadyKeeps(cfg, w, w.pc.item);
      AdmittedFigures(cfg, w, w.pc.item, MadeReady(w.items[w.pc.item]));
    }
  }

  lemma UnboundItem(cfg: Config, w: World, i: nat)
    requires DataOk(cfg, w) && i < |w.items| && w.items[i].life.state == IssueOpen
    ensures w.items[i].active == None
  {
    assert ItemOk(cfg, w, i);
  }

  /** Everything else leaves the tables' ACU figures and states alone. */
  lemma QuietNoHigher(cfg: Config, w: World, s: Step)
    requires Inv(cfg, w) && Enabled(cfg, w, s)
    requires s.Consume? || s.GoInactive? || s.IngestBegin? || s.IngestCommit? || s.IngestAbort? || s.ApplyScans? ||
      s.Nudge? || s.PollRead? || s.StopCall? || s.LaunchBegin? || s.RecoverBegin? || s.Lookup? || s.Crash?
    ensures NoHigher(w, Next(cfg, w, s))
  {
    hide ReservedCaps, ActiveCount, DataOk, Choice;
  }

  lemma WorkStepNoHigher(cfg: Config, w: World, s: Step)
    requires Inv(cfg, w) && Enabled(cfg, w, s)
    requires s.NewItem? || s.Observe? || s.RetryByLabel? || s.Red? || s.PollApply? || s.StopRecord?
    ensures NoHigher(w, Next(cfg, w, s))
  {
    match s
    case NewItem(cap) => NewItemNoHigher(cfg, w, cap);
    case Observe(_, _) => ObserveNoHigher(cfg, w, s);
    case RetryByLabel(_) => ObserveNoHigher(cfg, w, s);
    case Red(i, delivered, ok) => RedNoHigher(cfg, w, i, delivered, ok);
    case PollApply(d) => PollNoHigher(cfg, w, d);
    case StopRecord => StopRecordNoHigher(cfg, w);
  }

  /** No step but an admission raises the figures. */
  lemma OnlyAdmissionRaises(cfg: Config, w: World, s: Step)
    requires Inv(cfg, w) && Enabled(cfg, w, s) && !s.Reserve? && !s.LaunchReserve?
    ensures NoHigher(w, Next(cfg, w, s))
  {
    if s.NewItem? || s.Observe? || s.RetryByLabel? || s.Red? || s.PollApply? || s.StopRecord? {
      WorkStepNoHigher(cfg, w, s);
    } else if s.LaunchGiveUp? {
      LaunchGiveUpNoHigher(cfg, w, s.prepared);
    } else if s.Adopt? || s.RecordCreated? {
      BindNoHigher(cfg, w, s);
    } else if s.Fail? {
      FailNoHigher(cfg, w);
    } else if s.CreateCall? {
      CreateNoHigher(cfg, w, s.effect, s.ok);
    } else {
      QuietNoHigher(cfg, w, s);
    }
  }

  lemma StepIsBounded(cfg: Config, w: World, v: World, s: Step)
    requires Inv(cfg, w) && Bounded(cfg, w) && Enabled(cfg, w, s) && v == Next(cfg, w, s)
    ensures Bounded(cfg, v)
  {
    if s.Reserve? || s.LaunchReserve? {
      AdmissionIsBounded(cfg, w, s);
    } else {
      OnlyAdmissionRaises(cfg, w, s);
    }
  }

  /** In every reachable state the ACUs consumed, outstanding and reserved stay within the global
      budget plus the booked debt, and the active items within the session limit plus the number of
      re-entries. */
  lemma {:induction false} RunIsBounded(cfg: Config, steps: seq<Step>)
    requires cfg.budget >= 0.0 && IsRun(cfg, START, steps)
    ensures Inv(cfg, After(cfg, START, steps)) && Bounded(cfg, After(cfg, START, steps))
  {
    if steps != [] {
      var w := After(cfg, START, steps[..|steps| - 1]);
      RunIsBounded(cfg, steps[..|steps| - 1]);
      NextKeeps(cfg, w, steps[|steps| - 1]);
      StepIsBounded(cfg, w, After(cfg, START, steps), steps[|steps| - 1]);
    }
  }

  // ---------------------------------------------------------------- where debt comes from

  /** An item comes back from `ready_for_human` without an admission check: a push is seen, or a red head is
      sent back to its session while retries last. */
  predicate Reenters(cfg: Config, w: World, s: Step) {
    match s
    case Observe(i, e) => i < |w.items| && w.items[i].life.state == ReadyForHuman && e == NewHeadPushed
    case Red(i, _, ok) =>
      i < |w.items| && w.items[i].life.state == ReadyForHuman && ok && w.items[i].retries < cfg.maxRetries &&
      w.items[i].active.Some?
    case _ => false
  }

  /** A step that books debt: a launch while another item is stuck in `dispatching`, or a re-entry. */
  predicate Books(cfg: Config, w: World, s: Step) {
    (s.LaunchReserve? && !NoneDispatching(w.items)) || Reenters(cfg, w, s)
  }

  lemma ReentryIsFromReady(it: Item, e: WorkItemEvent)
    requires !IsActive(it.life.state) && IsActive(Move(it, e).life.state) && Observable(e)
    ensures it.life.state == ReadyForHuman && e == NewHeadPushed
  {
    BlockingEscalates(it.life.state);
  }

  lemma RedKeepsCounters(cfg: Config, w: World, s: Step)
    requires Inv(cfg, w) && Enabled(cfg, w, s) && s.Red? && !Books(cfg, w, s)
    ensures Next(cfg, w, s).debt == w.debt && Next(cfg, w, s).reentries == w.reentries
  {
  }

  lemma ObserveKeepsCounters(cfg: Config, w: World, i: nat, e: WorkItemEvent)
    requires Enabled(cfg, w, Observe(i, e)) && !Books(cfg, w, Observe(i, e))
    ensures Next(cfg, w, Observe(i, e)).debt == w.debt && Next(cfg, w, Observe(i, e)).reentries == w.reentries
  {
    hide Fire;
    if !IsActive(w.items[i].life.state) && IsActive(Move(w.items[i], e).life.state) {
      ReentryIsFromReady(w.items[i], e);
    }
  }

  lemma PollKeepsCounters(cfg: Config, w: World, d: Decision)
    requires Inv(cfg, w) && Enabled(cfg, w, PollApply(d))
    ensures Next(cfg, w, PollApply(d)).debt == w.debt && Next(cfg, w, PollApply(d)).reentries == w.reentries
  {
    hide Move, Inv;
  }

  lemma StopKeepsCounters(cfg: Config, w: World)
    requires Inv(cfg, w) && Enabled(cfg, w, StopRecord)
    ensures Next(cfg, w, StopRecord).debt == w.debt && Next(cfg, w, StopRecord).reentries == w.reentries
  {
    hide Move, DataOk;
  }

  lemma OthersKeepCounters(cfg: Config, w: World, s: Step)
    requires Enabled(cfg, w, s)
    requires !s.LaunchReserve? && !s.Observe? && !s.RetryByLabel? && !s.Red? && !s.PollApply? && !s.StopRecord?
    ensures Next(cfg, w, s).debt == w.debt && Next(cfg, w, s).reentries == w.reentries
  {
    hide Move, Choice;
  }

  lemma LaunchKeepsCounters(cfg: Config, w: World)
    requires Enabled(cfg, w, LaunchReserve) && !Books(cfg, w, LaunchReserve)
    ensures Next(cfg, w, LaunchReserve).debt == w.debt && Next(cfg, w, LaunchReserve).reentries == w.reentries
  {
    hide Move, MadeReady;
    NoReservation(w.items);
  }

  lemma RetryKeepsCounters(cfg: Config, w: World, i: nat)
    requires Enabled(cfg, w, RetryByLabel(i))
    ensures Next(cfg, w, RetryByLabel(i)).debt == w.debt && Next(cfg, w, RetryByLabel(i)).reentries == w.reentries
  {
  }

  lemma NothingBooked(cfg: Config, w: World, s: Step)
    requires Inv(cfg, w) && Enabled(cfg, w, s) && !Books(cfg, w, s)
    ensures Next(cfg, w, s).debt == w.debt && Next(cfg, w, s).reentries == w.reentries
  {
    hide Next, Enabled, Books, Inv;
    match s
    case LaunchReserve => LaunchKeepsCounters(cfg, w);
    case Observe(i, e) => ObserveKeepsCounters(cfg, w, i, e);
    case RetryByLabel(i) => RetryKeepsCounters(cfg, w, i);
    case Red(_, _, _) => RedKeepsCounters(cfg, w, s);
    case PollApply(d) => PollKeepsCounters(cfg, w, d);
    case StopRecord => StopKeepsCounters(cfg, w);
    case _ => OthersKeepCounters(cfg, w, s);
  }

  ghost predicate BooksNothing(cfg: Config, steps: seq<Step>)
    requires IsRun(cfg, START, steps)
  {
    steps == [] ||
    (BooksNothing(cfg, steps[..|steps| - 1]) &&
     !Books(cfg, After(cfg, START, steps[..|steps| - 1]), steps[|steps| - 1]))
  }

  /** Without a re-entry from `ready_for_human` and without a launch beside a stuck dispatch, the
      global budget and the session limit hold in every reachable state. */
  lemma {:induction false} BudgetHolds(cfg: Config, steps: seq<Step>)
    requires cfg.budget >= 0.0 && IsRun(cfg, START, steps) && BooksNothing(cfg, steps)
    ensures var w := After(cfg, START, steps);
      w.debt == 0.0 && w.reentries == 0 &&
      CommittedIn(w) + ReservedCaps(w.items) <= cfg.budget && ActiveCount(w.items) <= cfg.maxSessions
  {
    RunIsBounded(cfg, steps);
    if steps != [] {
      BudgetHolds(cfg, steps[..|steps| - 1]);
      RunIsBounded(cfg, steps[..|steps| - 1]);
      NothingBooked(cfg, After(cfg, START, steps[..|steps| - 1]), steps[|steps| - 1]);
    }
  }
}
