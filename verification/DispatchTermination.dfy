/** Between inputs from outside, a work item makes boundedly many transitions. */
module DispatchTermination {
  import opened Domain
  import opened StateTables
  import opened Dispatch
  import opened DispatchSafety

  /** A human's decision, a push, a merge or close, or a scan evaluation. */
  predicate IsOutsideEvent(e: WorkItemEvent) {
    e in {DispatchApproved, NewHeadPushed, HumanMerged, PrClosedUnmerged, RescanStarted, RescanVerified,
          RescanShowsPresent, HumanAbandoned, HumanResolved, Superseded}
  }

  predicate IsOutsideInput(w: World, s: Step, i: nat)
    requires i < |w.items|
  {
    (s.Observe? && s.i == i && IsOutsideEvent(s.e)) ||
    (s.RetryByLabel? && s.i == i) ||
    ((s.LaunchReserve? || s.LaunchGiveUp?) && w.pc.Launching? && w.pc.item == i &&
     w.items[i].life.state in {NeedsHuman, Failed})
  }

  function StateRank(s: WorkItemState): nat {
    match s
    case Queued => 11
    case IssueOpen => 10
    case Dispatching => 9
    case SessionActive => 8
    case PrOpen => 7
    case ChecksRunning => 6
    case ReviewPending => 5
    case ReadyForHuman => 4
    case ChecksFailed => 3
    case NeedsHuman => 1
    case Failed => 1
    case _ => 0
  }

  function FailuresLeft(cfg: Config, it: Item): nat {
    if it.failures < cfg.maxFailures then cfg.maxFailures - it.failures else 0
  }

  function RetriesLeft(cfg: Config, it: Item): nat {
    if it.retries < cfg.maxRetries then cfg.maxRetries - it.retries else 0
  }

  /** `n` rounds of retries, the one a fresh failure starts included. */
  function Rounds(cfg: Config, n: nat): nat {
    if n == 0 then 0 else Rounds(cfg, n - 1) + cfg.maxRetries + 1
  }

  /** Remaining dispatch failures, remaining retries and state rank, in lexicographic order. */
  function Potential(cfg: Config, it: Item): nat {
    (Rounds(cfg, FailuresLeft(cfg, it)) + RetriesLeft(cfg, it)) * 12 + StateRank(it.life.state)
  }

  function Moves(it: Item): nat {
    TransitionCount(it.life.log)
  }

  /** Transitions made are paid for by the potential. */
  ghost predicate Pays(cfg: Config, it: Item, after: Item) {
    Moves(after) + Potential(cfg, after) <= Moves(it) + Potential(cfg, it)
  }

  lemma InsideEventDescends(it: Item, e: WorkItemEvent)
    requires Faithful(it.life) && !IsOutsideEvent(e) && e !in {DispatchFailed, RetrySent, HumanRetry}
    ensures Moves(Move(it, e)) + StateRank(Move(it, e).life.state) <= Moves(it) + StateRank(it.life.state)
    ensures Faithful(Move(it, e).life)
  {
    FireIsFaithful(it.life, e);
    BlockingEscalates(it.life.state);
    RankDrops(it.life.state, e);
  }

  lemma RankDrops(s: WorkItemState, e: WorkItemEvent)
    requires !IsOutsideEvent(e) && e !in {DispatchFailed, RetrySent, HumanRetry}
    ensures NextWorkItemState(s, e).Some? ==> StateRank(NextWorkItemState(s, e).value) < StateRank(s)
    ensures NextWorkItemState(s, Blocked).Some? ==> 1 < StateRank(s)
  {
  }

  lemma InsideEventPays(cfg: Config, it: Item, e: WorkItemEvent)
    requires Faithful(it.life) && !IsOutsideEvent(e) && e !in {DispatchFailed, RetrySent, HumanRetry}
    ensures Pays(cfg, it, Move(it, e)) && Faithful(Move(it, e).life)
  {
    InsideEventDescends(it, e);
  }

  /** One failure, or one retry at unchanged failures, is worth at least twelve. */
  lemma CounterStep(cfg: Config, it: Item, after: Item)
    requires
      || (after.failures == it.failures && after.retries == it.retries + 1 <= cfg.maxRetries)
      || (after.failures == it.failures + 1 < cfg.maxFailures && after.retries == it.retries)
    ensures Potential(cfg, after) + 12 + StateRank(it.life.state) <= Potential(cfg, it) + StateRank(after.life.state)
  {
    if after.failures != it.failures {
      assert FailuresLeft(cfg, it) == FailuresLeft(cfg, after) + 1;
    }
  }

  lemma LastFailure(cfg: Config, it: Item)
    requires it.failures + 1 >= cfg.maxFailures
    ensures Potential(cfg, it.(failures := it.failures + 1)) <= Potential(cfg, it)
  {
    assert FailuresLeft(cfg, it.(failures := it.failures + 1)) == 0;
  }

  lemma SurvivedFailure(cfg: Config, it: Item)
    requires Faithful(it.life) && it.life.state == Dispatching && it.failures + 1 < cfg.maxFailures
    ensures Pays(cfg, it, Move(it.(failures := it.failures + 1), DispatchFailed))
  {
    hide Potential, Replay, TransitionCount;
    FireIsFaithful(it.life, DispatchFailed);
    CounterStep(cfg, it, Move(it.(failures := it.failures + 1), DispatchFailed));
  }

  lemma FailurePays(cfg: Config, it: Item)
    requires Faithful(it.life) && it.life.state == Dispatching
    ensures Pays(cfg, it, DispatchFailure(cfg, it))
  {
    hide Potential, Move, Replay, TransitionCount;
    if it.failures + 1 >= cfg.maxFailures {
      LastFailure(cfg, it);
      InsideEventPays(cfg, it.(failures := it.failures + 1), Blocked);
    } else {
      SurvivedFailure(cfg, it);
    }
  }

  lemma RetryCycle(life: Life)
    requires Faithful(life) && life.state in {ChecksRunning, ReviewPending, ReadyForHuman}
    ensures var again := Fire(Fire(life, ChecksRed), RetrySent);
      again.state == SessionActive && TransitionCount(again.log) <= TransitionCount(life.log) + 2
  {
    hide Replay, TransitionCount;
    FireIsFaithful(life, ChecksRed);
    FireIsFaithful(Fire(life, ChecksRed), RetrySent);
  }

  lemma RetryPays(cfg: Config, it: Item)
    requires Faithful(it.life) && it.life.state in {ChecksRunning, ReviewPending, ReadyForHuman} &&
      it.retries < cfg.maxRetries
    ensures Pays(cfg, it, Move(Move(it.(retries := it.retries + 1), ChecksRed), RetrySent))
  {
    hide Fire, TransitionCount;
    RetryCycle(it.life);
    CounterStep(cfg, it, Move(Move(it.(retries := it.retries + 1), ChecksRed), RetrySent));
  }

  lemma TwoMovesPay(cfg: Config, it: Item, first: WorkItemEvent, second: WorkItemEvent)
    requires Faithful(it.life)
    requires !IsOutsideEvent(first) && first !in {DispatchFailed, RetrySent, HumanRetry}
    requires !IsOutsideEvent(second) && second !in {DispatchFailed, RetrySent, HumanRetry}
    ensures Pays(cfg, it, Move(Move(it, first), second))
  {
    InsideEventPays(cfg, it, first);
    InsideEventPays(cfg, Move(it, first), second);
  }

  /** What a red verdict can make of its item. */
  lemma RedMoves(cfg: Config, w: World, i: nat, delivered: bool, ok: bool)
    requires i < |w.items|
    ensures |AfterRed(cfg, w, i, delivered, ok).items| == |w.items|
    ensures var it := w.items[i]; var after := AfterRed(cfg, w, i, delivered, ok).items[i];
      after == it || after == Move(Move(it, ChecksRed), RetriesExhausted) ||
      (it.retries < cfg.maxRetries && after == Move(Move(it.(retries := it.retries + 1), ChecksRed), RetrySent))
  {
  }

  lemma RedMovesPay(cfg: Config, it: Item)
    requires Faithful(it.life) && it.life.state in {ChecksRunning, ReviewPending, ReadyForHuman}
    ensures Pays(cfg, it, it) && Pays(cfg, it, Move(Move(it, ChecksRed), RetriesExhausted))
    ensures it.retries < cfg.maxRetries ==>
      Pays(cfg, it, Move(Move(it.(retries := it.retries + 1), ChecksRed), RetrySent))
  {
    TwoMovesPay(cfg, it, ChecksRed, RetriesExhausted);
    if it.retries < cfg.maxRetries {
      RetryPays(cfg, it);
    }
  }

  lemma RedPays(cfg: Config, w: World, i: nat, delivered: bool, ok: bool)
    requires i < |w.items| && Faithful(w.items[i].life) &&
      w.items[i].life.state in {ChecksRunning, ReviewPending, ReadyForHuman}
    ensures i < |AfterRed(cfg, w, i, delivered, ok).items|
    ensures Pays(cfg, w.items[i], AfterRed(cfg, w, i, delivered, ok).items[i])
  {
    hide AfterRed, Move, Pays;
    RedMoves(cfg, w, i, delivered, ok);
    RedMovesPay(cfg, w.items[i]);
  }

  /** What a poll can make of its item. */
  lemma PollMoves(w: World, d: Decision)
    requires w.pc.Polled? && w.pc.item < |w.items|
    ensures |AfterPoll(w, d).items| == |w.items|
    ensures var it := w.items[w.pc.item];
      AfterPoll(w, d).items[w.pc.item] in
        {it, Move(it, Blocked), Move(Move(it.(pr := true), PrOpened), ChecksStarted)}
  {
  }

  lemma PollMovesPay(cfg: Config, it: Item)
    requires Faithful(it.life)
    ensures Pays(cfg, it, it) && Pays(cfg, it, Move(it, Blocked))
    ensures Pays(cfg, it, Move(Move(it.(pr := true), PrOpened), ChecksStarted))
  {
    InsideEventPays(cfg, it, Blocked);
    TwoMovesPay(cfg, it.(pr := true), PrOpened, ChecksStarted);
  }

  lemma PollPays(cfg: Config, w: World, d: Decision)
    requires Inv(cfg, w) && Enabled(cfg, w, PollApply(d)) && w.pc.item < |w.items|
    ensures w.pc.item < |AfterPoll(w, d).items| && Pays(cfg, w.items[w.pc.item], AfterPoll(w, d).items[w.pc.item])
  {
    assert ItemOk(cfg, w, w.pc.item);
    PollMoves(w, d);
    PollMovesPay(cfg, w.items[w.pc.item]);
  }

  lemma LaunchPays(cfg: Config, w: World, s: Step)
    requires Inv(cfg, w) && Enabled(cfg, w, s) && (s.LaunchReserve? || s.LaunchGiveUp?)
    requires w.items[w.pc.item].life.state !in {NeedsHuman, Failed}
    ensures Pays(cfg, w.items[w.pc.item], Next(cfg, w, s).items[w.pc.item])
  {
    var it := w.items[w.pc.item];
    assert ItemOk(cfg, w, w.pc.item);
    InsideEventPays(cfg, it, IssueCreated);
    InsideEventPays(cfg, MadeReady(it), DispatchStarted);
  }

  lemma ObservePays(cfg: Config, w: World, i: nat, e: WorkItemEvent)
    requires Inv(cfg, w) && Enabled(cfg, w, Observe(i, e)) && !IsOutsideEvent(e)
    ensures Pays(cfg, w.items[i], Next(cfg, w, Observe(i, e)).items[i])
  {
    assert ItemOk(cfg, w, i);
    InsideEventPays(cfg, w.items[i], e);
  }

  lemma ReservePays(cfg: Config, w: World, i: nat)
    requires Inv(cfg, w) && Enabled(cfg, w, Reserve(i))
    ensures Pays(cfg, w.items[i], Next(cfg, w, Reserve(i)).items[i])
  {
    assert ItemOk(cfg, w, i);
    InsideEventPays(cfg, w.items[i], DispatchStarted);
  }

  lemma StopPays(cfg: Config, w: World)
    requires Inv(cfg, w) && Enabled(cfg, w, StopRecord)
    ensures Pays(cfg, w.items[w.pc.item], Next(cfg, w, StopRecord).items[w.pc.item])
  {
    assert ItemOk(cfg, w, w.pc.item);
    InsideEventPays(cfg, w.items[w.pc.item], OperatorCancelled);
  }

  /** Binding to a session, whichever. */
  lemma BindPays(cfg: Config, w: World, i: nat, snap: Snap, e: WorkItemEvent)
    requires i < |w.items| && Faithful(w.items[i].life) && e in {SessionCreated, SessionAdopted}
    ensures Pays(cfg, w.items[i], Record(w, i, snap, e).items[i])
  {
    InsideEventPays(cfg, w.items[i].(active := Some(snap.sid)), e);
  }

  /** The item a step writes, if any. */
  function Target(w: World, s: Step): Option<nat> {
    match s
    case Observe(i, _) => Some(i)
    case RetryByLabel(i) => Some(i)
    case Red(i, _, _) => Some(i)
    case Reserve(i) => Some(i)
    case PollApply(_) => if w.pc.Polled? then Some(w.pc.item) else None
    case StopRecord => if w.pc.Stopped? then Some(w.pc.item) else None
    case LaunchReserve => if w.pc.Launching? then Some(w.pc.item) else None
    case LaunchGiveUp(_) => if w.pc.Launching? then Some(w.pc.item) else None
    case Adopt => if w.pc.Found? then Some(w.pc.item) else None
    case RecordCreated => if w.pc.Created? then Some(w.pc.item) else None
    case Fail =>
      if w.pc.LookupFailed? || w.pc.CreateFailed? || w.pc.Clear? then Some(w.pc.item) else None
    case _ => None
  }

  ghost predicate WritesOnly(before: seq<Item>, after: seq<Item>, i: nat) {
    |after| == |before| && forall j :: 0 <= j < |before| && j != i ==> after[j] == before[j]
  }

  lemma CommitWrites(w: World, i: nat, it: Item)
    requires i < |w.items|
    ensures WritesOnly(w.items, Commit(w, i, it).items, i)
  {
  }

  lemma RedWrites(cfg: Config, w: World, i: nat, delivered: bool, ok: bool)
    requires Enabled(cfg, w, Red(i, delivered, ok))
    ensures WritesOnly(w.items, AfterRed(cfg, w, i, delivered, ok).items, i)
  {
    var it := w.items[i];
    if it.retries >= cfg.maxRetries || it.active == None {
      CommitWrites(w, i, Move(Move(it, ChecksRed), RetriesExhausted));
    } else {
      var woken := if delivered then Wake(w, it.active.value) else w;
      CommitWrites(woken, i, Move(Move(it.(retries := it.retries + 1), ChecksRed), RetrySent));
    }
  }

  lemma PollWrites(w: World, d: Decision)
    requires w.pc.Polled?
    ensures WritesOnly(w.items, AfterPoll(w, d).items, w.pc.item)
  {
    var i, snap := w.pc.item, w.pc.snap;
    var idle := w.(pc := Idle);
    if i < |w.items| {
      var it := w.items[i];
      CommitWrites(idle, i, Move(it, Blocked));
      if snap.sid in w.rows {
        var seen := idle.(rows := w.rows[snap.sid := w.rows[snap.sid].(acus := snap.acus)]);
        CommitWrites(seen, i, Move(it, Blocked));
        CommitWrites(seen, i, Move(Move(it.(pr := true), PrOpened), ChecksStarted));
      }
    }
  }

  lemma WritesOnlyItsTarget(cfg: Config, w: World, s: Step, i: nat)
    requires Inv(cfg, w) && Enabled(cfg, w, s) && i < |w.items| && Target(w, s) != Some(i)
    requires s.Observe? || s.RetryByLabel? || s.Red? || s.PollApply? || s.StopRecord?
    ensures i < |Next(cfg, w, s).items| && Next(cfg, w, s).items[i] == w.items[i]
  {
    match s
    case Observe(j, e) => CommitWrites(w, j, Move(w.items[j], e));
    case RetryByLabel(j) => CommitWrites(w, j, Retried(w.items[j]));
    case Red(j, delivered, ok) => RedWrites(cfg, w, j, delivered, ok);
    case PollApply(d) => PollWrites(w, d);
    case StopRecord =>
      assert ItemOk(cfg, w, w.pc.item);
      var seen := w.(pc := Idle, rows := w.rows[w.pc.snap.sid := w.rows[w.pc.snap.sid].(acus := w.pc.snap.acus)]);
      CommitWrites(seen, w.pc.item, Move(w.items[w.pc.item], OperatorCancelled));
  }

  lemma OthersStay(cfg: Config, w: World, s: Step, i: nat)
    requires Inv(cfg, w) && Enabled(cfg, w, s) && i < |w.items| && Target(w, s) != Some(i)
    ensures i < |Next(cfg, w, s).items| && Next(cfg, w, s).items[i] == w.items[i]
  {
    if s.Observe? || s.RetryByLabel? || s.Red? || s.PollApply? || s.StopRecord? {
      WritesOnlyItsTarget(cfg, w, s, i);
    }
  }

  lemma StayingPays(cfg: Config, it: Item)
    ensures Pays(cfg, it, it)
  {
  }

  lemma DispatchStepPays(cfg: Config, w: World, s: Step, i: nat)
    requires Inv(cfg, w) && Enabled(cfg, w, s) && (s.Fail? || s.Reserve? || s.Adopt? || s.RecordCreated?)
    requires i < |w.items| && Target(w, s) == Some(i)
    ensures i < |Next(cfg, w, s).items| && Pays(cfg, w.items[i], Next(cfg, w, s).items[i])
  {
    hide Pays, Fire;
    assert ItemOk(cfg, w, i);
    if s.Fail? {
      FailurePays(cfg, w.items[i]);
    } else if s.Reserve? {
      ReservePays(cfg, w, i);
    } else {
      BindPays(cfg, w, i, w.pc.snap, if s.Adopt? then SessionAdopted else SessionCreated);
    }
  }

  lemma StepPays(cfg: Config, w: World, s: Step, i: nat)
    requires Inv(cfg, w) && Enabled(cfg, w, s) && i < |w.items| && !IsOutsideInput(w, s, i)
    ensures i < |Next(cfg, w, s).items| && Pays(cfg, w.items[i], Next(cfg, w, s).items[i])
  {
    hide Pays, Fire;
    StayingPays(cfg, w.items[i]);
    if Target(w, s) != Some(i) {
      OthersStay(cfg, w, s, i);
    } else if s.Red? {
      assert ItemOk(cfg, w, i);
      RedPays(cfg, w, i, s.delivered, s.ok);
    } else if s.PollApply? {
      PollPays(cfg, w, s.decision);
    } else if s.LaunchReserve? || s.LaunchGiveUp? {
      LaunchPays(cfg, w, s);
    } else if s.Observe? {
      ObservePays(cfg, w, i, s.e);
    } else if s.StopRecord? {
      StopPays(cfg, w);
    } else {
      DispatchStepPays(cfg, w, s, i);
    }
  }

  /** No step of the run is an outside input for item `i`. */
  ghost predicate Undisturbed(cfg: Config, w: World, steps: seq<Step>, i: nat)
    requires IsRun(cfg, w, steps)
  {
    steps == [] ||
    (Undisturbed(cfg, w, steps[..|steps| - 1], i) &&
     var before := After(cfg, w, steps[..|steps| - 1]);
     i < |before.items| && !IsOutsideInput(before, steps[|steps| - 1], i))
  }

  /** From any reachable state, a run of any length without outside input to the item adds at most
      `Potential` transitions to its log. */
  lemma {:induction false} BoundedlyManyTransitions(cfg: Config, w: World, steps: seq<Step>, i: nat)
    requires Inv(cfg, w) && IsRun(cfg, w, steps) && i < |w.items| && Undisturbed(cfg, w, steps, i)
    ensures i < |After(cfg, w, steps).items|
    ensures Moves(After(cfg, w, steps).items[i]) + Potential(cfg, After(cfg, w, steps).items[i]) <=
      Moves(w.items[i]) + Potential(cfg, w.items[i])
  {
    if steps != [] {
      var before := After(cfg, w, steps[..|steps| - 1]);
      BoundedlyManyTransitions(cfg, w, steps[..|steps| - 1], i);
      RunKeeps(cfg, w, steps[..|steps| - 1]);
      StepPays(cfg, before, steps[|steps| - 1], i);
    }
  }

  // ---------------------------------------------------------------- the end of an item

  /** No step moves an item that is verified or abandoned, and none binds it again. */
  lemma TerminalItemStays(cfg: Config, w: World, s: Step, i: nat)
    requires Inv(cfg, w) && Enabled(cfg, w, s) && i < |w.items| && w.items[i].life.state in {Verified, Abandoned}
    ensures i < |Next(cfg, w, s).items| && Next(cfg, w, s).items[i].life.state == w.items[i].life.state
    ensures Next(cfg, w, s).items[i].active == w.items[i].active
  {
    if Target(w, s) != Some(i) {
      OthersStay(cfg, w, s, i);
    } else {
      assert ItemOk(cfg, w, i);
      TargetIsAlive(cfg, w, s, i);
      BlockingEscalates(w.items[i].life.state);
    }
  }

  /** Only an observation is addressed to items without asking for their state. */
  lemma TargetIsAlive(cfg: Config, w: World, s: Step, i: nat)
    requires Inv(cfg, w) && Enabled(cfg, w, s) && Target(w, s) == Some(i) && i < |w.items|
    requires w.items[i].life.state in {Verified, Abandoned}
    ensures s.Observe? || (s.PollApply? && AfterPoll(w, s.decision).items == w.items)
  {
    hide DataOk, Move, Commit;
  }

  /** Over every run, whatever happens elsewhere: once verified or abandoned, an item stays so. */
  lemma {:induction false} TerminalItemsStay(cfg: Config, w: World, steps: seq<Step>, i: nat)
    requires Inv(cfg, w) && IsRun(cfg, w, steps) && i < |w.items| && w.items[i].life.state in {Verified, Abandoned}
    ensures i < |After(cfg, w, steps).items| && After(cfg, w, steps).items[i].life.state == w.items[i].life.state
    ensures After(cfg, w, steps).items[i].active == w.items[i].active
  {
    if steps != [] {
      TerminalItemsStay(cfg, w, steps[..|steps| - 1], i);
      RunKeeps(cfg, w, steps[..|steps| - 1]);
      TerminalItemStays(cfg, After(cfg, w, steps[..|steps| - 1]), steps[|steps| - 1], i);
    }
  }
}
