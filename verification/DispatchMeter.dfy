/** What Devin's own meter can have run up, and a run in which the controller's limits are exceeded. */
module DispatchMeter {
  import opened Domain
  import opened StateTables
  import opened Dispatch
  import opened DispatchSafety
  import opened DispatchBudget
  import opened DispatchLimits

  // ---------------------------------------------------------------- Devin's meter

  /** ACUs Devin metered over the first `n` sessions. */
  function Metered(remote: seq<Remote>, n: nat): real
    requires n <= |remote|
  {
    if n == 0 then 0.0 else Metered(remote, n - 1) + remote[n - 1].acus
  }

  /** The most session `s` can ever meter unless it is woken again. */
  function Reach(w: World, s: nat): real
    requires s < |w.remote|
  {
    if w.remote[s].active then w.remote[s].cap else w.remote[s].acus
  }

  predicate IsReserved(w: World, s: nat)
    requires s < |w.remote|
  {
    s !in w.rows && w.remote[s].tag < |w.items| && w.items[w.remote[s].tag].life.state == Dispatching
  }

  /** What session `s` spent or may spend beyond what the controller accounts for: nothing while an active
      item is bound to it or its item is being dispatched. */
  function Unseen(w: World, s: nat): real
    requires s < |w.remote|
  {
    if s in w.rows then (if Binds(w.items, w.rows[s].item, s) then 0.0 else Reach(w, s) - w.rows[s].acus)
    else if IsReserved(w, s) then 0.0
    else Reach(w, s)
  }

  function UnseenBelow(w: World, n: nat): real
    requires n <= |w.remote|
  {
    if n == 0 then 0.0 else UnseenBelow(w, n - 1) + Unseen(w, n - 1)
  }

  /** Caps of unrecorded sessions whose items, below `m`, are being dispatched. */
  function ReservedBelow(w: World, n: nat, m: nat): real
    requires n <= |w.remote|
  {
    if n == 0 then 0.0
    else
      ReservedBelow(w, n - 1, m) +
      (if IsReserved(w, n - 1) && w.remote[n - 1].tag < m then w.remote[n - 1].cap else 0.0)
  }

  function ReservedFor(w: World, n: nat, i: nat): real
    requires n <= |w.remote|
  {
    if n == 0 then 0.0
    else
      ReservedFor(w, n - 1, i) +
      (if IsReserved(w, n - 1) && w.remote[n - 1].tag == i then w.remote[n - 1].cap else 0.0)
  }

  lemma {:induction false} NothingReservedFor(w: World, n: nat, i: nat)
    requires n <= |w.remote| && forall s :: 0 <= s < n ==> !(IsReserved(w, s) && w.remote[s].tag == i)
    ensures ReservedFor(w, n, i) == 0.0
  {
    if n > 0 {
      NothingReservedFor(w, n - 1, i);
    }
  }

  /** An item has at most one unrecorded session, so it accounts for its cap at most once. */
  lemma {:induction false} ReservedOnce(cfg: Config, w: World, n: nat, i: nat)
    requires DataOk(cfg, w) && n <= |w.remote| && i < |w.items|
    ensures ReservedFor(w, n, i) <= if w.items[i].life.state == Dispatching then w.items[i].cap else 0.0
  {
    assert ItemOk(cfg, w, i);
    if n > 0 {
      if IsReserved(w, n - 1) && w.remote[n - 1].tag == i {
        assert IsLive(w, n - 1);
        forall s | 0 <= s < n - 1 ensures !(IsReserved(w, s) && w.remote[s].tag == i) {
          assert IsReserved(w, s) ==> IsLive(w, s);
        }
        NothingReservedFor(w, n - 1, i);
      } else {
        ReservedOnce(cfg, w, n - 1, i);
      }
    }
  }

  lemma {:induction false} ReservedBelowNext(w: World, n: nat, m: nat)
    requires n <= |w.remote|
    ensures ReservedBelow(w, n, m + 1) == ReservedBelow(w, n, m) + ReservedFor(w, n, m)
    ensures ReservedBelow(w, n, 0) == 0.0
  {
    if n > 0 {
      ReservedBelowNext(w, n - 1, m);
    }
  }

  lemma {:induction false} ReservationsCover(cfg: Config, w: World, m: nat)
    requires DataOk(cfg, w) && m <= |w.items|
    ensures ReservedBelow(w, |w.remote|, m) <= ReservedCaps(w.items[..m])
  {
    if m == 0 {
      ReservedBelowNext(w, |w.remote|, 0);
    } else {
      ReservationsCover(cfg, w, m - 1);
      ReservedBelowNext(w, |w.remote|, m - 1);
      ReservedOnce(cfg, w, |w.remote|, m - 1);
      assert w.items[..m][..m - 1] == w.items[..m - 1];
    }
  }

  lemma SessionIsCovered(cfg: Config, w: World, s: nat)
    requires DataOk(cfg, w) && s < |w.remote|
    ensures w.remote[s].acus <=
      Share(w.items, w.rows, s) + Unseen(w, s) + (if IsReserved(w, s) then w.remote[s].cap else 0.0)
    ensures Unseen(w, s) >= 0.0
  {
  }

  lemma {:induction false} MeterIsCovered(cfg: Config, w: World, n: nat)
    requires DataOk(cfg, w) && n <= |w.remote|
    ensures Metered(w.remote, n) <= Committed(w.items, w.rows, n) + UnseenBelow(w, n) + ReservedBelow(w, n, |w.items|)
    ensures UnseenBelow(w, n) >= 0.0
  {
    hide Share;
    if n > 0 {
      MeterIsCovered(cfg, w, n - 1);
      SessionIsCovered(cfg, w, n - 1);
    }
  }

  /** In every reachable state, everything Devin metered is within what the controller has committed and
      reserved plus what sessions no active item answers for spent or may spend: those a human took over,
      and those whose creation failed after it took effect. */
  lemma DevinsMeterIsBounded(cfg: Config, history: seq<World>, w: World)
    requires Reached(cfg, history, w)
    ensures Metered(w.remote, |w.remote|) <= CommittedIn(w) + ReservedCaps(w.items) + UnseenBelow(w, |w.remote|)
    ensures cfg.budget >= 0.0 ==> Metered(w.remote, |w.remote|) <= cfg.budget + w.debt + UnseenBelow(w, |w.remote|)
  {
    var steps := HistoryIsARun(cfg, history, w);
    MeterIsCovered(cfg, w, |w.remote|);
    ReservationsCover(cfg, w, |w.items|);
    assert w.items[..|w.items|] == w.items;
    if cfg.budget >= 0.0 {
      RunIsBounded(cfg, steps);
    }
  }

  lemma {:induction false} AllSeen(w: World, n: nat)
    requires n <= |w.remote| && forall s :: 0 <= s < n ==> Unseen(w, s) == 0.0
    ensures UnseenBelow(w, n) == 0.0
  {
    if n > 0 {
      AllSeen(w, n - 1);
    }
  }

  /** While every session either answers to an active item, is being dispatched, or stopped with its last
      reading on record, Devin's meter itself stays within the budget plus the booked debt. */
  lemma SettledMeterIsWithinBudget(cfg: Config, history: seq<World>, w: World)
    requires Reached(cfg, history, w) && cfg.budget >= 0.0
    requires forall s :: 0 <= s < |w.remote| ==>
      IsReserved(w, s) ||
      (s in w.rows && (Binds(w.items, w.rows[s].item, s) ||
        (!w.remote[s].active && w.rows[s].acus == w.remote[s].acus)))
    ensures Metered(w.remote, |w.remote|) <= cfg.budget + w.debt
  {
    DevinsMeterIsBounded(cfg, history, w);
    AllSeen(w, |w.remote|);
  }

  // ---------------------------------------------------------------- a run over the limits

  const TIGHT := Config(1, 1.0, 1, 1)

  /** Room for two sessions, ACUs for one. */
  const SHORT := Config(2, 1.0, 1, 1)

  const BOUND := map[0 := Row(0, 1.0, 0.0)]

  const WORKING := [Remote(0, true, 0.0, 1.0)]

  /** One item in `st`, bound as given. */
  ghost predicate First(
      w: World, st: WorkItemState, active: Option<nat>, rows: map<nat, Row>, remote: seq<Remote>, pc: Pc) {
    |w.items| == 1 && w.items[0].life.state == st && w.items[0].active == active && w.items[0].cap == 1.0 &&
    w.items[0].issue && w.rows == rows && w.remote == remote && w.pc == pc && w.lock == Free && w.pending == 0
  }

  lemma Taken(cfg: Config, history: seq<World>, w: World, s: Step) returns (longer: seq<World>, next: World)
    requires Reached(cfg, history, w) && Enabled(cfg, w, s)
    ensures Reached(cfg, longer, next) && next == Next(cfg, w, s)
  {
    Took(cfg, history, w, s);
    next := Next(cfg, w, s);
    longer := history + [next];
  }

  lemma NothingYet(cfg: Config) returns (history: seq<World>, w: World)
    ensures Reached(cfg, history, w) && w == START
  {
    history, w := [START], START;
  }

  lemma FirstArrives(cfg: Config) returns (history: seq<World>, w: World)
    requires cfg in {TIGHT, SHORT}
    ensures Reached(cfg, history, w) && |w.items| == 1 && w.items[0] == Item(NEW_LIFE, None, 0, 0, 1.0, false, false)
    ensures w.rows == map[] && w.remote == [] && w.pc == Idle && w.lock == Free && w.pending == 0
  {
    hide Reached;
    var before, v := NothingYet(cfg);
    history, w := Taken(cfg, before, v, NewItem(1.0));
  }

  lemma FirstIsOpened(cfg: Config) returns (history: seq<World>, w: World)
    requires cfg in {TIGHT, SHORT}
    ensures Reached(cfg, history, w) && First(w, IssueOpen, None, map[], [], Idle)
  {
    hide Reached;
    var before, v := FirstArrives(cfg);
    history, w := Taken(cfg, before, v, Observe(0, IssueCreated));
  }

  lemma FirstIsAdmitted(cfg: Config) returns (history: seq<World>, w: World)
    requires cfg in {TIGHT, SHORT}
    ensures Reached(cfg, history, w) && First(w, Dispatching, None, map[], [], Reserved(0, false))
  {
    hide Reached;
    var before, v := FirstIsOpened(cfg);
    assert v.items[..0] == [];
    history, w := Taken(cfg, before, v, Reserve(0));
  }

  lemma FirstIsLookedUp() returns (history: seq<World>, w: World)
    ensures Reached(TIGHT, history, w) && First(w, Dispatching, None, map[], [], Clear(0, false))
  {
    hide Reached;
    var before, v := FirstIsAdmitted(TIGHT);
    history, w := Taken(TIGHT, before, v, Lookup(true));
  }

  lemma FirstIsCreated() returns (history: seq<World>, w: World)
    ensures Reached(TIGHT, history, w) && First(w, Dispatching, None, map[], WORKING, Created(0, Snap(0, true, 0.0)))
  {
    hide Reached;
    var before, v := FirstIsLookedUp();
    history, w := Taken(TIGHT, before, v, CreateCall(true, true));
  }

  lemma FirstIsBound() returns (history: seq<World>, w: World)
    ensures Reached(TIGHT, history, w) && First(w, SessionActive, Some(0), BOUND, WORKING, Idle)
  {
    hide Reached;
    var before, v := FirstIsCreated();
    history, w := Taken(TIGHT, before, v, RecordCreated);
  }

  lemma FirstIsPolled() returns (history: seq<World>, w: World)
    ensures Reached(TIGHT, history, w) &&
      First(w, SessionActive, Some(0), BOUND, WORKING, Polled(0, Snap(0, true, 0.0)))
  {
    hide Reached;
    var before, v := FirstIsBound();
    history, w := Taken(TIGHT, before, v, PollRead(0));
  }

  lemma FirstDelivers() returns (history: seq<World>, w: World)
    ensures Reached(TIGHT, history, w) && First(w, ChecksRunning, Some(0), BOUND, WORKING, Idle)
  {
    hide Reached;
    var before, v := FirstIsPolled();
    history, w := Taken(TIGHT, before, v, PollApply(PrReady));
  }

  lemma FirstIsGreen() returns (history: seq<World>, w: World)
    ensures Reached(TIGHT, history, w) && First(w, ReviewPending, Some(0), BOUND, WORKING, Idle)
  {
    hide Reached;
    var before, v := FirstDelivers();
    history, w := Taken(TIGHT, before, v, Observe(0, ChecksGreen));
  }

  lemma FirstIsReady() returns (history: seq<World>, w: World)
    ensures Reached(TIGHT, history, w) && First(w, ReadyForHuman, Some(0), BOUND, WORKING, Idle)
  {
    hide Reached;
    var before, v := FirstIsGreen();
    history, w := Taken(TIGHT, before, v, Observe(0, ReviewCompleted));
  }

  /** Beside the first item, a second one in `st`. */
  ghost predicate Second(w: World, first: WorkItemState, st: WorkItemState, pc: Pc) {
    |w.items| == 2 && w.items[0].life.state == first && w.items[0].active == Some(0) &&
    w.items[1].life.state == st && w.items[1].active == None && w.items[1].cap == 1.0 &&
    w.rows == BOUND && w.remote == WORKING && w.pc == pc && w.lock == Free
  }

  lemma SecondArrives() returns (history: seq<World>, w: World)
    ensures Reached(TIGHT, history, w) && Second(w, ReadyForHuman, Queued, Idle)
  {
    hide Reached;
    var before, v := FirstIsReady();
    history, w := Taken(TIGHT, before, v, NewItem(1.0));
  }

  lemma SecondIsOpened() returns (history: seq<World>, w: World)
    ensures Reached(TIGHT, history, w) && Second(w, ReadyForHuman, IssueOpen, Idle) && w.items[1].issue
  {
    hide Reached;
    var before, v := SecondArrives();
    history, w := Taken(TIGHT, before, v, Observe(1, IssueCreated));
  }

  lemma FiguresOfTwo(w: World)
    requires |w.items| == 2 && w.rows == BOUND && |w.remote| == 1 && w.items[0].active == Some(0)
    ensures ActiveCount(w.items) ==
      (if IsActive(w.items[0].life.state) then 1 else 0) + if IsActive(w.items[1].life.state) then 1 else 0
    ensures CommittedIn(w) == if IsActive(w.items[0].life.state) then 1.0 else 0.0
    ensures ReservedCaps(w.items) ==
      (if w.items[0].life.state == Dispatching then w.items[0].cap else 0.0) +
      (if w.items[1].life.state == Dispatching then w.items[1].cap else 0.0)
  {
    hide IsActive;
    var one := w.items[..1];
    assert one[..0] == [] && one[0] == w.items[0];
    assert ActiveCount([]) == 0 && ReservedCaps([]) == 0.0;
    assert ActiveCount(one) == ActiveCount(one[..0]) + if IsActive(one[0].life.state) then 1 else 0;
    assert ReservedCaps(one) == ReservedCaps(one[..0]) + if one[0].life.state == Dispatching then one[0].cap else 0.0;
    assert w.items[..2 - 1] == one;
    assert Committed(w.items, w.rows, 0) == 0.0;
    assert Committed(w.items, w.rows, 1) == Share(w.items, w.rows, 0);
  }

  lemma SecondIsReserved() returns (history: seq<World>, w: World)
    ensures Reached(TIGHT, history, w) && Second(w, ReadyForHuman, Dispatching, Reserved(1, false))
  {
    hide Reached;
    var before, v := SecondIsOpened();
    FiguresOfTwo(v);
    history, w := Taken(TIGHT, before, v, Reserve(1));
  }

  lemma SecondIsAdmitted() returns (history: seq<World>, w: World)
    ensures Reached(TIGHT, history, w) && Second(w, ReadyForHuman, Dispatching, Idle)
  {
    hide Reached;
    var before, v := SecondIsReserved();
    history, w := Taken(TIGHT, before, v, Crash);
  }

  /** The limits are exceeded when an item comes back from `ready_for_human` after its slot and its ACUs
      were given to another: two items are active where one may be, and twice the budget is committed. */
  lemma AReentryExceedsTheLimits() returns (history: seq<World>, w: World)
    ensures Reached(TIGHT, history, w)
    ensures ActiveCount(w.items) == 2 > TIGHT.maxSessions
    ensures Total(w) == 2.0 > TIGHT.budget
  {
    hide Reached;
    var before, v := SecondIsAdmitted();
    history, w := Taken(TIGHT, before, v, Observe(0, NewHeadPushed));
    FiguresOfTwo(w);
  }

  /** An item stuck in `dispatching` after a crash, beside one that is not dispatched yet. */
  ghost predicate Stuck(w: World, second: WorkItemState, pc: Pc) {
    |w.items| == 2 && w.items[0].life.state == Dispatching && w.items[0].active == None && w.items[0].cap == 1.0 &&
    w.items[1].life.state == second && w.items[1].active == None && w.items[1].cap == 1.0 &&
    w.rows == map[] && w.remote == [] && w.pc == pc && w.pending == 0
  }

  lemma FirstIsStranded() returns (history: seq<World>, w: World)
    ensures Reached(SHORT, history, w) && First(w, Dispatching, None, map[], [], Idle)
  {
    hide Reached;
    var before, v := FirstIsAdmitted(SHORT);
    history, w := Taken(SHORT, before, v, Crash);
  }

  lemma AnotherArrives() returns (history: seq<World>, w: World)
    ensures Reached(SHORT, history, w) && Stuck(w, Queued, Idle) && w.lock == Free
  {
    hide Reached;
    var before, v := FirstIsStranded();
    history, w := Taken(SHORT, before, v, NewItem(1.0));
  }

  lemma FiguresOfStuck(w: World)
    requires |w.items| == 2 && w.items[0].life.state == Dispatching && w.remote == []
    ensures ActiveCount(w.items) == 1 + if IsActive(w.items[1].life.state) then 1 else 0
    ensures Total(w) == w.items[0].cap + if w.items[1].life.state == Dispatching then w.items[1].cap else 0.0
  {
    hide IsActive;
    var one := w.items[..1];
    assert one[..0] == [] && one[0] == w.items[0] && w.items[..2 - 1] == one;
    assert IsActive(Dispatching) by {
      DispatchingIsActive();
    }
    assert ActiveCount([]) == 0 && ReservedCaps([]) == 0.0;
    assert ActiveCount(one) == ActiveCount(one[..0]) + if IsActive(one[0].life.state) then 1 else 0;
    assert ReservedCaps(one) == ReservedCaps(one[..0]) + one[0].cap;
  }

  lemma DispatchingIsActive()
    ensures IsActive(Dispatching)
  {
  }

  lemma LaunchHasBegun() returns (history: seq<World>, w: World)
    ensures Reached(SHORT, history, w) && Stuck(w, Queued, Launching(1, w.runs))
  {
    hide Reached;
    var before, v := AnotherArrives();
    FiguresOfStuck(v);
    history, w := Taken(SHORT, before, v, LaunchBegin(1));
  }

  /** The budget is also exceeded by a launch while another item is stuck in `dispatching`: the launch
      weighs its own cap against what is consumed and outstanding, not the cap already reserved. */
  lemma ALaunchBesideAStuckDispatchOverspends() returns (history: seq<World>, w: World)
    ensures Reached(SHORT, history, w)
    ensures ActiveCount(w.items) == 2 == SHORT.maxSessions
    ensures Total(w) == 2.0 > SHORT.budget
  {
    hide Reached;
    var before, v := LaunchHasBegun();
    history, w := Taken(SHORT, before, v, LaunchReserve);
    FiguresOfStuck(w);
  }
}
