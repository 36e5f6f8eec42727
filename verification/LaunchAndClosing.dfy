/** The dispatch protocol and the closing evaluation over one set of items and runs: why a launch waits for
    pending evidence. */
module LaunchAndClosing {
  import opened Domain
  import opened StateTables
  import opened Persist
  import opened Closer
  import D = Dispatch
  import S = DispatchSafety
  import T = DispatchTermination
  import C = Closing
  import H = ClosingSoundness
  import Confluence

  /** The two readings of one database. */
  datatype Both = Both(d: D.World, c: C.World)

  /** They agree on the items' states, on how many runs there are and on how many await evaluation. */
  ghost predicate Agree(b: Both) {
    |b.d.items| == |b.c.items| &&
    (forall i :: 0 <= i < |b.c.items| ==> b.d.items[i].life.state == b.c.items[i].state) &&
    b.d.runs == |b.c.runs| && b.d.pending == |b.c.runs.Keys - b.c.applied| &&
    KeyedByKey(b.c.findings) && b.c.applied <= b.c.runs.Keys
  }

  predicate IsQuiet(s: D.Step) {
    !s.IngestCommit? && !s.ApplyScans?
  }

  predicate AllQuiet(steps: seq<D.Step>) {
    forall n :: 0 <= n < |steps| ==> IsQuiet(steps[n])
  }

  /** A run is committed. */
  ghost predicate Ingests(b: Both, steps: seq<D.Step>, v: Both) {
    steps == [D.IngestCommit] && KeyedByKey(b.c.findings) &&
    exists run: Evidence.Run :: run.id !in b.c.runs && H.Enabled(b.c, H.IngestStep(run)) &&
      v.c == H.Next(b.c, H.IngestStep(run))
  }

  /** A pending run is evaluated; what it does to items the dispatch side merely observes. */
  ghost predicate Applies(b: Both, steps: seq<D.Step>, v: Both) {
    steps != [] && b.d.pending > 0 && steps[|steps| - 1] == D.ApplyScans(b.d.pending - 1) &&
    AllQuiet(steps[..|steps| - 1]) &&
    exists r, anc :: r in b.c.runs && r !in b.c.applied && v.c == C.Evaluate(b.c, r, anc)
  }

  /** Anything else: it neither brings runs in nor evaluates them. */
  ghost predicate Otherwise(b: Both, steps: seq<D.Step>, v: Both) {
    AllQuiet(steps) && v.c.runs == b.c.runs && v.c.applied == b.c.applied && KeyedByKey(v.c.findings)
  }

  ghost predicate Moves(cfg: D.Config, b: Both, steps: seq<D.Step>, v: Both) {
    D.IsRun(cfg, b.d, steps) && D.After(cfg, b.d, steps) == v.d &&
    (Ingests(b, steps, v) || Applies(b, steps, v) || Otherwise(b, steps, v)) &&
    |v.d.items| == |v.c.items| && forall i :: 0 <= i < |v.c.items| ==> v.d.items[i].life.state == v.c.items[i].state
  }

  ghost predicate Linked(cfg: D.Config, b: Both, v: Both) {
    exists steps :: Moves(cfg, b, steps, v)
  }

  const NOTHING := Both(D.START, C.START_WORLD)

  ghost predicate IsHistory(cfg: D.Config, history: seq<Both>) {
    |history| > 0 && history[0] == NOTHING && forall n :: 0 <= n < |history| - 1 ==>
      Linked(cfg, history[n], history[n + 1])
  }

  // ---------------------------------------------------------------- they keep agreeing

  lemma QuietStepKeepsCounts(cfg: D.Config, w: D.World, s: D.Step)
    requires D.Enabled(cfg, w, s) && IsQuiet(s)
    ensures D.Next(cfg, w, s).runs == w.runs && D.Next(cfg, w, s).pending == w.pending
  {
    hide D.Move, D.Choice, D.HasRoom;
  }

  lemma {:induction false} QuietRunKeepsCounts(cfg: D.Config, w: D.World, steps: seq<D.Step>)
    requires D.IsRun(cfg, w, steps) && AllQuiet(steps)
    ensures D.After(cfg, w, steps).runs == w.runs && D.After(cfg, w, steps).pending == w.pending
  {
    hide D.Next, D.Enabled;
    if steps != [] {
      var n := |steps| - 1;
      QuietRunKeepsCounts(cfg, w, steps[..n]);
      QuietStepKeepsCounts(cfg, D.After(cfg, w, steps[..n]), steps[n]);
    }
  }

  lemma IngestKeepsCounts(cfg: D.Config, b: Both, v: Both)
    requires Agree(b) && D.IsRun(cfg, b.d, [D.IngestCommit]) && D.After(cfg, b.d, [D.IngestCommit]) == v.d
    requires Ingests(b, [D.IngestCommit], v)
    ensures v.d.runs == |v.c.runs| && v.d.pending == |v.c.runs.Keys - v.c.applied|
    ensures KeyedByKey(v.c.findings) && v.c.applied <= v.c.runs.Keys
  {
    hide D.IsRun, D.After, Upserted, KeyedByKey;
    CommitCounts(cfg, b.d);
    var run: Evidence.Run :| run.id !in b.c.runs && v.c == H.Next(b.c, H.IngestStep(run));
    CommitAddsRun(b.c, run);
  }

  lemma CommitCounts(cfg: D.Config, w: D.World)
    requires D.IsRun(cfg, w, [D.IngestCommit])
    ensures var v := D.After(cfg, w, [D.IngestCommit]); v.runs == w.runs + 1 && v.pending == w.pending + 1
  {
    hide D.Move, D.HasRoom;
    var steps := [D.IngestCommit];
    assert steps[..0] == [];
    assert D.After(cfg, w, steps[..0]) == w;
  }

  lemma CommitAddsRun(w: C.World, run: Evidence.Run)
    requires KeyedByKey(w.findings) && run.id !in w.runs && w.applied <= w.runs.Keys
    ensures var v := H.Next(w, H.IngestStep(run));
      KeyedByKey(v.findings) && v.applied == w.applied && |v.runs| == |w.runs| + 1 && v.applied <= v.runs.Keys &&
      |v.runs.Keys - v.applied| == |w.runs.Keys - w.applied| + 1
  {
    hide Upserted;
    var v := H.Next(w, H.IngestStep(run));
    OneMoreRow(w.runs, run.id, run);
    OneMore(w.runs.Keys, w.applied, run.id);
  }

  lemma OneMoreRow<V>(rows: map<nat, V>, r: nat, row: V)
    requires r !in rows
    ensures rows[r := row].Keys == rows.Keys + {r} && |rows[r := row]| == |rows| + 1
  {
    assert rows[r := row].Keys == rows.Keys + {r};
    assert |rows[r := row].Keys| == |rows[r := row]| && |rows.Keys| == |rows|;
  }

  lemma OneMore(keys: set<nat>, some: set<nat>, r: nat)
    requires r !in keys && some <= keys
    ensures |keys + {r}| == |keys| + 1 && |keys + {r} - some| == |keys - some| + 1
  {
    assert keys + {r} - some == (keys - some) + {r};
  }

  lemma ApplyKeepsCounts(cfg: D.Config, b: Both, steps: seq<D.Step>, v: Both)
    requires Agree(b) && D.IsRun(cfg, b.d, steps) && D.After(cfg, b.d, steps) == v.d && Applies(b, steps, v)
    ensures v.d.runs == |v.c.runs| && v.d.pending == |v.c.runs.Keys - v.c.applied|
    ensures KeyedByKey(v.c.findings) && v.c.applied <= v.c.runs.Keys
  {
    hide D.Move, D.HasRoom, C.Evaluate;
    var n := |steps| - 1;
    QuietRunKeepsCounts(cfg, b.d, steps[..n]);
    var r, anc :| r in b.c.runs && r !in b.c.applied && v.c == C.Evaluate(b.c, r, anc);
    EvaluateFrame(b.c, r, anc);
    assert v.c.runs.Keys - v.c.applied == (b.c.runs.Keys - b.c.applied) - {r};
  }

  lemma EvaluateFrame(w: C.World, r: nat, anc: Ancestry)
    requires r in w.runs && KeyedByKey(w.findings)
    ensures var v := C.Evaluate(w, r, anc);
      v.runs == w.runs && v.applied == w.applied + {r} && |v.items| == |w.items| && KeyedByKey(v.findings)
  {
    hide C.MemberAfter, C.ItemVerdict, IsClosingRun;
    C.KeysStay(w, w.runs[r], anc, |w.items|);
  }

  lemma MovesKeep(cfg: D.Config, b: Both, steps: seq<D.Step>, v: Both)
    requires Agree(b) && S.Inv(cfg, b.d) && Moves(cfg, b, steps, v)
    ensures Agree(v) && S.Inv(cfg, v.d)
  {
    hide Applies, D.IsRun, D.After, S.Inv;
    S.RunKeeps(cfg, b.d, steps);
    if Ingests(b, steps, v) {
      IngestKeepsCounts(cfg, b, v);
    } else if Applies(b, steps, v) {
      ApplyKeepsCounts(cfg, b, steps, v);
    } else {
      QuietRunKeepsCounts(cfg, b.d, steps);
    }
  }

  lemma {:induction false} HistoryKeeps(cfg: D.Config, history: seq<Both>, n: nat)
    requires IsHistory(cfg, history) && n < |history|
    ensures Agree(history[n]) && S.Inv(cfg, history[n].d)
  {
    hide Moves, Agree, S.Inv;
    if n == 0 {
      NothingAgrees(cfg);
    } else {
      HistoryKeeps(cfg, history, n - 1);
      assert Linked(cfg, history[n - 1], history[n - 1 + 1]);
      var steps :| Moves(cfg, history[n - 1], steps, history[n]);
      MovesKeep(cfg, history[n - 1], steps, history[n]);
    }
  }

  lemma NothingAgrees(cfg: D.Config)
    ensures Agree(NOTHING) && S.Inv(cfg, NOTHING.d)
  {
  }

  // ---------------------------------------------------------------- what the wait is for

  /** This move of the history is the evaluation of the run. */
  ghost predicate EvaluatedAt(history: seq<Both>, p: nat, r: nat)
    requires p + 1 < |history|
  {
    EvaluatedBetween(history[p].c, history[p + 1].c, r)
  }

  ghost predicate EvaluatedBetween(w: C.World, v: C.World, r: nat) {
    r in w.runs && r !in w.applied && exists anc :: v == C.Evaluate(w, r, anc)
  }

  ghost predicate WasEvaluated(history: seq<Both>, n: nat, r: nat)
    requires n < |history|
  {
    exists p :: 0 <= p < n && EvaluatedAt(history, p, r)
  }

  lemma MoveMarks(cfg: D.Config, b: Both, steps: seq<D.Step>, v: Both, r: nat)
    requires Moves(cfg, b, steps, v) && r in v.c.applied && r !in b.c.applied
    ensures EvaluatedBetween(b.c, v.c, r)
  {
    hide D.IsRun, D.After;
  }

  /** A marker is never set without the evaluation. */
  lemma {:induction false} MarkedWasEvaluated(cfg: D.Config, history: seq<Both>, n: nat, r: nat)
    requires IsHistory(cfg, history) && n < |history| && r in history[n].c.applied
    ensures WasEvaluated(history, n, r)
  {
    hide Moves, EvaluatedBetween;
    if n > 0 {
      var b, v := history[n - 1], history[n];
      assert Linked(cfg, history[n - 1], history[n - 1 + 1]);
      var steps :| Moves(cfg, b, steps, v);
      if r in b.c.applied {
        MarkedWasEvaluated(cfg, history, n - 1, r);
        var p :| 0 <= p < n - 1 && EvaluatedAt(history, p, r);
        assert EvaluatedAt(history, p, r);
      } else {
        MoveMarks(cfg, b, steps, v, r);
        assert EvaluatedAt(history, n - 1, r);
      }
    }
  }

  /** While any ingested run is owed its evaluation, no item can be launched and no launch already begun can
      commit its reservation. */
  lemma PendingRunBlocksTheLaunch(cfg: D.Config, history: seq<Both>, n: nat, r: nat, i: nat)
    requires IsHistory(cfg, history) && n < |history| && r in history[n].c.runs && r !in history[n].c.applied
    ensures !D.Enabled(cfg, history[n].d, D.LaunchBegin(i)) && !D.Enabled(cfg, history[n].d, D.LaunchReserve)
  {
    hide Linked, D.HasRoom;
    HistoryKeeps(cfg, history, n);
    assert r in history[n].c.runs.Keys - history[n].c.applied;
  }

  /** Whenever a launch commits its reservation, every ingested run has had its evaluation in this history. */
  lemma LaunchMeetsNoOwedEvidence(cfg: D.Config, history: seq<Both>, n: nat)
    requires IsHistory(cfg, history) && n < |history| && D.Enabled(cfg, history[n].d, D.LaunchReserve)
    ensures history[n].c.applied == history[n].c.runs.Keys
    ensures forall r :: r in history[n].c.runs ==> WasEvaluated(history, n, r)
  {
    hide WasEvaluated, S.Inv;
    HistoryKeeps(cfg, history, n);
    forall r | r in history[n].c.runs ensures r in history[n].c.applied && WasEvaluated(history, n, r) {
      if r !in history[n].c.applied {
        PendingRunBlocksTheLaunch(cfg, history, n, r, 0);
      }
      MarkedWasEvaluated(cfg, history, n, r);
    }
  }

  lemma MoveKeepsTerminal(cfg: D.Config, b: Both, steps: seq<D.Step>, v: Both, i: nat)
    requires Agree(b) && S.Inv(cfg, b.d) && Moves(cfg, b, steps, v)
    requires i < |b.c.items| && b.c.items[i].state in {Verified, Abandoned}
    ensures i < |v.c.items| && v.c.items[i].state == b.c.items[i].state
  {
    hide D.IsRun, D.After, S.Inv, Ingests, Applies, Otherwise;
    T.TerminalItemsStay(cfg, b.d, steps, i);
  }

  /** What is retired stays retired. */
  lemma {:induction false} TerminalStays(cfg: D.Config, history: seq<Both>, p: nat, n: nat, i: nat)
    requires IsHistory(cfg, history) && p <= n < |history|
    requires i < |history[p].c.items| && history[p].c.items[i].state in {Verified, Abandoned}
    ensures i < |history[n].c.items| && history[n].c.items[i].state == history[p].c.items[i].state
  {
    hide Moves, Agree, S.Inv;
    if p < n {
      TerminalStays(cfg, history, p, n - 1, i);
      HistoryKeeps(cfg, history, n - 1);
      assert Linked(cfg, history[n - 1], history[n - 1 + 1]);
      var steps :| Moves(cfg, history[n - 1], steps, history[n]);
      MoveKeepsTerminal(cfg, history[n - 1], steps, history[n], i);
    }
  }

  /** What the wait is for: the item a launch reserves has been before every ingested run, each of which was
      evaluated while it could still be retired, and none retired it. */
  lemma LaunchedItemOutlivedEveryScan(cfg: D.Config, history: seq<Both>, n: nat, r: nat)
    requires IsHistory(cfg, history) && n < |history| && D.Enabled(cfg, history[n].d, D.LaunchReserve)
    requires r in history[n].c.runs
    ensures exists p :: 0 <= p < n && SparedAt(history, p, r, history[n].d.pc.item)
  {
    hide EvaluatedAt, S.Inv;
    var i := history[n].d.pc.item;
    LaunchMeetsNoOwedEvidence(cfg, history, n);
    assert WasEvaluated(history, n, r);
    var p :| 0 <= p < n && EvaluatedAt(history, p, r);
    HistoryKeeps(cfg, history, n);
    LaunchingIsOpen(cfg, history[n]);
    if i < |history[p + 1].c.items| && history[p + 1].c.items[i].state == Abandoned {
      TerminalStays(cfg, history, p + 1, n, i);
    }
    assert SparedAt(history, p, r, i);
  }

  /** This move evaluates the run and does not leave the item retired. */
  ghost predicate SparedAt(history: seq<Both>, p: nat, r: nat, i: nat)
    requires p + 1 < |history|
  {
    EvaluatedAt(history, p, r) &&
    (i < |history[p + 1].c.items| ==> history[p + 1].c.items[i].state != Abandoned)
  }

  lemma LaunchingIsOpen(cfg: D.Config, b: Both)
    requires Agree(b) && S.Inv(cfg, b.d) && D.Enabled(cfg, b.d, D.LaunchReserve)
    ensures b.d.pc.item < |b.c.items| && b.c.items[b.d.pc.item].state in {Queued, IssueOpen, NeedsHuman, Failed}
  {
  }

  lemma AbandonedIsNotLaunched(cfg: D.Config, b: Both, i: nat)
    requires Agree(b) && S.Inv(cfg, b.d) && i < |b.c.items| && b.c.items[i].state == Abandoned
    ensures i < |b.d.items| && b.d.items[i].life.state == Abandoned && !D.Enabled(cfg, b.d, D.LaunchBegin(i))
    ensures D.Enabled(cfg, b.d, D.LaunchReserve) ==> b.d.pc.item != i
  {
    hide S.Inv, D.HasRoom;
    if D.Enabled(cfg, b.d, D.LaunchReserve) {
      LaunchingIsOpen(cfg, b);
    }
  }

  /** And an item an evaluation retired is never launched again: no launch of it begins and none commits. */
  lemma RetiredItemIsNeverLaunched(cfg: D.Config, history: seq<Both>, p: nat, n: nat, i: nat)
    requires IsHistory(cfg, history) && p <= n < |history|
    requires i < |history[p].c.items| && history[p].c.items[i].state == Abandoned
    ensures i < |history[n].d.items| && history[n].d.items[i].life.state == Abandoned
    ensures !D.Enabled(cfg, history[n].d, D.LaunchBegin(i))
    ensures D.Enabled(cfg, history[n].d, D.LaunchReserve) ==> history[n].d.pc.item != i
  {
    hide S.Inv, Agree, D.Enabled, Linked;
    TerminalStays(cfg, history, p, n, i);
    HistoryKeeps(cfg, history, n);
    AbandonedIsNotLaunched(cfg, history[n], i);
  }

  /** And once reserved, no evaluation of any run, ingested before or after, touches the item. */
  lemma ReservedItemIsOutOfReach(cfg: D.Config, history: seq<Both>, n: nat, i: nat, r: nat, anc: Ancestry)
    requires IsHistory(cfg, history) && n < |history| && i < |history[n].d.items| && r in history[n].c.runs
    requires history[n].d.items[i].life.state == Dispatching
    ensures i < |C.Evaluate(history[n].c, r, anc).items|
    ensures C.Evaluate(history[n].c, r, anc).items[i] == history[n].c.items[i]
  {
    hide C.Evaluate, S.Inv;
    HistoryKeeps(cfg, history, n);
    Confluence.EvaluateAt(history[n].c, r, i, anc);
  }

  // ---------------------------------------------------------------- every evaluation can be taken

  /** What an evaluation does to an item's state is a sequence of events the dispatch side may observe. */
  function MoveAll(s: WorkItemState, events: seq<WorkItemEvent>): WorkItemState {
    if events == [] then s else Advance(MoveAll(s, events[..|events| - 1]), events[|events| - 1])
  }

  ghost predicate Observes(s: WorkItemState, events: seq<WorkItemEvent>, t: WorkItemState) {
    MoveAll(s, events) == t && (events != [] ==> s != Dispatching) && forall n :: 0 <= n < |events| ==>
      D.Observable(events[n])
  }

  lemma {:induction false} ObservesMore(
      s: WorkItemState, events: seq<WorkItemEvent>, t: WorkItemState, e: WorkItemEvent)
    requires Observes(s, events, t) && D.Observable(e) && s != Dispatching
    ensures Observes(s, events + [e], Advance(t, e))
  {
    assert (events + [e])[..|events|] == events;
  }

  lemma VerdictIsObserved(s: WorkItemState, v: C.Verdict) returns (events: seq<WorkItemEvent>)
    requires s in {Merged, AwaitingRescan}
    ensures Observes(s, events, C.StateAfter(s, v))
  {
    hide Advance;
    events := [];
    var mid := s;
    if v == C.Undecided || s == Merged {
      ObservesMore(s, events, mid, RescanStarted);
      events, mid := events + [RescanStarted], Advance(mid, RescanStarted);
    }
    if v in {C.AllResolved, C.ShowsPresent} {
      var e := if v == C.AllResolved then RescanVerified else RescanShowsPresent;
      ObservesMore(s, events, mid, e);
      events := events + [e];
    }
  }

  /** The item's state after the evaluation, by events the dispatch side may observe. */
  lemma EvaluationIsObserved(w: C.World, r: nat, i: nat, anc: Ancestry) returns (events: seq<WorkItemEvent>)
    requires r in w.runs && i < |w.items|
    ensures i < |C.Evaluate(w, r, anc).items|
    ensures Observes(w.items[i].state, events, C.Evaluate(w, r, anc).items[i].state)
  {
    hide C.ItemVerdict, C.MemberAfter, C.DriftOne, C.RegressOne, NextWorkItemState;
    var run := w.runs[r];
    var a := C.CloseBelow(w, run, anc, |w.items|);
    Confluence.CloseBelowOn(w, run, anc, |w.items|, i);
    var b := C.Regressions(a, run, anc);
    if C.AwaitsClosure(w.items[i]) {
      events := VerdictIsObserved(w.items[i].state, C.ItemVerdict(w, run, i, anc));
      AfterVerdict(w.items[i].state, C.ItemVerdict(w, run, i, anc));
      assert !C.Touched(b, run, i);
    } else if C.Retires(b, run, i, anc) {
      ObservesMore(w.items[i].state, [], w.items[i].state, WorkItemEvent.Superseded);
      events := [] + [WorkItemEvent.Superseded];
    } else {
      events := [];
    }
  }

  lemma AfterVerdict(s: WorkItemState, v: C.Verdict)
    requires s in {Merged, AwaitingRescan}
    ensures C.StateAfter(s, v) !in {Queued, IssueOpen}
  {
  }

  /** A dispatch world takes the events for one item, whose state alone changes. */
  lemma {:induction false} ObserveAll(cfg: D.Config, w: D.World, i: nat, events: seq<WorkItemEvent>, t: WorkItemState)
    returns (steps: seq<D.Step>)
    requires w.pc == D.Idle && w.lock == D.Free && i < |w.items| && Observes(w.items[i].life.state, events, t)
    ensures D.IsRun(cfg, w, steps) && AllQuiet(steps)
    ensures Moved(w, D.After(cfg, w, steps), i, t)
    decreases |events|
  {
    hide D.Next, D.Enabled, Advance;
    steps := [];
    if events != [] {
      var n := |events| - 1;
      var mid := MoveAll(w.items[i].life.state, events[..n]);
      NeverDispatching(w.items[i].life.state, events[..n]);
      steps := ObserveAll(cfg, w, i, events[..n], mid);
      var u := D.After(cfg, w, steps);
      ObserveMoves(cfg, u, i, events[n]);
      var step := D.Observe(i, events[n]);
      assert (steps + [step])[..|steps|] == steps;
      steps := steps + [step];
    }
  }

  /** `v` is `w` with item `i` in state `t`, as far as the closing side can see. */
  ghost predicate Moved(w: D.World, v: D.World, i: nat, t: WorkItemState) {
    v.pc == D.Idle && v.lock == D.Free && v.runs == w.runs && v.pending == w.pending && |v.items| == |w.items| &&
    (i < |w.items| ==> v.items[i].life.state == t) && forall j :: 0 <= j < |w.items| && j != i ==>
      v.items[j] == w.items[j]
  }

  lemma {:induction false} NeverDispatching(s: WorkItemState, events: seq<WorkItemEvent>)
    requires s != Dispatching && forall n :: 0 <= n < |events| ==> D.Observable(events[n])
    ensures MoveAll(s, events) != Dispatching
  {
    if events != [] {
      NeverDispatching(s, events[..|events| - 1]);
      ObservableNeverDispatches(MoveAll(s, events[..|events| - 1]), events[|events| - 1]);
    }
  }

  lemma ObservableNeverDispatches(s: WorkItemState, e: WorkItemEvent)
    requires s != Dispatching && D.Observable(e)
    ensures Advance(s, e) != Dispatching
  {
  }

  lemma ObserveMoves(cfg: D.Config, w: D.World, i: nat, e: WorkItemEvent)
    requires w.pc == D.Idle && w.lock == D.Free && i < |w.items| && w.items[i].life.state != Dispatching &&
      D.Observable(e)
    ensures D.Enabled(cfg, w, D.Observe(i, e)) &&
      Moved(w, D.Next(cfg, w, D.Observe(i, e)), i, Advance(w.items[i].life.state, e))
  {
    hide NextWorkItemState, IsActive;
  }

  /** The dispatch side follows the evaluation item by item. */
  lemma {:induction false} FollowBelow(cfg: D.Config, w: D.World, c: C.World, r: nat, anc: Ancestry, n: nat)
    returns (steps: seq<D.Step>)
    requires w.pc == D.Idle && w.lock == D.Free && r in c.runs && n <= |c.items| == |w.items|
    requires forall i :: 0 <= i < |c.items| ==> w.items[i].life.state == c.items[i].state
    ensures |C.Evaluate(c, r, anc).items| == |c.items| && D.IsRun(cfg, w, steps) && AllQuiet(steps)
    ensures Follows(w, D.After(cfg, w, steps), c, C.Evaluate(c, r, anc), n)
  {
    hide C.Evaluate, D.IsRun, D.After;
    EvaluateLength(c, r, anc);
    if n == 0 {
      steps := [];
      EmptyRun(cfg, w);
    } else {
      var before := FollowBelow(cfg, w, c, r, anc, n - 1);
      var u := D.After(cfg, w, before);
      var events := EvaluationIsObserved(c, r, n - 1, anc);
      var more := ObserveAll(cfg, u, n - 1, events, C.Evaluate(c, r, anc).items[n - 1].state);
      RunsCompose(cfg, w, before, more);
      steps := before + more;
    }
  }

  ghost predicate Follows(w: D.World, v: D.World, c: C.World, e: C.World, n: nat) {
    v.pc == D.Idle && v.lock == D.Free && v.runs == w.runs && v.pending == w.pending &&
    |v.items| == |w.items| == |c.items| == |e.items| &&
    forall i :: 0 <= i < |c.items| ==> v.items[i].life.state == if i < n then e.items[i].state else c.items[i].state
  }

  lemma EvaluateLength(c: C.World, r: nat, anc: Ancestry)
    requires r in c.runs
    ensures |C.Evaluate(c, r, anc).items| == |c.items|
  {
  }

  lemma EmptyRun(cfg: D.Config, w: D.World)
    ensures D.IsRun(cfg, w, []) && D.After(cfg, w, []) == w
  {
  }

  lemma {:induction false} RunsCompose(cfg: D.Config, w: D.World, first: seq<D.Step>, second: seq<D.Step>)
    requires D.IsRun(cfg, w, first) && D.IsRun(cfg, D.After(cfg, w, first), second)
    ensures D.IsRun(cfg, w, first + second) &&
      D.After(cfg, w, first + second) == D.After(cfg, D.After(cfg, w, first), second)
    decreases |second|
  {
    hide D.Next, D.Enabled;
    if second == [] {
      assert first + second == first;
    } else {
      var n := |second| - 1;
      RunsCompose(cfg, w, first, second[..n]);
      assert (first + second)[..|first + second| - 1] == first + second[..n];
    }
  }

  /** No evaluation is left out by tying the two readings together: whenever a tick may act, every pending
      run has a move that evaluates it and leaves them agreeing. */
  lemma EveryEvaluationHasItsMove(cfg: D.Config, b: Both, r: nat, anc: Ancestry) returns (v: Both)
    requires Agree(b) && b.d.pc == D.Idle && b.d.lock == D.Free && r in b.c.runs && r !in b.c.applied
    ensures Linked(cfg, b, v) && v.c == C.Evaluate(b.c, r, anc)
  {
    hide C.Evaluate, D.IsRun, D.After;
    assert r in b.c.runs.Keys - b.c.applied;
    var steps := FollowBelow(cfg, b.d, b.c, r, anc, |b.c.items|);
    var u := D.After(cfg, b.d, steps);
    var last := D.ApplyScans(b.d.pending - 1);
    ScansApply(cfg, u, b.d.pending - 1);
    RunsCompose(cfg, b.d, steps, [last]);
    v := Both(u.(pending := b.d.pending - 1), C.Evaluate(b.c, r, anc));
    assert (steps + [last])[..|steps|] == steps;
    assert Applies(b, steps + [last], v);
    assert Moves(cfg, b, steps + [last], v);
  }

  lemma ScansApply(cfg: D.Config, w: D.World, left: nat)
    requires w.pc == D.Idle && w.lock == D.Free && left <= w.pending
    ensures D.IsRun(cfg, w, [D.ApplyScans(left)]) && D.After(cfg, w, [D.ApplyScans(left)]) == w.(pending := left)
  {
    hide D.HasRoom;
    var steps := [D.ApplyScans(left)];
    assert steps[..0] == [];
    assert D.After(cfg, w, steps[..0]) == w;
  }
}
