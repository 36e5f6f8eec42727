/** The closing half of the orchestrator as it runs: loops over members, findings and runs that write
    the tables in place, each proved to do what `Closing` says. */
module ClosingEngine {
  import opened Domain
  import opened StateTables
  import opened Evidence
  import opened Persist
  import opened Closer
  import opened Closing

  class Engine {
    var findings: map<Key, Finding>
    var runs: map<nat, Run>
    var items: seq<WorkItem>
    var applied: set<nat>
    var log: seq<nat>
    var sightings: map<nat, seq<Sighting>>

    /** Every run's stored rows are the ones intake writes for it. */
    ghost predicate Valid()
      reads this
    {
      KeyedByKey(findings) && (forall r :: r in runs ==> runs[r].id == r) &&
      (forall r :: r in runs ==> r in sightings && forall s :: s in sightings[r] <==> Written(runs[r], s))
    }

    ghost function Abs(): World
      reads this
    {
      World(findings, runs, items, applied, log)
    }

    constructor ()
      ensures Abs() == START_WORLD && Valid()
    {
      findings, runs, items, applied, log := map[], map[], [], {}, [];
      sightings := map[];
    }

    /** Intake hands over a bundle; `order` lists its normalized findings. */
    method AddRun(run: Run, jobs: seq<JobEvidence>, order: seq<Key>) returns (outcome: IngestOutcome)
      requires Valid()
      requires forall k :: k in order <==> k in run.reports
      requires forall i, j :: 0 <= i < j < |order| ==> order[i] != order[j]
      modifies this`findings, this`runs, this`sightings
      ensures Valid()
      ensures outcome.Ingested? <==> run.id !in old(runs) && IsBundle(jobs, run.platform)
      ensures Store(findings, runs) ==
        if outcome.Ingested? then Ingest(old(Store(findings, runs)), run) else old(Store(findings, runs))
      ensures !outcome.Ingested? ==> sightings == old(sightings)
    {
      hide Ingest, IsBundle, Breaks, Opens, Written, OfKind, Suppressed;
      var store := new FindingStore.Over(findings, runs);
      outcome := store.IngestRun(run, jobs, order);
      if outcome.Ingested? {
        var rows := WriteSightings(run, order);
        IngestAddsRun(Store(findings, runs), run);
        findings, runs, sightings := store.findings, store.runs, sightings[run.id := rows];
      }
    }

    /** The latest run that finished after `run` and already reported or closed `f`. */
    method LaterRunSaw(run: Run, f: Finding) returns (latest: Option<nat>)
      ensures latest.Some? <==> IsSuperseded(runs, run, f)
      ensures latest.Some? <==>
        run.finished.Some? &&
        exists o :: o in runs && o != run.id && (o == f.lastSeen || Some(o) == f.closedBy) &&
                    runs[o].finished.Some? && run.finished.value < runs[o].finished.value
      ensures latest.Some? ==>
        IsLater(runs, run, latest.value) &&
        latest.value in {f.lastSeen} + (if f.closedBy.Some? then {f.closedBy.value} else {})
      ensures latest.Some? ==>
        forall o :: (o == f.lastSeen || Some(o) == f.closedBy) && IsLater(runs, run, o) ==>
          runs[o].finished.value <= runs[latest.value].finished.value
    {
      latest := if IsLater(runs, run, f.lastSeen) then Some(f.lastSeen) else None;
      if f.closedBy.Some? && IsLater(runs, run, f.closedBy.value) {
        if latest.None? || runs[f.closedBy.value].finished.value > runs[latest.value].finished.value {
          latest := f.closedBy;
        }
      }
    }

    /** Weighs the run for one member of a merged item. */
    method WeighMember(k: Key, it: WorkItem, run: Run, rows: seq<Sighting>, anc: Ancestry)
      returns (outcome: ClosingOutcome)
      requires k in findings && findings[k].key == k
      requires forall s :: s in rows <==> Written(run, s)
      modifies this`findings
      ensures outcome == MemberOutcome(runs, run, it, old(findings)[k], anc)
      ensures findings == old(findings)[k := Resolved(old(findings)[k], outcome, run.id)]
    {
      var f := findings[k];
      var later := LaterRunSaw(run, f);
      var reasons := ValidateClosingRun(run, f, it.merge, anc, NeedsPolicy(it), later.Some?);
      var view := SightingsFor(k.family, run, rows);
      outcome := DecideOutcome(run, f, view, reasons == [], it.resolution == DisagreementAccepted, it.issue);
      match outcome {
        case FixedOutcome => f := Shift(f, ClosingAbsent, Some(run.id));
        case ApprovedOutcome => f := Shift(f, ClosingVex, Some(run.id));
        case DisagreementOutcome => f := Shift(f, ResolveDisagreement, Some(run.id));
        case _ =>
      }
      findings := findings[k := f];
    }

    /** First loop of the closing evaluation: every member is weighed once. */
    method WeighMembers(i: nat, run: Run, rows: seq<Sighting>, anc: Ancestry)
      returns (outcomes: map<Key, ClosingOutcome>)
      requires KeyedByKey(findings) && i < |items|
      requires forall s :: s in rows <==> Written(run, s)
      modifies this`findings
      ensures findings.Keys == old(findings).Keys
      ensures forall k :: k in outcomes <==> IsMember(old(Abs()), i, k)
      ensures forall k :: k in outcomes ==> k in old(findings) && outcomes[k] == OutcomeIn(old(Abs()), run, i, k, anc)
      ensures forall k :: k in findings ==>
        findings[k] == if k in outcomes then ResolvedIn(old(Abs()), run, i, k, anc) else old(findings)[k]
    {
      hide MemberOutcome, Resolved, Written;
      ghost var w := Abs();
      var members := set k | k in findings && findings[k].owner == Some(i);
      var rest := members;
      outcomes := map[];
      while rest != {}
        invariant rest <= members && findings.Keys == w.findings.Keys
        invariant forall k :: k in outcomes <==> k in members && k !in rest
        invariant forall k :: k in outcomes ==> k in w.findings && outcomes[k] == OutcomeIn(w, run, i, k, anc)
        invariant forall k :: k in findings ==>
          findings[k] == if k in outcomes then ResolvedIn(w, run, i, k, anc) else w.findings[k]
        decreases |rest|
      {
        var k :| k in rest;
        var outcome := WeighMember(k, items[i], run, rows, anc);
        outcomes := outcomes[k := outcome];
        rest := rest - {k};
      }
    }

    /** Second loop: members still present go back to a human. */
    method BlockPresent(present: set<Key>)
      requires present <= findings.Keys
      modifies this`findings
      ensures findings.Keys == old(findings).Keys
      ensures forall k :: k in findings ==>
        findings[k] == if k in present then Shift(old(findings)[k], BlockByHuman, None) else old(findings)[k]
    {
      ghost var before := findings;
      var rest := present;
      while rest != {}
        invariant rest <= present && findings.Keys == before.Keys
        invariant forall k :: k in findings ==>
          findings[k] == if k in present && k !in rest then Shift(before[k], BlockByHuman, None) else before[k]
        decreases |rest|
      {
        var k :| k in rest;
        findings := findings[k := Shift(findings[k], BlockByHuman, None)];
        rest := rest - {k};
      }
    }

    method MoveItem(i: nat, e: WorkItemEvent)
      requires i < |items|
      modifies this`items
      ensures items == old(items)[i := old(items)[i].(state := Advance(old(items)[i].state, e))]
    {
      items := items[i := items[i].(state := Advance(items[i].state, e))];
    }

    /** The item's own transitions once its members are weighed. */
    method SettleItem(i: nat, verdict: Verdict, present: set<Key>)
      requires i < |items| && present <= findings.Keys
      modifies this`findings, this`items
      ensures items == old(items)[i := old(items)[i].(state := StateAfter(old(items)[i].state, verdict))]
      ensures findings.Keys == old(findings).Keys
      ensures forall k :: k in findings ==>
        findings[k] ==
          if verdict == ShowsPresent && k in present then Shift(old(findings)[k], BlockByHuman, None)
            else old(findings)[k]
    {
      if verdict == Undecided {
        MoveItem(i, RescanStarted);
        return;
      }
      if items[i].state == Merged {
        MoveItem(i, RescanStarted);
      }
      match verdict
      case AllResolved => MoveItem(i, RescanVerified);
      case ShowsPresent =>
        MoveItem(i, RescanShowsPresent);
        BlockPresent(present);
      case _ =>
    }

    /** Evaluates one run for one merged item and its members. */
    method CloseWorkItem(i: nat, run: Run, rows: seq<Sighting>, anc: Ancestry)
      requires KeyedByKey(findings) && i < |items|
      requires forall s :: s in rows <==> Written(run, s)
      modifies this`findings, this`items
      ensures Abs() == CloseItem(old(Abs()), run, i, anc)
      ensures KeyedByKey(findings)
    {
      ghost var w := Abs();
      var outcomes := WeighMembers(i, run, rows, anc);
      var present := set k | k in outcomes && outcomes[k] == StillPresent;
      var verdict := VerdictFrom(outcomes, findings);
      VerdictOf(w, run, i, anc, outcomes, findings);
      SettleItem(i, verdict, present);
      ClosedTables(w, run, i, anc, outcomes, present, verdict, findings);
    }

    /** Whether a closed finding is a regression in this run. */
    method SeesRegression(f: Finding, run: Run, rows: seq<Sighting>, present: set<Family>, anc: Ancestry)
      returns (reopens: bool)
      requires forall s :: s in rows <==> Written(run, s)
      requires forall family :: family in present <==> SomeonePresent(run, family)
      requires IsClosed(f.state)
      ensures reopens <==> Reopens(runs, run, f, anc)
    {
      if f.key.family !in present {
        return false;
      }
      var later := LaterRunSaw(run, f);
      var reasons := ValidateClosingRun(run, f, ClosingSha(runs, f), anc, false, later.Some?);
      if reasons != [] {
        return false;
      }
      if f.state == ApprovedDisposition {
        var view := SightingsFor(f.key.family, run, rows);
        var suppressed := view.policy != map[] && forall d | d in view.policy :: !view.policy[d];
        SuppressedView(run, f.key.family, view);
        if suppressed {
          return false;
        }
      }
      reopens := NextFindingState(f.state, Reappeared).Some?;
    }

    /** Closed findings whose family is present again are reopened and lose their work item. */
    method ReopenRegressions(run: Run, rows: seq<Sighting>, anc: Ancestry)
      requires forall s :: s in rows <==> Written(run, s)
      modifies this`findings
      ensures Abs() == Regressions(old(Abs()), run, anc)
    {
      hide IsClosingRun, IsSuperseded, SomeonePresent, PolicySuppressed;
      ghost var w := Abs();
      var present := PresentFamilies(run, rows);
      var closed := set k | k in findings && IsClosed(findings[k].state);
      var rest := closed;
      while rest != {}
        invariant rest <= closed && findings.Keys == w.findings.Keys
        invariant forall k :: k in findings ==>
          findings[k] == if k in closed && k !in rest then RegressOne(runs, run, w.findings[k], anc) else w.findings[k]
        decreases |rest|
      {
        var k :| k in rest;
        var reopens := SeesRegression(findings[k], run, rows, present, anc);
        if reopens {
          findings := findings[k := Shift(findings[k], Reappeared, Some(run.id)).(owner := None)];
        }
        rest := rest - {k};
      }
      assert findings == Regressions(w, run, anc).findings;
    }

    /** Whether an ungrouped or undispatched finding disappeared on its own. */
    method SeesDrift(f: Finding, run: Run, anc: Ancestry) returns (gone: bool)
      requires Driftable(items, run, f)
      ensures gone <==> IsClosingRun(run, f, None, anc, false, IsSuperseded(runs, run, f))
    {
      var later := LaterRunSaw(run, f);
      var reasons := ValidateClosingRun(run, f, None, anc, false, later.Some?);
      gone := reasons == [];
    }

    /** One candidate of the drift loop; returns the undispatched item it counts towards. */
    method DriftMember(k: Key, run: Run, present: set<Family>, anc: Ancestry) returns (touch: Option<nat>)
      requires k in findings && findings[k].state in {Open, Unclassified, Grouped} && findings[k].lastSeen != run.id
      requires forall family :: family in present <==> SomeonePresent(run, family)
      modifies this`findings
      ensures findings == old(findings)[k := DriftOne(old(Abs()), run, old(findings)[k], anc)]
      ensures touch ==
        if old(findings)[k].state == Grouped && Driftable(items, run, old(findings)[k]) then old(findings)[k].owner
          else None
    {
      var f := findings[k];
      touch := None;
      if f.key.family in present {
        return;
      }
      if f.state == Grouped && f.owner.Some? {
        if !(f.owner.value < |items| && items[f.owner.value].state in {Queued, IssueOpen}) {
          return;
        }
        touch := f.owner;
      }
      var gone := SeesDrift(f, run, anc);
      if gone {
        findings := findings[k := Shift(f, ClosingAbsent, Some(run.id))];
      }
    }

    method CloseDrifted(run: Run, rows: seq<Sighting>, anc: Ancestry) returns (touched: set<nat>)
      requires forall s :: s in rows <==> Written(run, s)
      modifies this`findings
      ensures findings == Drift(old(Abs()), run, anc).findings
      ensures forall i: nat :: i in touched <==> i < |items| && Touched(old(Abs()), run, i)
    {
      hide DriftProgress, DriftOne, Drift, Touched, Driftable, SomeonePresent, Written, IsClosingRun, IsSuperseded;
      ghost var w := Abs();
      var present := PresentFamilies(run, rows);
      var candidates := set k | k in findings && findings[k].state in {Open, Unclassified, Grouped} &&
        findings[k].lastSeen != run.id;
      var rest := candidates;
      touched := {};
      DriftStarts(w, run, anc);
      assert candidates - rest == {};
      while rest != {}
        invariant rest <= candidates
        invariant DriftProgress(w, run, anc, candidates - rest, findings, touched)
        decreases |rest|
      {
        var k :| k in rest;
        ghost var mid := Abs();
        DriftAdvances(w, run, anc, candidates - rest, findings, touched, k);
        SameDrift(w, mid, run, w.findings[k], anc);
        var touch := DriftMember(k, run, present, anc);
        if touch.Some? {
          touched := touched + {touch.value};
        }
        OneFewer(candidates, rest, k);
        rest := rest - {k};
      }
      assert candidates - rest == candidates;
      DriftEnds(w, run, anc, candidates, findings, touched);
    }

    /** Closes what drifted away and retires the undispatched items that leaves without members. */
    method ApplyDrift(run: Run, rows: seq<Sighting>, anc: Ancestry)
      requires forall s :: s in rows <==> Written(run, s)
      modifies this`findings, this`items
      ensures Abs() == Drift(old(Abs()), run, anc)
    {
      hide Drift, Touched, Written;
      ghost var w := Abs();
      var touched := CloseDrifted(run, rows, anc);
      DriftShape(w, run, anc);
      var rest := touched;
      while rest != {}
        invariant rest <= touched && |items| == |w.items| && findings == Drift(w, run, anc).findings
        invariant forall i :: 0 <= i < |items| ==>
          items[i] == if i in touched && i !in rest then Drift(w, run, anc).items[i] else w.items[i]
        decreases |rest|
      {
        var i :| i in rest;
        var members := set k | k in findings && findings[k].owner == Some(i);
        RetiresWhenAllClose(w, run, i, anc, findings, members);
        if members != {} && forall k | k in members :: IsClosed(findings[k].state) {
          MoveItem(i, WorkItemEvent.Superseded);
        }
        rest := rest - {i};
      }
      assert items == Drift(w, run, anc).items;
    }

    /** Every merged item, then regressions, then drift. */
    method EvaluateRun(run: Run, rows: seq<Sighting>, anc: Ancestry)
      requires KeyedByKey(findings) && forall s :: s in rows <==> Written(run, s)
      modifies this`findings, this`items
      ensures Abs() == Drift(Regressions(CloseBelow(old(Abs()), run, anc, |old(items)|), run, anc), run, anc)
    {
      hide CloseItem, Drift, Regressions, Written;
      ghost var w := Abs();
      var before := items;
      var i := 0;
      while i < |before|
        invariant 0 <= i <= |before| && Abs() == CloseBelow(w, run, anc, i) && KeyedByKey(findings)
      {
        if AwaitsClosure(before[i]) {
          CloseWorkItem(i, run, rows, anc);
        }
        i := i + 1;
      }
      ReopenRegressions(run, rows, anc);
      ApplyDrift(run, rows, anc);
    }

    /** Evaluates one ingested run in one transaction. When a GitHub call fails, everything written is
        rolled back and the run stays pending. */
    method ApplyScanRun(r: nat, anc: Ancestry) returns (ok: bool)
      requires Valid() && r in runs
      modifies this`findings, this`items, this`applied, this`log
      ensures Abs() == Apply(old(Abs()), r, anc, ok)
      ensures r in old(applied) ==> ok
    {
      ok := true;
      if r in applied {
        return;
      }
      var begun := (findings, items, applied, log);
      EvaluateRun(runs[r], sightings[r], anc);
      applied, log := applied + {r}, log + [r];
      var fails: bool := *;
      if fails {
        findings, items, applied, log := begun.0, begun.1, begun.2, begun.3;
        ok := false;
      }
    }

    /** Runs not yet evaluated, oldest scan first. */
    method PendingScanRuns() returns (order: seq<nat>)
      ensures forall r :: r in order <==> r in runs && r !in applied
      ensures IsOrdered(order, (a: nat, b: nat) => PendingBefore(old(runs), a, b))
      ensures forall a, b :: 0 <= a < b < |order| ==>
        var x, y := runs[order[a]], runs[order[b]];
        (x.finished.Some? ==> y.finished.Some? && x.finished.value <= y.finished.value) &&
        (x.finished == y.finished ==>
          x.ingestedAt <= y.ingestedAt && (x.ingestedAt == y.ingestedAt ==> order[a] < order[b]))
    {
      var here := runs;
      order := Ordered(set r | r in runs && r !in applied, (a: nat, b: nat) => PendingBefore(here, a, b));
    }

    /** One pass over the pending runs: the runs it applies are a prefix of them in scan order, each
        evaluated once on what the one before it committed. It stops early only at a run whose
        evaluation failed and was rolled back. */
    method ApplyPendingScanRuns(anc: Ancestry) returns (order: seq<nat>, done: nat, ghost worlds: seq<World>)
      requires Valid()
      modifies this`findings, this`items, this`applied, this`log
      ensures Valid() && runs == old(runs)
      ensures forall r :: r in order <==> r in runs && r !in old(applied)
      ensures IsOrdered(order, (a: nat, b: nat) => PendingBefore(old(runs), a, b))
      ensures done <= |order| && IsPass(worlds, order[..done], anc) && worlds[0] == old(Abs()) && worlds[done] == Abs()
      ensures log == old(log) + order[..done]
      ensures forall r :: r in applied <==> r in old(applied) || r in order[..done]
    {
      hide Apply, Evaluates, PendingBefore, Written, KeyedByKey;
      order := PendingScanRuns();
      worlds := [Abs()];
      done := 0;
      while done < |order|
        invariant done <= |order| && Valid() && runs == old(runs)
        invariant IsPass(worlds, order[..done], anc) && worlds[0] == old(Abs()) && worlds[done] == Abs()
        invariant log == old(log) + order[..done]
        invariant forall r :: r in applied <==> r in old(applied) || r in order[..done]
      {
        var r := order[done];
        assert r in order && r !in order[..done];
        ghost var before := Abs();
        var ok := ApplyScanRun(r, anc);
        ApplyFrame(before, r, anc, ok);
        if !ok {
          return;
        }
        PassGrows(worlds, order, done, anc, before, Abs());
        worlds := worlds + [Abs()];
        assert order[..done + 1] == order[..done] + [r];
        done := done + 1;
      }
    }

    /** Runs already evaluated whose scan finished at or after the merge, oldest first. */
    method RunsToReplay(at: int) returns (order: seq<nat>)
      ensures IsReplayOrder(Abs(), at, order)
      ensures forall r :: r in order <==>
        r in applied && r in runs && runs[r].finished.Some? && at <= runs[r].finished.value
      ensures forall a, b :: 0 <= a < b < |order| ==>
        order[a] != order[b] && runs[order[a]].finished.value <= runs[order[b]].finished.value
    {
      var here := runs;
      order := Ordered(set r | r in applied && Replays(World(findings, runs, items, applied, log), at, r),
                       (a: nat, b: nat) => ReplayBefore(here, a, b));
    }

    /** Weighs a freshly merged item against runs evaluated before its merge was seen, until one of
        them settles it. */
    method CloseFromAppliedRuns(i: nat, at: int, anc: Ancestry) returns (ghost order: seq<nat>)
      requires Valid() && i < |items|
      modifies this`findings, this`items
      ensures IsReplayOrder(old(Abs()), at, order) && Abs() == ReplayRuns(old(Abs()), i, order, anc)
      ensures KeyedByKey(findings)
    {
      hide MemberAfter, StateAfter, ItemVerdict, IsClosingRun;
      var queue := RunsToReplay(at);
      order := queue;
      ghost var w := Abs();
      var n := 0;
      while n < |queue| && AwaitsClosure(items[i])
        invariant 0 <= n <= |queue| && Valid() && |items| == |w.items|
        invariant runs == w.runs && applied == w.applied && log == w.log
        invariant forall r :: r in queue ==> r in runs
        invariant ReplayRuns(w, i, queue, anc) == ReplayRuns(Abs(), i, queue[n..], anc)
      {
        assert queue[n] in queue;
        assert queue[n..][1..] == queue[n + 1..];
        CloseWorkItem(i, runs[queue[n]], sightings[queue[n]], anc);
        n := n + 1;
      }
    }

    method MergeItem(i: nat, sha: Option<nat>, at: int)
      requires i < |items| && TracksPr(items[i].state)
      modifies this`items
      ensures items == old(items)[i := old(items)[i].(merge := sha, mergedAt := Some(at), state := Merged)]
    {
      MergedByAHuman(items[i].state);
      items := items[i := items[i].(merge := sha, mergedAt := Some(at))];
      if items[i].state !in {ReadyForHuman, NeedsHuman} {
        MoveItem(i, Blocked);
      }
      MoveItem(i, HumanMerged);
    }

    method MergeMembers(i: nat)
      modifies this`findings
      ensures findings == MergedFindings(old(Abs()), i)
      ensures findings.Keys == old(findings).Keys
      ensures forall k :: k in findings ==>
        findings[k] == if old(findings)[k].owner == Some(i) && old(findings)[k].state == InRemediation
                       then old(findings)[k].(state := FindingAwaitingRescan) else old(findings)[k]
    {
      ghost var w := Abs();
      var members := set k | k in findings && findings[k].owner == Some(i);
      var rest := members;
      while rest != {}
        invariant rest <= members && findings.Keys == w.findings.Keys
        invariant forall k :: k in findings ==>
          findings[k] == if k in members && k !in rest then Shift(w.findings[k], PrMerged, None) else w.findings[k]
        decreases |rest|
      {
        var k :| k in rest;
        findings := findings[k := Shift(findings[k], PrMerged, None)];
        rest := rest - {k};
      }
      assert findings == MergedFindings(w, i);
    }

    /** The merged branch of applying a polled pull request: an item not yet ready is escalated first,
        so a merge is always the human's. */
    method ObserveMerge(i: nat, sha: Option<nat>, at: int, anc: Ancestry) returns (ghost order: seq<nat>)
      requires Valid() && i < |items| && TracksPr(items[i].state)
      modifies this`findings, this`items
      ensures IsReplayOrder(old(Abs()), at, order) && Abs() == MergeSeen(old(Abs()), i, sha, at, order, anc)
      ensures |items| == |old(items)| &&
        items[i] == old(items)[i].(state := items[i].state, merge := sha, mergedAt := Some(at))
      ensures items[i].state in {Merged, AwaitingRescan, Verified, NeedsHuman}
    {
      ghost var w := Abs();
      MergeItem(i, sha, at);
      MergeMembers(i);
      assert Abs() == Merge(w, i, sha, at);
      order := CloseFromAppliedRuns(i, at, anc);
      ReplayKeepsItem(Merge(w, i, sha, at), i, order, anc);
      assert forall r :: Replays(w, at, r) <==> Replays(Merge(w, i, sha, at), at, r);
    }
  }

  /** A replay moves the item only along its closing. */
  lemma {:induction false} ReplayKeepsItem(w: World, i: nat, order: seq<nat>, anc: Ancestry)
    requires i < |w.items| && forall r :: r in order ==> r in w.runs
    requires w.items[i].state in {Merged, AwaitingRescan, Verified, NeedsHuman}
    ensures var v := ReplayRuns(w, i, order, anc);
      v.items[i] == w.items[i].(state := v.items[i].state) &&
      v.items[i].state in {Merged, AwaitingRescan, Verified, NeedsHuman}
    decreases |order|
  {
    hide MemberAfter, ItemVerdict, StateAfter;
    if order != [] && AwaitsClosure(w.items[i]) {
      ClosingStates(w.items[i].state, ItemVerdict(w, w.runs[order[0]], i, anc));
      ReplayKeepsItem(CloseItem(w, w.runs[order[0]], i, anc), i, order[1..], anc);
    }
  }

  lemma ClosingStates(s: WorkItemState, v: Verdict)
    requires s in {Merged, AwaitingRescan}
    ensures StateAfter(s, v) in {Merged, AwaitingRescan, Verified, NeedsHuman}
  {
  }

  lemma MergedByAHuman(s: WorkItemState)
    requires TracksPr(s)
    ensures Advance(if s in {ReadyForHuman, NeedsHuman} then s else Advance(s, Blocked), HumanMerged) == Merged
  {
  }

  lemma IngestAddsRun(s: Store, run: Run)
    requires KeyedByKey(s.findings) && run.id !in s.runs
    ensures Ingest(s, run).runs == s.runs[run.id := run]
  {
  }

  lemma ApplyFrame(w: World, r: nat, anc: Ancestry, ok: bool)
    requires r in w.runs && KeyedByKey(w.findings)
    ensures var v := Apply(w, r, anc, ok);
      v.runs == w.runs && KeyedByKey(v.findings) && v.findings.Keys == w.findings.Keys && |v.items| == |w.items| &&
      v.applied == (if ok || r in w.applied then w.applied + {r} else w.applied) &&
      v.log == if ok && r !in w.applied then w.log + [r] else w.log
    ensures !ok ==> Apply(w, r, anc, ok) == w
  {
    KeysStay(w, w.runs[r], anc, |w.items|);
  }

  lemma PassGrows(worlds: seq<World>, order: seq<nat>, done: nat, anc: Ancestry, before: World, after: World)
    requires done < |order| && IsPass(worlds, order[..done], anc) && worlds[done] == before
    requires order[done] in before.runs && order[done] !in before.applied &&
      after == Apply(before, order[done], anc, true)
    ensures IsPass(worlds + [after], order[..done + 1], anc)
  {
    var longer := worlds + [after];
    forall n | 0 <= n < done + 1 ensures Evaluates(longer[n], order[..done + 1][n], anc, longer[n + 1]) {
      if n < done {
        assert Evaluates(worlds[n], order[..done][n], anc, worlds[n + 1]);
      }
    }
  }

  // ---------------------------------------------------------------- orders

  /** Scan order with unknown finish times first, then by when the run was ingested. */
  predicate PendingBefore(runs: map<nat, Run>, a: nat, b: nat) {
    if a !in runs || b !in runs then a <= b
    else if runs[a].finished != runs[b].finished then
      runs[a].finished == None || (runs[b].finished.Some? && runs[a].finished.value < runs[b].finished.value)
    else if runs[a].ingestedAt != runs[b].ingestedAt then runs[a].ingestedAt < runs[b].ingestedAt
    else a <= b
  }

  predicate ReplayBefore(runs: map<nat, Run>, a: nat, b: nat) {
    if a !in runs || b !in runs || runs[a].finished.None? || runs[b].finished.None? then a <= b
    else if runs[a].finished != runs[b].finished then runs[a].finished.value < runs[b].finished.value
    else a <= b
  }

  ghost predicate IsOrdered(order: seq<nat>, before: (nat, nat) -> bool) {
    forall a, b :: 0 <= a < b < |order| ==> order[a] != order[b] && before(order[a], order[b])
  }

  /** Among ids of known runs the comparison is total and transitive. */
  ghost predicate Orders(before: (nat, nat) -> bool, ids: set<nat>) {
    (forall a, b :: a in ids && b in ids ==> before(a, b) || before(b, a)) &&
    (forall a, b, c :: a in ids && b in ids && c in ids && before(a, b) && before(b, c) ==> before(a, c))
  }

  /** Lists a set of ids in order, each once. */
  method Ordered(ids: set<nat>, before: (nat, nat) -> bool) returns (order: seq<nat>)
    requires Orders(before, ids)
    ensures forall r :: r in order <==> r in ids
    ensures IsOrdered(order, before)
  {
    order := [];
    var rest := ids;
    while rest != {}
      invariant rest <= ids && (forall r :: r in order <==> r in ids && r !in rest)
      invariant IsOrdered(order, before)
      invariant forall a, b :: a in order && b in rest ==> before(a, b)
      decreases |rest|
    {
      var least := Least(rest, before);
      order := order + [least];
      rest := rest - {least};
    }
  }

  method Least(ids: set<nat>, before: (nat, nat) -> bool) returns (least: nat)
    requires ids != {} && Orders(before, ids)
    ensures least in ids && forall b :: b in ids ==> before(least, b)
  {
    least :| least in ids;
    var rest := ids - {least};
    while rest != {}
      invariant rest <= ids && least in ids && forall b :: b in ids && b !in rest ==> before(least, b)
      decreases |rest|
    {
      var b :| b in rest;
      if !before(least, b) {
        least := b;
      }
      rest := rest - {b};
    }
  }

  /** The undispatched item a drift candidate counts towards. */
  function TouchOf(w: World, run: Run, k: Key): Option<nat> {
    if k in w.findings && w.findings[k].state == Grouped && Driftable(w.items, run, w.findings[k])
    then w.findings[k].owner else None
  }

  /** The drift loop after it has looked at `done`. */
  ghost predicate DriftProgress(
      w: World, run: Run, anc: Ancestry, done: set<Key>, after: map<Key, Finding>, touched: set<nat>) {
    done <= w.findings.Keys && after.Keys == w.findings.Keys &&
    (forall k :: k in after ==>
      after[k] == if k in done then DriftOne(w, run, w.findings[k], anc) else w.findings[k]) &&
    (forall i :: i in touched <==> exists k :: k in done && TouchOf(w, run, k) == Some(i))
  }

  lemma OneFewer<T>(all: set<T>, rest: set<T>, x: T)
    requires x in rest && rest <= all
    ensures all - (rest - {x}) == all - rest + {x} && x !in all - rest
  {
  }

  lemma DriftStarts(w: World, run: Run, anc: Ancestry)
    ensures DriftProgress(w, run, anc, {}, w.findings, {})
  {
  }

  /** Drift reads the items and runs, which its loop leaves alone. */
  lemma SameDrift(w: World, v: World, run: Run, f: Finding, anc: Ancestry)
    requires v.items == w.items && v.runs == w.runs
    ensures DriftOne(v, run, f, anc) == DriftOne(w, run, f, anc)
  {
  }

  lemma DriftAdvances(
      w: World, run: Run, anc: Ancestry, done: set<Key>, after: map<Key, Finding>, touched: set<nat>, k: Key)
    requires DriftProgress(w, run, anc, done, after, touched) && k in w.findings && k !in done
    ensures k in after && after[k] == w.findings[k]
    ensures DriftProgress(w, run, anc, done + {k}, after[k := DriftOne(w, run, after[k], anc)],
                          touched + match TouchOf(w, run, k) case Some(i) => {i} case None => {})
  {
    var more := touched + match TouchOf(w, run, k) case Some(i) => {i} case None => {};
    forall i ensures i in more <==> exists q :: q in done + {k} && TouchOf(w, run, q) == Some(i) {
      if i in touched {
        var q :| q in done && TouchOf(w, run, q) == Some(i);
        assert q in done + {k};
      }
      if TouchOf(w, run, k) == Some(i) {
        assert k in done + {k};
      }
    }
  }

  lemma DriftEnds(w: World, run: Run, anc: Ancestry, candidates: set<Key>, after: map<Key, Finding>, touched: set<nat>)
    requires DriftProgress(w, run, anc, candidates, after, touched)
    requires candidates == set k | k in w.findings && w.findings[k].state in {Open, Unclassified, Grouped} &&
      w.findings[k].lastSeen != run.id
    ensures after == Drift(w, run, anc).findings
    ensures forall i: nat :: i in touched <==> i < |w.items| && Touched(w, run, i)
  {
    forall i: nat ensures i in touched <==> i < |w.items| && Touched(w, run, i) {
      if i in touched {
        var k :| k in candidates && TouchOf(w, run, k) == Some(i);
        assert IsMember(w, i, k);
      }
      if Touched(w, run, i) {
        var k :| IsMember(w, i, k) && w.findings[k].state == Grouped && Driftable(w.items, run, w.findings[k]);
        assert k in candidates && TouchOf(w, run, k) == Some(i);
      }
    }
  }

  /** Drift touches nothing but findings and the items it retires. */
  lemma DriftShape(w: World, run: Run, anc: Ancestry)
    ensures Drift(w, run, anc) == w.(findings := Drift(w, run, anc).findings, items := Drift(w, run, anc).items)
    ensures |Drift(w, run, anc).items| == |w.items|
    ensures forall i: nat :: i < |w.items| && !Touched(w, run, i) ==> Drift(w, run, anc).items[i] == w.items[i]
  {
    hide DriftOne, Touched;
  }

  lemma RetiresWhenAllClose(w: World, run: Run, i: nat, anc: Ancestry, after: map<Key, Finding>, members: set<Key>)
    requires i < |w.items| && Touched(w, run, i) && after == Drift(w, run, anc).findings
    requires members == set k | k in after && after[k].owner == Some(i)
    ensures members != {}
    ensures Drift(w, run, anc).items[i] ==
      if forall k :: k in members ==> IsClosed(after[k].state)
      then w.items[i].(state := Advance(w.items[i].state, WorkItemEvent.Superseded)) else w.items[i]
  {
    hide IsClosingRun, IsSuperseded, SomeonePresent, Driftable;
    forall k | k in w.findings ensures DriftOne(w, run, w.findings[k], anc).owner == w.findings[k].owner {
    }
    forall k ensures k in members <==> IsMember(w, i, k) {
    }
    var k :| IsMember(w, i, k) && w.findings[k].state == Grouped && Driftable(w.items, run, w.findings[k]);
    assert k in members;
  }

  lemma SuppressedView(run: Run, family: Family, view: View)
    requires forall d :: d in view.policy <==> PolicySeen(run, family, d)
    requires forall d :: Shows(view.policy, d) <==> PolicyPresent(run, family, d)
    ensures PolicySuppressed(run, family) <==> view.policy != map[] && forall d :: d in view.policy ==> !view.policy[d]
  {
    forall d | d in view.policy ensures view.policy[d] <==> PolicyPresent(run, family, d) {
      assert Shows(view.policy, d) <==> PolicyPresent(run, family, d);
    }
    if PolicySuppressed(run, family) {
      var d := if RawPresent(run, family, Trivy) then Trivy else Grype;
      assert PolicySeen(run, family, d) && d in view.policy;
      forall e | e in view.policy ensures !view.policy[e] {
        assert e == Trivy || e == Grype;
      }
    }
    if view.policy != map[] && forall d :: d in view.policy ==> !view.policy[d] {
      var d :| d in view.policy;
      assert PolicySeen(run, family, d) && (d == Trivy || d == Grype);
      forall e ensures !PolicyPresent(run, family, e) {
        assert Shows(view.policy, e) <==> PolicyPresent(run, family, e);
      }
    }
  }

  lemma ClosedTables(w: World, run: Run, i: nat, anc: Ancestry, outcomes: map<Key, ClosingOutcome>, present: set<Key>,
                     verdict: Verdict, after: map<Key, Finding>)
    requires KeyedByKey(w.findings) && i < |w.items| && after.Keys == w.findings.Keys &&
      verdict == ItemVerdict(w, run, i, anc)
    requires forall k :: k in outcomes <==> IsMember(w, i, k)
    requires forall k :: k in outcomes ==> k in w.findings && outcomes[k] == OutcomeIn(w, run, i, k, anc)
    requires present == set k | k in outcomes && outcomes[k] == StillPresent
    requires forall k :: k in after ==>
      var g := if k in outcomes then ResolvedIn(w, run, i, k, anc) else w.findings[k];
      after[k] == if verdict == ShowsPresent && k in present then Shift(g, BlockByHuman, None) else g
    ensures after == CloseItem(w, run, i, anc).findings && KeyedByKey(after)
  {
    hide ItemVerdict, IsClosingRun, IsSuperseded, NextFindingState;
    var v := CloseItem(w, run, i, anc);
    forall k | k in after ensures after[k] == v.findings[k] {
      if k in outcomes {
        assert IsMember(w, i, k);
      } else {
        assert !IsMember(w, i, k);
      }
    }
  }

  function VerdictFrom(outcomes: map<Key, ClosingOutcome>, after: map<Key, Finding>): Verdict {
    if exists k | k in outcomes :: outcomes[k] == NotApplicable then Undecided
    else if outcomes != map[] && (forall k | k in outcomes :: k in after && IsClosed(after[k].state)) then AllResolved
    else if exists k | k in outcomes :: outcomes[k] == StillPresent then ShowsPresent
    else NothingLeft
  }

  /** The verdict read off the collected outcomes. */
  lemma VerdictOf(
      w: World, run: Run, i: nat, anc: Ancestry, outcomes: map<Key, ClosingOutcome>, after: map<Key, Finding>)
    requires i < |w.items| && after.Keys == w.findings.Keys
    requires forall k :: k in outcomes <==> IsMember(w, i, k)
    requires forall k :: k in outcomes ==>
      k in w.findings && outcomes[k] == OutcomeIn(w, run, i, k, anc) && after[k] == ResolvedIn(w, run, i, k, anc)
    ensures ItemVerdict(w, run, i, anc) == VerdictFrom(outcomes, after)
  {
    forall o ensures AnyOutcome(w, run, i, anc, o) <==> exists k :: k in outcomes && outcomes[k] == o {
      if AnyOutcome(w, run, i, anc, o) {
        var k :| IsMember(w, i, k) && OutcomeIn(w, run, i, k, anc) == o;
        assert k in outcomes && outcomes[k] == o;
      }
      if k :| k in outcomes && outcomes[k] == o {
        assert IsMember(w, i, k);
      }
    }
    if AnyMember(w, i) {
      var k :| IsMember(w, i, k);
      assert k in outcomes;
    } else {
      assert outcomes.Keys == {};
    }
  }
}
