/** Every `fixed` is backed by evidence, over all histories; stale evidence neither closes nor
    reopens; every run is evaluated once. */
module ClosingSoundness {
  import opened Domain
  import opened StateTables
  import opened Evidence
  import opened Persist
  import opened Closer
  import opened Closing

  // ---------------------------------------------------------------- histories

  datatype Step =
    | IngestStep(run: Run)
    | EvaluateStep(r: nat, anc: Ancestry, ok: bool)
    | MergeStep(i: nat, sha: Option<nat>, at: int, order: seq<nat>, anc: Ancestry)
    | GroupStep(k: Key, i: nat)                 // a finding joins a work item
    | FindingStep(k: Key, e: FindingEvent)      // remediation starts, or its issue is closed
    | ItemStep(i: nat, it: WorkItem)            // everything else that happens to a work item
    | NewItemStep(it: WorkItem)

  ghost predicate Enabled(w: World, s: Step) {
    match s
    case IngestStep(run) => run.id !in w.runs
    case EvaluateStep(r, _, _) => r in w.runs
    case MergeStep(i, _, at, order, _) => i < |w.items| && TracksPr(w.items[i].state) && IsReplayOrder(w, at, order)
    case GroupStep(k, i) =>
      k in w.findings && i < |w.items| && w.findings[k].state in {Open, Regression} &&
      w.items[i].state !in {Verified, Abandoned}
    case FindingStep(k, e) => k in w.findings && e in {RemediationStarted, BlockByHuman}
    case ItemStep(i, it) => i < |w.items| && (it.state == Verified <==> w.items[i].state == Verified)
    case NewItemStep(it) => it.state != Verified
  }

  ghost function Next(w: World, s: Step): World
    requires Enabled(w, s) && KeyedByKey(w.findings)
  {
    match s
    case IngestStep(run) =>
      var t := Ingest(Store(w.findings, w.runs), run);
      w.(findings := t.findings, runs := t.runs)
    case EvaluateStep(r, anc, ok) => Apply(w, r, anc, ok)
    case MergeStep(i, sha, at, order, anc) => MergeSeen(w, i, sha, at, order, anc)
    case GroupStep(k, i) => w.(findings := w.findings[k := Shift(w.findings[k], JoinGroup, None).(owner := Some(i))])
    case FindingStep(k, e) => w.(findings := w.findings[k := Shift(w.findings[k], e, None)])
    case ItemStep(i, it) => w.(items := w.items[i := it])
    case NewItemStep(it) => w.(items := w.items + [it])
  }

  // ---------------------------------------------------------------- what backs a fixed finding

  /** A job that proves absence for `f`, up to the image it scanned, which later scans may rewrite. */
  predicate FreshEnough(jobs: seq<Job>, name: JobName, f: Finding) {
    var j := JobNamed(jobs, name);
    j.Some? && j.value.success && j.value.version.Some? && j.value.version.value >= 0 &&
    (f.openingDb.Some? ==> j.value.db.Some? && j.value.db.value >= f.openingDb.value)
  }

  ghost predicate ClosingGrade(run: Run, f: Finding) {
    run.repo == ForkRepo && run.branch == RemediationBranch && run.trigger != PullRequest && run.status == Complete &&
    (forall j :: 0 <= j < |run.jobs| ==> run.jobs[j].success) &&
    if IsConfig(f.key.family.layer) then Ran(run.jobs, ConfigJob(Raw))
    else
      run.digest.Some? && f.openedBy != {} &&
      forall d :: d in f.openedBy ==> FreshEnough(run.jobs, ScannerJob(d, Raw), f)
  }

  /** The run named by a fixed finding is of closing grade and no watcher reported any version of the
      finding's family in it. */
  ghost predicate Backed(runs: map<nat, Run>, f: Finding) {
    f.state == Fixed ==>
      f.closedBy.Some? && f.closedBy.value in runs &&
      ClosingGrade(runs[f.closedBy.value], f) && !StillReported(runs[f.closedBy.value], f)
  }

  lemma ValidIsClosingGrade(run: Run, f: Finding, merge: Option<nat>, anc: Ancestry, policy: bool, superseded: bool)
    requires IsClosingRun(run, f, merge, anc, policy, superseded)
    ensures ClosingGrade(run, f)
  {
    if !IsConfig(f.key.family.layer) {
      forall d | d in f.openedBy ensures FreshEnough(run.jobs, ScannerJob(d, Raw), f) {
        assert NeedsJob(f, ScannerJob(d, Raw), policy);
        assert Fresh(run.jobs, ScannerJob(d, Raw), f);
      }
    }
  }

  lemma SameValidity(
      run: Run, f: Finding, g: Finding, merge: Option<nat>, anc: Ancestry, policy: bool, superseded: bool)
    requires g.key == f.key && g.openedBy == f.openedBy && g.openingDb == f.openingDb && g.description == f.description
    ensures IsClosingRun(run, g, merge, anc, policy, superseded) <==>
      IsClosingRun(run, f, merge, anc, policy, superseded)
  {
    forall n ensures Fresh(run.jobs, n, g) <==> Fresh(run.jobs, n, f) {
    }
    forall n ensures NeedsJob(g, n, policy) <==> NeedsJob(f, n, policy) {
    }
  }

  /** Validity for a merged item is at least validity for drift. */
  lemma MergedIsStricter(run: Run, f: Finding, merge: Option<nat>, anc: Ancestry, policy: bool, superseded: bool)
    requires IsClosingRun(run, f, merge, anc, policy, superseded)
    ensures IsClosingRun(run, f, None, anc, false, superseded)
  {
    forall d, m | NeedsJob(f, ScannerJob(d, m), false) && !IsConfig(f.key.family.layer)
      ensures Fresh(run.jobs, ScannerJob(d, m), f)
    {
      assert NeedsJob(f, ScannerJob(d, m), policy);
    }
  }

  /** Valid closing evidence for the finding as it is described now, ancestry apart. */
  ghost predicate IsEvidence(run: Run, f: Finding) {
    IsClosingRun(run, f, None, {}, false, false)
  }

  /** What the closing run must show, besides being valid evidence: for `fixed` silence, for an approved
      disposition the approval of the item's issue, for a resolved disagreement that a human accepted it and one
      detector is left. */
  ghost predicate Warrants(items: seq<WorkItem>, run: Run, f: Finding, s: FindingState) {
    match s
    case Fixed => !StillReported(run, f)
    case ApprovedDisposition =>
      f.owner.Some? && f.owner.value < |items| && !IsConfig(f.key.family.layer) &&
      ApprovedFor(run, f, items[f.owner.value].issue)
    case DisagreementResolved =>
      f.owner.Some? && f.owner.value < |items| && !IsConfig(f.key.family.layer) &&
      items[f.owner.value].resolution == DisagreementAccepted && ReportedByOne(run, f)
    case _ => true
  }

  /** What moves a finding in good faith: its identity, openers and sightings stay, and closing it is on the
      strength of a valid closing run that warrants it and that no later scan has overtaken. */
  ghost predicate FairMove(w: World, f: Finding, g: Finding) {
    g.key == f.key && g.openedBy == f.openedBy && g.openingDb == f.openingDb && g.description == f.description &&
    g.firstSeen == f.firstSeen && g.lastSeen == f.lastSeen &&
    (IsClosed(g.state) ==>
      (f.state == g.state && g.closedBy == f.closedBy) ||
      (g.closedBy.Some? && g.closedBy.value in w.runs &&
       var run := w.runs[g.closedBy.value];
       IsEvidence(run, f) && Warrants(w.items, run, f, g.state) && !IsLater(w.runs, run, f.lastSeen)))
  }

  ghost predicate Fair(w: World, v: World) {
    v.runs == w.runs && v.findings.Keys == w.findings.Keys &&
    forall k :: k in w.findings ==> FairMove(w, w.findings[k], v.findings[k])
  }

  /** No finding changes its item, though it may lose it, and what a human said about the items stays. */
  ghost predicate Steady(w: World, v: World) {
    v.findings.Keys == w.findings.Keys && |v.items| == |w.items| &&
    (forall k :: k in w.findings ==> v.findings[k].owner in {None, w.findings[k].owner}) &&
    forall i :: 0 <= i < |w.items| ==>
      v.items[i].issue == w.items[i].issue && v.items[i].resolution == w.items[i].resolution
  }

  /** Fixed findings are left exactly as they are. */
  ghost predicate LeavesFixed(w: World, v: World) {
    v.findings.Keys == w.findings.Keys &&
    forall k :: k in w.findings && w.findings[k].state == Fixed ==> v.findings[k] == w.findings[k]
  }

  lemma MoveTwice(w: World, u: World, f: Finding, g: Finding, h: Finding)
    requires u.runs == w.runs && |u.items| == |w.items| && g.owner in {None, f.owner}
    requires forall i :: 0 <= i < |w.items| ==>
      u.items[i].issue == w.items[i].issue && u.items[i].resolution == w.items[i].resolution
    requires FairMove(w, f, g) && FairMove(u, g, h)
    ensures FairMove(w, f, h)
  {
    hide IsClosingRun, StillReported, ReportedBy;
    if h.closedBy.Some? && h.closedBy.value in w.runs {
      var run := w.runs[h.closedBy.value];
      SameGrade(run, f, g);
      SameReports(run, f, g);
      SameValidity(run, f, g, None, {}, false, false);
    }
  }

  lemma FairTwice(w: World, u: World, v: World)
    requires Fair(w, u) && Steady(w, u) && Fair(u, v)
    ensures Fair(w, v)
  {
    hide FairMove;
    forall k | k in w.findings ensures FairMove(w, w.findings[k], v.findings[k]) {
      MoveTwice(w, u, w.findings[k], u.findings[k], v.findings[k]);
    }
  }

  lemma BothFair(w: World, u: World, v: World)
    requires Fair(w, u) && Steady(w, u) && LeavesFixed(w, u)
    requires Fair(u, v) && Steady(u, v) && LeavesFixed(u, v)
    ensures Fair(w, v) && Steady(w, v) && LeavesFixed(w, v)
  {
    hide FairMove;
    FairTwice(w, u, v);
  }

  lemma SameReports(run: Run, f: Finding, g: Finding)
    requires g.key == f.key && g.openedBy == f.openedBy
    ensures forall issue :: ApprovedFor(run, g, issue) <==> ApprovedFor(run, f, issue)
    ensures ReportedByOne(run, g) <==> ReportedByOne(run, f)
  {
    forall scanners ensures ReportedBy(run, g, scanners) <==> ReportedBy(run, f, scanners) {
    }
  }

  lemma SameGrade(run: Run, f: Finding, g: Finding)
    requires g.key == f.key && g.openedBy == f.openedBy && g.openingDb == f.openingDb
    ensures ClosingGrade(run, g) <==> ClosingGrade(run, f)
    ensures StillReported(run, g) <==> StillReported(run, f)
  {
    forall d ensures FreshEnough(run.jobs, ScannerJob(d, Raw), g) <==> FreshEnough(run.jobs, ScannerJob(d, Raw), f) {
    }
  }

  lemma ShiftWithoutClosing(f: Finding, e: FindingEvent, run: Option<nat>)
    requires e !in {ClosingAbsent, Reappeared}
    ensures Shift(f, e, run).state == Fixed <==> f.state == Fixed
    ensures f.state == Fixed ==> Shift(f, e, run) == f
    ensures Shift(f, e, run) == f.(state := Shift(f, e, run).state, closedBy := Shift(f, e, run).closedBy)
  {
  }

  lemma ClosingAbsentCloses(f: Finding, run: nat)
    ensures var g := Shift(f, ClosingAbsent, Some(run));
      g == f || g == f.(state := Fixed, closedBy := Some(run))
    ensures IsClosed(f.state) ==> Shift(f, ClosingAbsent, Some(run)) == f
  {
  }

  lemma ClosingEvents(f: Finding, e: FindingEvent, run: nat)
    requires e in {ClosingAbsent, ClosingVex, ResolveDisagreement}
    ensures var g := Shift(f, e, Some(run));
      var s := if e == ClosingAbsent then Fixed else if e == ClosingVex then ApprovedDisposition
               else DisagreementResolved;
      g == f || g == f.(state := s, closedBy := Some(run))
  {
  }

  lemma ResolutionIsFair(w: World, run: Run, i: nat, k: Key, anc: Ancestry)
    requires i < |w.items| && IsMember(w, i, k) && run.id in w.runs && w.runs[run.id] == run
    ensures FairMove(w, w.findings[k], ResolvedIn(w, run, i, k, anc))
    ensures w.findings[k].state == Fixed ==> ResolvedIn(w, run, i, k, anc) == w.findings[k]
    ensures ResolvedIn(w, run, i, k, anc).owner == w.findings[k].owner
  {
    hide IsClosingRun, StillReported, ReportedByOne, ApprovedFor, Outcome, Shift, NextFindingState;
    var f, it := w.findings[k], w.items[i];
    var o := OutcomeIn(w, run, i, k, anc);
    var superseded := IsSuperseded(w.runs, run, f);
    var valid := IsClosingRun(run, f, it.merge, anc, NeedsPolicy(it), superseded);
    OutcomeMeans(run, f, valid, it.resolution == DisagreementAccepted, it.issue);
    assert Answers(o, run, f, valid, it.resolution == DisagreementAccepted, it.issue);
    ReportedBySome(run, f, Watchers(f));
    StillReportedMeans(run, f);
    if o in {FixedOutcome, ApprovedOutcome, DisagreementOutcome} {
      MergedIsStricter(run, f, it.merge, anc, NeedsPolicy(it), superseded);
      EvidenceHere(run, f, anc, superseded);
      var e := if o == FixedOutcome then ClosingAbsent else if o == ApprovedOutcome then ClosingVex
               else ResolveDisagreement;
      ClosingEvents(f, e, run.id);
      if o != FixedOutcome {
        ShiftWithoutClosing(f, e, Some(run.id));
      } else {
        ClosingAbsentCloses(f, run.id);
      }
    }
  }

  lemma StillReportedMeans(run: Run, f: Finding)
    ensures StillReported(run, f) <==> ReportedBy(run, f, Watchers(f))
  {
    ReportedBySome(run, f, Watchers(f));
  }

  lemma EvidenceHere(run: Run, f: Finding, anc: Ancestry, superseded: bool)
    requires IsClosingRun(run, f, None, anc, false, superseded)
    ensures IsEvidence(run, f) && !superseded
  {
  }

  lemma MemberMoveIsFair(w: World, run: Run, i: nat, k: Key, anc: Ancestry)
    requires i < |w.items| && IsMember(w, i, k) && run.id in w.runs && w.runs[run.id] == run
    ensures FairMove(w, w.findings[k], MemberAfter(w, run, i, k, anc))
    ensures w.findings[k].state == Fixed ==> MemberAfter(w, run, i, k, anc) == w.findings[k]
    ensures MemberAfter(w, run, i, k, anc).owner == w.findings[k].owner
  {
    hide ItemVerdict, OutcomeIn, ResolvedIn, IsClosingRun, StillReported, ReportedByOne, ApprovedFor, Shift;
    ResolutionIsFair(w, run, i, k, anc);
    BlockingIsFair(w, w.findings[k], ResolvedIn(w, run, i, k, anc));
  }

  lemma BlockingIsFair(w: World, f: Finding, g: Finding)
    requires FairMove(w, f, g)
    ensures FairMove(w, f, Shift(g, BlockByHuman, None))
    ensures g.state == Fixed ==> Shift(g, BlockByHuman, None) == g
    ensures Shift(g, BlockByHuman, None).owner == g.owner
  {
    hide IsClosingRun, StillReported, ReportedByOne, ApprovedFor;
  }

  lemma CloseItemIsFair(w: World, run: Run, i: nat, anc: Ancestry)
    requires i < |w.items| && run.id in w.runs && w.runs[run.id] == run
    ensures var v := CloseItem(w, run, i, anc); Fair(w, v) && Steady(w, v) && LeavesFixed(w, v)
  {
    hide MemberAfter, FairMove, ItemVerdict, StateAfter;
    var v := CloseItem(w, run, i, anc);
    forall k | k in w.findings
      ensures FairMove(w, w.findings[k], v.findings[k]) && v.findings[k].owner == w.findings[k].owner
      ensures w.findings[k].state == Fixed ==> v.findings[k] == w.findings[k]
    {
      if IsMember(w, i, k) {
        MemberMoveIsFair(w, run, i, k, anc);
      } else {
        NoMoveIsFair(w, w.findings[k]);
      }
    }
  }

  lemma NoMoveIsFair(w: World, f: Finding)
    ensures FairMove(w, f, f)
  {
  }

  lemma StayingIsFair(w: World)
    ensures Fair(w, w) && Steady(w, w) && LeavesFixed(w, w)
  {
    hide IsEvidence, Warrants;
  }

  lemma {:induction false} CloseBelowIsFair(w: World, run: Run, anc: Ancestry, n: nat)
    requires n <= |w.items| && run.id in w.runs && w.runs[run.id] == run
    ensures var v := CloseBelow(w, run, anc, n); Fair(w, v) && Steady(w, v) && LeavesFixed(w, v)
  {
    hide CloseItem, Fair, Steady, LeavesFixed;
    var v := CloseBelow(w, run, anc, n);
    if n == 0 {
      StayingIsFair(w);
    } else {
      var u := CloseBelow(w, run, anc, n - 1);
      CloseBelowIsFair(w, run, anc, n - 1);
      if AwaitsClosure(w.items[n - 1]) {
        CloseNextIsFair(w, u, run, n - 1, anc);
      }
    }
  }

  lemma CloseNextIsFair(w: World, u: World, run: Run, i: nat, anc: Ancestry)
    requires Fair(w, u) && Steady(w, u) && LeavesFixed(w, u)
    requires i < |u.items| && run.id in w.runs && w.runs[run.id] == run
    ensures var v := CloseItem(u, run, i, anc); Fair(w, v) && Steady(w, v) && LeavesFixed(w, v)
  {
    hide CloseItem, FairMove;
    CloseItemIsFair(u, run, i, anc);
    BothFair(w, u, CloseItem(u, run, i, anc));
  }

  lemma RegressionsAreFair(w: World, run: Run, anc: Ancestry)
    ensures Fair(w, Regressions(w, run, anc)) && Steady(w, Regressions(w, run, anc))
    ensures forall k :: k in w.findings && w.findings[k].state == Fixed ==>
      Regressions(w, run, anc).findings[k] == w.findings[k] ||
      (Regressions(w, run, anc).findings[k].state == Regression && !IsSuperseded(w.runs, run, w.findings[k]))
  {
    hide FairMove, IsSuperseded;
    var v := Regressions(w, run, anc);
    forall k | k in w.findings
      ensures FairMove(w, w.findings[k], v.findings[k]) && v.findings[k].owner in {None, w.findings[k].owner}
      ensures w.findings[k].state == Fixed ==>
        v.findings[k] == w.findings[k] ||
        (v.findings[k].state == Regression && !IsSuperseded(w.runs, run, w.findings[k]))
    {
      RegressionIsFair(w, run, w.findings[k], anc);
    }
  }

  lemma RegressionIsFair(w: World, run: Run, f: Finding, anc: Ancestry)
    ensures var g := RegressOne(w.runs, run, f, anc);
      FairMove(w, f, g) && g.owner in {None, f.owner} &&
      (f.state == Fixed ==> g == f || (g.state == Regression && !IsSuperseded(w.runs, run, f)))
  {
    hide IsEvidence, Warrants, IsSuperseded, SomeonePresent;
  }

  lemma WatchersAreSomeone(run: Run, f: Finding)
    ensures StillReported(run, f) ==> SomeonePresent(run, f.key.family)
  {
    if StillReported(run, f) {
      var d :| d in Watchers(f) && RawPresent(run, f.key.family, d);
      assert d == Trivy || d == Grype;
    }
  }

  lemma DriftMoveIsFair(w: World, run: Run, f: Finding, anc: Ancestry)
    requires run.id in w.runs && w.runs[run.id] == run
    ensures FairMove(w, f, DriftOne(w, run, f, anc)) && DriftOne(w, run, f, anc).owner == f.owner
    ensures f.state in {Fixed, Regression} ==> DriftOne(w, run, f, anc) == f
  {
    hide SomeonePresent, StillReported;
    if DriftOne(w, run, f, anc) != f {
      ClosingAbsentCloses(f, run.id);
      WatchersAreSomeone(run, f);
    }
  }

  lemma DriftIsFair(w: World, run: Run, anc: Ancestry)
    requires run.id in w.runs && w.runs[run.id] == run
    ensures Fair(w, Drift(w, run, anc)) && Steady(w, Drift(w, run, anc)) && LeavesFixed(w, Drift(w, run, anc))
    ensures forall k :: k in w.findings && w.findings[k].state == Regression ==>
      Drift(w, run, anc).findings[k] == w.findings[k]
  {
    hide DriftOne, FairMove, Retires, NextWorkItemState;
    forall k | k in w.findings
      ensures FairMove(w, w.findings[k], Drift(w, run, anc).findings[k])
      ensures Drift(w, run, anc).findings[k].owner == w.findings[k].owner
      ensures w.findings[k].state in {Fixed, Regression} ==> Drift(w, run, anc).findings[k] == w.findings[k]
    {
      DriftMoveIsFair(w, run, w.findings[k], anc);
    }
  }

  lemma EvaluationIsFair(w: World, r: nat, anc: Ancestry)
    requires r in w.runs && w.runs[r].id == r
    ensures Fair(w, Evaluate(w, r, anc)) && Steady(w, Evaluate(w, r, anc))
    ensures forall k :: k in w.findings && w.findings[k].state == Fixed ==>
      Evaluate(w, r, anc).findings[k] == w.findings[k] ||
      (Evaluate(w, r, anc).findings[k].state == Regression && !IsSuperseded(w.runs, w.runs[r], w.findings[k]))
  {
    hide FairMove, IsSuperseded, CloseBelow, Regressions, Drift;
    var run := w.runs[r];
    var a := CloseBelow(w, run, anc, |w.items|);
    var b := Regressions(a, run, anc);
    var c := Drift(b, run, anc);
    CloseBelowIsFair(w, run, anc, |w.items|);
    RegressionsAreFair(a, run, anc);
    DriftIsFair(b, run, anc);
    FairTwice(w, a, b);
    FairTwice(w, b, c);
  }

  lemma MergeIsFair(w: World, i: nat, sha: Option<nat>, at: int)
    requires i < |w.items|
    ensures var v := Merge(w, i, sha, at); Fair(w, v) && Steady(w, v) && LeavesFixed(w, v)
  {
    hide FairMove;
    forall k | k in w.findings
      ensures FairMove(w, w.findings[k], Merge(w, i, sha, at).findings[k])
      ensures Merge(w, i, sha, at).findings[k].owner == w.findings[k].owner
      ensures w.findings[k].state == Fixed ==> Merge(w, i, sha, at).findings[k] == w.findings[k]
    {
      MergingIsFair(w, w.findings[k]);
    }
  }

  lemma MergingIsFair(w: World, f: Finding)
    ensures FairMove(w, f, f) && FairMove(w, f, Shift(f, PrMerged, None))
    ensures Shift(f, PrMerged, None).owner == f.owner
    ensures f.state == Fixed ==> Shift(f, PrMerged, None) == f
  {
    hide IsEvidence, Warrants;
  }

  lemma {:induction false} ReplayIsFair(w: World, i: nat, order: seq<nat>, anc: Ancestry)
    requires i < |w.items| && (forall r :: r in order ==> r in w.runs && w.runs[r].id == r)
    ensures var v := ReplayRuns(w, i, order, anc); Fair(w, v) && Steady(w, v) && LeavesFixed(w, v)
    decreases |order|
  {
    hide FairMove, MemberAfter, ItemVerdict, StateAfter;
    if order == [] || !AwaitsClosure(w.items[i]) {
      StayingIsFair(w);
    } else {
      var u := CloseItem(w, w.runs[order[0]], i, anc);
      CloseItemIsFair(w, w.runs[order[0]], i, anc);
      ReplayIsFair(u, i, order[1..], anc);
      BothFair(w, u, ReplayRuns(u, i, order[1..], anc));
    }
  }

  lemma MergeSeenIsFair(w: World, i: nat, sha: Option<nat>, at: int, order: seq<nat>, anc: Ancestry)
    requires i < |w.items| && IsReplayOrder(w, at, order) && (forall r :: r in w.runs ==> w.runs[r].id == r)
    ensures var v := MergeSeen(w, i, sha, at, order, anc); Fair(w, v) && Steady(w, v) && LeavesFixed(w, v)
  {
    hide FairMove, ReplayRuns;
    var u := Merge(w, i, sha, at);
    MergeIsFair(w, i, sha, at);
    ReplayIsFair(u, i, order, anc);
    BothFair(w, u, ReplayRuns(u, i, order, anc));
  }

  // ---------------------------------------------------------------- the invariant

  ghost predicate Inv(w: World) {
    KeyedByKey(w.findings) && (forall r :: r in w.runs ==> w.runs[r].id == r) &&
    (forall k :: k in w.findings ==> Backed(w.runs, w.findings[k])) &&
    (AllFinished(w.runs) ==> Chronological(Store(w.findings, w.runs))) &&
    w.applied <= w.runs.Keys && (forall r :: r in w.log <==> r in w.applied) &&
    (forall a, b :: 0 <= a < b < |w.log| ==> w.log[a] != w.log[b])
  }

  lemma FairKeepsInv(w: World, v: World)
    requires Inv(w) && Fair(w, v) && v.applied <= v.runs.Keys && (forall r :: r in v.log <==> r in v.applied)
    requires forall a, b :: 0 <= a < b < |v.log| ==> v.log[a] != v.log[b]
    ensures Inv(v)
  {
    forall k | k in v.findings ensures v.findings[k].key == k && Backed(v.runs, v.findings[k]) {
      var f, g := w.findings[k], v.findings[k];
      assert FairMove(w, f, g) && Backed(w.runs, f);
      if g.state == Fixed {
        SameGrade(v.runs[g.closedBy.value], f, g);
        if IsEvidence(v.runs[g.closedBy.value], f) {
          ValidIsClosingGrade(v.runs[g.closedBy.value], f, None, {}, false, false);
        }
      }
    }
    if AllFinished(v.runs) {
      assert Chronological(Store(w.findings, w.runs));
      forall k ensures k in v.findings <==> exists r :: r in v.runs && k in v.runs[r].reports {
        assert k in v.findings <==> k in w.findings;
      }
      forall k | k in v.findings
        ensures Earliest(v.runs, k, v.findings[k].firstSeen) && Latest(v.runs, k, v.findings[k].lastSeen)
        ensures v.findings[k].description == v.runs[v.findings[k].lastSeen].reports[k].description
      {
        assert FairMove(w, w.findings[k], v.findings[k]);
      }
    }
  }

  lemma EvaluateKeeps(w: World, r: nat, anc: Ancestry)
    requires Inv(w) && r in w.runs && r !in w.applied
    ensures Inv(Evaluate(w, r, anc))
  {
    EvaluationIsFair(w, r, anc);
    FairKeepsInv(w, Evaluate(w, r, anc));
  }

  lemma IngestKeeps(w: World, run: Run)
    requires Inv(w) && Enabled(w, IngestStep(run))
    ensures Inv(Next(w, IngestStep(run)))
  {
    var s := Store(w.findings, w.runs);
    var v := Next(w, IngestStep(run));
    forall k | k in v.findings ensures Backed(v.runs, v.findings[k]) {
      if k in w.findings {
        assert Backed(w.runs, w.findings[k]);
        if v.findings[k].state == Fixed {
          SameGrade(v.runs[v.findings[k].closedBy.value], w.findings[k], v.findings[k]);
        }
      }
    }
    if AllFinished(v.runs) {
      assert AllFinished(w.runs) by {
        assert forall r :: r in w.runs ==> r in v.runs && v.runs[r] == w.runs[r];
      }
      assert v.runs[run.id] == run;
      IngestIsChronological(s, run);
    }
  }

  lemma FindingMoveIsFair(w: World, k: Key, e: FindingEvent, owner: Option<nat>)
    requires k in w.findings && e in {JoinGroup, RemediationStarted, BlockByHuman}
    ensures Fair(w, w.(findings := w.findings[k := Shift(w.findings[k], e, None).(owner := owner)]))
  {
    hide IsEvidence, Warrants;
    ShiftWithoutClosing(w.findings[k], e, None);
    assert w.findings[k := Shift(w.findings[k], e, None).(owner := owner)].Keys == w.findings.Keys;
  }

  lemma FindingMoveKeeps(w: World, k: Key, e: FindingEvent, owner: Option<nat>)
    requires Inv(w) && k in w.findings && e in {JoinGroup, RemediationStarted, BlockByHuman}
    ensures Inv(w.(findings := w.findings[k := Shift(w.findings[k], e, None).(owner := owner)]))
  {
    hide Fair, Shift;
    FindingMoveIsFair(w, k, e, owner);
    FairKeepsInv(w, w.(findings := w.findings[k := Shift(w.findings[k], e, None).(owner := owner)]));
  }

  lemma NextKeeps(w: World, s: Step)
    requires Inv(w) && Enabled(w, s)
    ensures Inv(Next(w, s))
  {
    match s
    case IngestStep(run) => IngestKeeps(w, run);
    case EvaluateStep(r, anc, ok) => if r !in w.applied { EvaluateKeeps(w, r, anc); }
    case MergeStep(i, sha, at, order, anc) =>
      MergeSeenIsFair(w, i, sha, at, order, anc);
      MergeSeenKeepsLog(w, i, sha, at, order, anc);
      FairKeepsInv(w, Next(w, s));
    case GroupStep(k, i) => FindingMoveKeeps(w, k, JoinGroup, Some(i));
    case FindingStep(k, e) =>
      ShiftWithoutClosing(w.findings[k], e, None);
      FindingMoveKeeps(w, k, e, w.findings[k].owner);
    case ItemStep(_, _) =>
    case NewItemStep(_) =>
  }

  lemma {:induction false} ReplayKeepsLog(w: World, i: nat, order: seq<nat>, anc: Ancestry)
    requires i < |w.items| && forall r :: r in order ==> r in w.runs
    ensures ReplayRuns(w, i, order, anc).log == w.log && ReplayRuns(w, i, order, anc).applied == w.applied
    decreases |order|
  {
    if order != [] && AwaitsClosure(w.items[i]) {
      ReplayKeepsLog(CloseItem(w, w.runs[order[0]], i, anc), i, order[1..], anc);
    }
  }

  lemma MergeSeenKeepsLog(w: World, i: nat, sha: Option<nat>, at: int, order: seq<nat>, anc: Ancestry)
    requires i < |w.items| && IsReplayOrder(w, at, order)
    ensures MergeSeen(w, i, sha, at, order, anc).log == w.log &&
      MergeSeen(w, i, sha, at, order, anc).applied == w.applied
  {
    ReplayKeepsLog(Merge(w, i, sha, at), i, order, anc);
  }

  // ---------------------------------------------------------------- theorems over every history

  /** `history` goes step by step from the empty start. */
  ghost predicate IsHistory(history: seq<World>) {
    |history| > 0 && history[0] == START_WORLD &&
    forall n :: 0 <= n < |history| - 1 ==> Linked(history[n], history[n + 1])
  }

  ghost predicate Leads(w: World, s: Step, v: World) {
    KeyedByKey(w.findings) && Enabled(w, s) && Next(w, s) == v
  }

  ghost predicate Linked(w: World, v: World) {
    exists s :: Leads(w, s, v)
  }

  lemma {:induction false} HistoryKeeps(history: seq<World>, n: nat)
    requires IsHistory(history) && n < |history|
    ensures Inv(history[n])
  {
    if n > 0 {
      HistoryKeeps(history, n - 1);
      assert Linked(history[n - 1], history[n]);
      var s :| Leads(history[n - 1], s, history[n]);
      NextKeeps(history[n - 1], s);
    }
  }

  lemma StepIsFair(w: World, s: Step)
    requires Inv(w) && Enabled(w, s) && !s.IngestStep?
    ensures Fair(w, Next(w, s))
  {
    hide FairMove, Evaluate, MergeSeen, Shift, IsReplayOrder, Backed;
    match s
    case EvaluateStep(r, anc, ok) =>
      EvaluationIsFair(w, r, anc);
      StayingIsFair(w);
    case MergeStep(i, sha, at, order, anc) => MergeSeenIsFair(w, i, sha, at, order, anc);
    case GroupStep(k, i) => FindingMoveIsFair(w, k, JoinGroup, Some(i));
    case FindingStep(k, e) =>
      FindingMoveIsFair(w, k, e, w.findings[k].owner);
      ShiftKeepsOwner(w.findings[k], e, None);
    case ItemStep(_, _) => ItemsMayChange(w, Next(w, s));
    case NewItemStep(_) => ItemsMayChange(w, Next(w, s));
    case IngestStep(_) =>
  }

  lemma ItemsMayChange(w: World, v: World)
    requires v.findings == w.findings && v.runs == w.runs
    ensures Fair(w, v)
  {
    hide IsEvidence, Warrants;
  }

  lemma ShiftKeepsOwner(f: Finding, e: FindingEvent, run: Option<nat>)
    ensures Shift(f, e, run).(owner := f.owner) == Shift(f, e, run)
  {
  }

  ghost predicate BecomesFixed(f: Finding, g: Finding) {
    g.state == Fixed && !(f.state == Fixed && f.closedBy == g.closedBy)
  }

  lemma IngestFixesNothing(w: World, run: Run, k: Key)
    requires KeyedByKey(w.findings) && run.id !in w.runs && k in w.findings
    ensures k in Ingest(Store(w.findings, w.runs), run).findings
    ensures !BecomesFixed(w.findings[k], Ingest(Store(w.findings, w.runs), run).findings[k])
  {
    hide Refreshed, FinishedBefore;
  }

  lemma BecomingFixedIsCurrent(w: World, s: Step, k: Key, other: nat)
    requires Inv(w) && Enabled(w, s) && AllFinished(w.runs) && k in w.findings &&
      BecomesFixed(w.findings[k], Next(w, s).findings[k])
    requires other in w.runs && k in w.runs[other].reports
    ensures var g := Next(w, s).findings[k];
      g.closedBy.Some? && g.closedBy.value in w.runs && IsEvidence(w.runs[g.closedBy.value], w.findings[k]) &&
      w.runs[other].finished.value <= w.runs[g.closedBy.value].finished.value
  {
    hide IsClosingRun, StillReported, Ingest, Upserted;
    if s.IngestStep? {
      IngestFixesNothing(w, s.run, k);
    } else {
      StepIsFair(w, s);
      assert FairMove(w, w.findings[k], Next(w, s).findings[k]);
      assert Latest(w.runs, k, w.findings[k].lastSeen);
    }
  }

  /** At the moment a finding becomes fixed, with all finish times known, its closing run is valid for
      it as it is then described, image and platform included, and no ingested run that finished after
      the closing run reports it. */
  lemma FixedOnTheLatestWord(history: seq<World>, n: nat, k: Key, other: nat)
    requires IsHistory(history) && n + 1 < |history| && AllFinished(history[n].runs)
    requires k in history[n].findings && k in history[n + 1].findings
    requires BecomesFixed(history[n].findings[k], history[n + 1].findings[k])
    requires other in history[n].runs && k in history[n].runs[other].reports
    ensures var closer := history[n + 1].findings[k].closedBy;
      closer.Some? && closer.value in history[n].runs &&
      IsEvidence(history[n].runs[closer.value], history[n].findings[k]) &&
      history[n].runs[other].finished.value <= history[n].runs[closer.value].finished.value
  {
    HistoryKeeps(history, n);
    assert Linked(history[n], history[n + 1]);
    var s :| Leads(history[n], s, history[n + 1]);
    BecomingFixedIsCurrent(history[n], s, k, other);
  }

  /** `r` finished no earlier than the run that closed `f` and every run that reports it. */
  ghost predicate IsFresh(w: World, f: Finding, r: nat) {
    r in w.runs && w.runs[r].finished.Some? && f.closedBy.Some? && f.closedBy.value in w.runs &&
    w.runs[f.closedBy.value].finished.Some? &&
    w.runs[f.closedBy.value].finished.value <= w.runs[r].finished.value &&
    forall other :: other in w.runs && f.key in w.runs[other].reports && w.runs[other].finished.Some? ==>
      w.runs[other].finished.value <= w.runs[r].finished.value
  }

  lemma NotSupersededIsFresh(w: World, k: Key, r: nat)
    requires Inv(w) && AllFinished(w.runs) && k in w.findings && w.findings[k].state == Fixed
    requires r in w.runs && !IsSuperseded(w.runs, w.runs[r], w.findings[k])
    ensures IsFresh(w, w.findings[k], r)
  {
    assert Backed(w.runs, w.findings[k]);
    assert Latest(w.runs, k, w.findings[k].lastSeen);
  }

  lemma OthersLeaveFixed(w: World, s: Step, k: Key)
    requires Inv(w) && Enabled(w, s) && !s.EvaluateStep? && k in w.findings && w.findings[k].state == Fixed
    ensures k in Next(w, s).findings && Next(w, s).findings[k].state == Fixed
  {
    match s
    case MergeStep(i, sha, at, order, anc) => MergeSeenIsFair(w, i, sha, at, order, anc);
    case GroupStep(q, _) => ShiftWithoutClosing(w.findings[q], JoinGroup, None);
    case FindingStep(q, e) => ShiftWithoutClosing(w.findings[q], e, None);
    case _ =>
  }

  lemma ReopeningIsFresh(w: World, s: Step, k: Key)
    requires Inv(w) && Enabled(w, s) && AllFinished(w.runs) && k in w.findings
    requires w.findings[k].state == Fixed && k in Next(w, s).findings && Next(w, s).findings[k].state != Fixed
    ensures s.EvaluateStep? && IsFresh(w, w.findings[k], s.r) && Next(w, s).findings[k].state == Regression
  {
    if !s.EvaluateStep? {
      OthersLeaveFixed(w, s, k);
    } else {
      EvaluationIsFair(w, s.r, s.anc);
      if !IsSuperseded(w.runs, w.runs[s.r], w.findings[k]) {
        NotSupersededIsFresh(w, k, s.r);
      }
    }
  }

  /** A fixed finding is only ever reopened, as a regression, by the evaluation of a run that finished
      no earlier than the run that closed it and every run that reports it. */
  lemma OnlyFreshEvidenceReopens(history: seq<World>, n: nat, k: Key) returns (r: nat)
    requires IsHistory(history) && n + 1 < |history| && AllFinished(history[n].runs)
    requires k in history[n].findings && history[n].findings[k].state == Fixed
    requires k in history[n + 1].findings && history[n + 1].findings[k].state != Fixed
    ensures history[n + 1].findings[k].state == Regression && IsFresh(history[n], history[n].findings[k], r)
  {
    HistoryKeeps(history, n);
    assert Linked(history[n], history[n + 1]);
    var s :| Leads(history[n], s, history[n + 1]);
    ReopeningIsFresh(history[n], s, k);
    r := s.r;
  }

  /** Each run's closing effects are committed at most once, and exactly for the runs that carry the
      applied marker. */
  lemma EvaluatedExactlyOnce(history: seq<World>, n: nat)
    requires IsHistory(history) && n < |history|
    ensures var w := history[n];
      (forall r :: r in w.log <==> r in w.applied) && w.applied <= w.runs.Keys &&
      (forall a, b :: 0 <= a < b < |w.log| ==> w.log[a] != w.log[b])
  {
    HistoryKeeps(history, n);
  }
}
