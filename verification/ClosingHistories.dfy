/** Two histories that show the exceptions are real: an evaluation that reopens what it closed, and two
    scans whose effect depends on when the merge is noticed. */
module ClosingHistories {
  import opened Domain
  import opened Evidence
  import opened Persist
  import opened Closer
  import opened Closing
  import opened ClosingSoundness
  import opened Confluence
  import opened MultipleScans

  const OPENSSL := Family(1, 1, Some(1), OsLayer)

  const FOUND := Key(OPENSSL, 0)

  /** The same vulnerability of another version of the package. */
  const SIBLING := Key(OPENSSL, 1)

  const DESCRIBED := Description(1, Lean, Some(1), 0)

  const TRIVY_RAW := Job(ScannerJob(Trivy, Raw), true, Some(Lean), Some(0), None)

  /** A complete scan of the remediation branch with a fresh raw job of Trivy. */
  function Scan(id: nat, finished: int, reports: map<Key, Report>): Run {
    Run(id, Some(finished), finished, ForkRepo, RemediationBranch, 7, Push, Complete, 1, Some(1), None, [TRIVY_RAW],
      false, reports, {})
  }

  const OPENING := Scan(0, 0, map[FOUND := Report(DESCRIBED, {Trivy}, {})])

  const GRYPE_ONLY := Scan(1, 10, map[FOUND := Report(DESCRIBED, {Grype}, {})])

  const CLEAN := Scan(1, 10, map[])

  const SIBLING_SHOWN := Scan(2, 20, map[SIBLING := Report(DESCRIBED, {Trivy}, {})])

  const OWNED := WorkItem(NeedsHuman, false, NoResolution, None, None, None)

  const NO_ANCESTRY: Ancestry := {}

  /** The finding, opened by Trivy in the first scan, in remediation under the first item. */
  const REMEDIATED := Finding(FOUND, {Trivy}, None, DESCRIBED, InRemediation, 0, 0, Some(0), None)

  lemma Grows(history: seq<World>, s: Step, v: World)
    requires IsHistory(history) && ClosingSoundness.Leads(history[|history| - 1], s, v)
    ensures IsHistory(history + [v])
  {
    var longer := history + [v];
    forall n | 0 <= n < |longer| - 1 ensures Linked(longer[n], longer[n + 1]) {
      if n < |history| - 1 {
        assert Linked(history[n], history[n + 1]);
      } else {
        assert ClosingSoundness.Leads(longer[n], s, longer[n + 1]);
      }
    }
  }

  /** A finding is opened, grouped and worked on. */
  lemma UnderRemediation() returns (history: seq<World>)
    ensures |history| > 0 && IsHistory(history)
    ensures history[|history| - 1] == World(map[FOUND := REMEDIATED], map[0 := OPENING], [OWNED], {}, [])
  {
    history := [START_WORLD];
    var open := REMEDIATED.(state := Open, owner := None);
    var a := World(map[FOUND := open], map[0 := OPENING], [], {}, []);
    assert Ingest(Store(map[], map[]), OPENING).findings == a.findings;
    Grows(history, IngestStep(OPENING), a);
    history := history + [a];
    var b := a.(items := [OWNED]);
    Grows(history, NewItemStep(OWNED), b);
    history := history + [b];
    var c := b.(findings := map[FOUND := open.(state := Grouped, owner := Some(0))]);
    Grows(history, GroupStep(FOUND, 0), c);
    history := history + [c];
    var d := c.(findings := map[FOUND := REMEDIATED]);
    Grows(history, FindingStep(FOUND, RemediationStarted), d);
    history := history + [d];
  }

  /** A scan of this kind is valid evidence for the finding. */
  lemma ScanIsValid(run: Run, f: Finding, merge: Option<nat>)
    requires run.finished.Some? && run == Scan(run.id, run.finished.value, run.reports)
    requires f.key == FOUND && f.openedBy == {Trivy} && f.openingDb == None && f.description == DESCRIBED &&
      merge in {None, Some(7)}
    ensures IsClosingRun(run, f, merge, NO_ANCESTRY, false, false)
  {
    assert JobNamed(run.jobs, ScannerJob(Trivy, Raw)) == Some(TRIVY_RAW);
    assert Fresh(run.jobs, ScannerJob(Trivy, Raw), f);
  }

  /** The merge is noticed before there is anything to replay. */
  lemma MergeOf(w: World, at: int)
    requires w.items == [OWNED] && w.findings == map[FOUND := REMEDIATED] && w.applied == {}
    ensures IsReplayOrder(w, at, [])
    ensures MergeSeen(w, 0, None, at, [], NO_ANCESTRY) ==
      w.(items := [OWNED.(state := Merged, mergedAt := Some(at))],
        findings := map[FOUND := REMEDIATED.(state := FindingAwaitingRescan)])
  {
    assert MergedFindings(w, 0) == map[FOUND := REMEDIATED.(state := FindingAwaitingRescan)];
  }

  lemma GrypeSeesIt()
    ensures var waiting := REMEDIATED.(state := FindingAwaitingRescan);
      Ingest(Store(map[FOUND := waiting], map[0 := OPENING]), GRYPE_ONLY) ==
        Store(map[FOUND := waiting.(lastSeen := 1)], map[0 := OPENING, 1 := GRYPE_ONLY])
  {
    var waiting := REMEDIATED.(state := FindingAwaitingRescan);
    assert Ingest(Store(map[FOUND := waiting], map[0 := OPENING]), GRYPE_ONLY).findings ==
      map[FOUND := waiting.(lastSeen := 1)];
  }

  /** The merge is noticed, then a scan comes in that only Grype reports the finding in. */
  lemma GrypeScanIngested() returns (history: seq<World>)
    ensures IsHistory(history)
    ensures history[|history| - 1] ==
      World(map[FOUND := REMEDIATED.(state := FindingAwaitingRescan, lastSeen := 1)],
        map[0 := OPENING, 1 := GRYPE_ONLY],
            [OWNED.(state := Merged, mergedAt := Some(5))], {}, [])
  {
    hide MergeSeen, Ingest;
    history := UnderRemediation();
    var w := history[|history| - 1];
    MergeOf(w, 5);
    var m := MergeSeen(w, 0, None, 5, [], NO_ANCESTRY);
    Grows(history, MergeStep(0, None, 5, [], NO_ANCESTRY), m);
    history := history + [m];
    var seen := World(map[FOUND := REMEDIATED.(state := FindingAwaitingRescan, lastSeen := 1)],
                      map[0 := OPENING, 1 := GRYPE_ONLY], m.items, {}, []);
    GrypeSeesIt();
    Grows(history, IngestStep(GRYPE_ONLY), seen);
    history := history + [seen];
  }

  lemma OnlyMemberCloses(w: World)
    requires 1 in w.runs && w.runs[1].id == 1 && Closes(w, 1, 0, FOUND, NO_ANCESTRY)
    requires forall k :: IsMember(w, 0, k) ==> k == FOUND
    ensures ItemVerdict(w, w.runs[1], 0, NO_ANCESTRY) == AllResolved
    ensures |Evaluate(w, 1, NO_ANCESTRY).items| == |w.items| && Evaluate(w, 1, NO_ANCESTRY).items[0].state == Verified
  {
    hide IsClosingRun, StillReported, Evaluate, CloseItem;
    OutcomeOfClosing(w, 1, 0, FOUND, NO_ANCESTRY);
    FixesIffCloses(w, 1, 0, FOUND, NO_ANCESTRY);
    assert IsMember(w, 0, FOUND);
    assert AllMembersClose(w, w.runs[1], 0, NO_ANCESTRY);
    assert !AnyOutcome(w, w.runs[1], 0, NO_ANCESTRY, NotApplicable);
    EndsVerified(w, w.runs[1]);
    EvaluateAt(w, 1, 0, NO_ANCESTRY);
  }

  lemma EndsVerified(w: World, run: Run)
    requires |w.items| > 0 && AwaitsClosure(w.items[0]) && ItemVerdict(w, run, 0, NO_ANCESTRY) == AllResolved
    ensures |CloseItem(w, run, 0, NO_ANCESTRY).items| == |w.items|
    ensures CloseItem(w, run, 0, NO_ANCESTRY).items[0].state == Verified
  {
    hide ItemVerdict;
  }

  /** One evaluation, in a reachable state, closes a finding as fixed and reopens it: the detector that
      opened it is silent, another scanner reports it. Its item, which had no other, is verified all the same. */
  lemma AnEvaluationReopensWhatItCloses() returns (history: seq<World>)
    ensures |history| > 1 && IsHistory(history)
    ensures var w, v := history[|history| - 2], history[|history| - 1];
      Closes(w, 1, 0, FOUND, NO_ANCESTRY) && v == Evaluate(w, 1, NO_ANCESTRY) &&
      FOUND in v.findings && v.findings[FOUND].state == Regression && v.findings[FOUND].owner == None &&
      |v.items| == 1 && v.items[0].state == Verified
  {
    hide Evaluate, IsClosingRun, StillReported, OnlyWatchersReport;
    history := GrypeScanIngested();
    var w := history[|history| - 1];
    ScanIsValid(GRYPE_ONLY, w.findings[FOUND], None);
    GrypeIsNoWatcher(w.findings[FOUND]);
    assert Closes(w, 1, 0, FOUND, NO_ANCESTRY);
    ClosesAndReopensIff(w, 1, 0, FOUND, NO_ANCESTRY);
    OnlyMemberCloses(w);
    EvaluationStep(w, 1);
    Grows(history, EvaluateStep(1, NO_ANCESTRY, true), Evaluate(w, 1, NO_ANCESTRY));
    history := history + [Evaluate(w, 1, NO_ANCESTRY)];
  }

  lemma EvaluationStep(w: World, r: nat)
    requires KeyedByKey(w.findings) && r in w.runs && r !in w.applied
    ensures ClosingSoundness.Leads(w, EvaluateStep(r, NO_ANCESTRY, true), Evaluate(w, r, NO_ANCESTRY))
  {
    hide Evaluate;
  }

  lemma GrypeIsNoWatcher(f: Finding)
    requires f.key == FOUND && f.openedBy == {Trivy}
    ensures !StillReported(GRYPE_ONLY, f) && !OnlyWatchersReport(GRYPE_ONLY, f)
  {
    assert RawPresent(GRYPE_ONLY, OPENSSL, Grype) by {
      assert FOUND in GRYPE_ONLY.reports;
    }
    assert Watchers(f) == {Trivy};
  }

  /** Two scans of the merged branch, in a reachable state: the first clean, the second showing another
      version of the package. */
  lemma TwoScansIngested() returns (history: seq<World>)
    ensures |history| > 0 && IsHistory(history)
    ensures history[|history| - 1] ==
      World(map[FOUND := REMEDIATED, SIBLING := Opened(SIBLING_SHOWN, SIBLING)],
            map[0 := OPENING, 1 := CLEAN, 2 := SIBLING_SHOWN], [OWNED], {}, [])
  {
    hide IsHistory;
    history := UnderRemediation();
    var w := history[|history| - 1];
    var a := w.(runs := map[0 := OPENING, 1 := CLEAN]);
    assert Ingest(Store(w.findings, w.runs), CLEAN).findings == w.findings;
    Grows(history, IngestStep(CLEAN), a);
    history := history + [a];
    var b := World(map[FOUND := REMEDIATED, SIBLING := Opened(SIBLING_SHOWN, SIBLING)],
                   map[0 := OPENING, 1 := CLEAN, 2 := SIBLING_SHOWN], [OWNED], {}, []);
    assert Refreshed(Opened(SIBLING_SHOWN, SIBLING), SIBLING_SHOWN) == Opened(SIBLING_SHOWN, SIBLING);
    assert Ingest(Store(a.findings, a.runs), SIBLING_SHOWN).findings == b.findings;
    Grows(history, IngestStep(SIBLING_SHOWN), b);
    history := history + [b];
  }

  lemma SiblingShowsAgain(f: Finding)
    requires f == REMEDIATED.(state := FindingAwaitingRescan)
    ensures ShowsAgain(map[0 := OPENING, 1 := CLEAN, 2 := SIBLING_SHOWN], 1, 2, f, NO_ANCESTRY)
  {
    ScanIsValid(SIBLING_SHOWN, f, Some(7));
    assert RawPresent(SIBLING_SHOWN, OPENSSL, Trivy) by {
      assert SIBLING in SIBLING_SHOWN.reports;
    }
  }

  lemma CleanCloses(m: World)
    requires m.runs == map[0 := OPENING, 1 := CLEAN, 2 := SIBLING_SHOWN] && |m.items| == 1
    requires m.items[0] == OWNED.(state := Merged, mergedAt := Some(5))
    requires FOUND in m.findings && m.findings[FOUND] == REMEDIATED.(state := FindingAwaitingRescan)
    requires forall k :: IsMember(m, 0, k) ==> k == FOUND
    ensures Closes(m, 1, 0, FOUND, NO_ANCESTRY) && Settles(m, 1, 0, NO_ANCESTRY)
    ensures MemberAfter(m, m.runs[1], 0, FOUND, NO_ANCESTRY).state == Fixed
  {
    var f := m.findings[FOUND];
    ScanIsValid(CLEAN, f, None);
    assert CLEAN.reports == map[];
    assert !StillReported(CLEAN, f);
    assert Closes(m, 1, 0, FOUND, NO_ANCESTRY);
    FixesIffCloses(m, 1, 0, FOUND, NO_ANCESTRY);
    OutcomeOfClosing(m, 1, 0, FOUND, NO_ANCESTRY);
    assert IsMember(m, 0, FOUND);
    assert AllMembersClose(m, CLEAN, 0, NO_ANCESTRY);
    assert !AnyOutcome(m, CLEAN, 0, NO_ANCESTRY, NotApplicable);
    VerdictSettles(Merged, AllResolved);
  }

  lemma CleanScanDecides(w: World)
    requires w.findings == map[FOUND := REMEDIATED, SIBLING := Opened(SIBLING_SHOWN, SIBLING)]
    requires w.runs == map[0 := OPENING, 1 := CLEAN, 2 := SIBLING_SHOWN] && w.items == [OWNED] && w.applied == {}
    ensures AllUnderway(w, 0) && IsMember(w, 0, FOUND) && AreTheEvidence(w, [1, 2], 5)
    ensures var m := Merge(w, 0, None, 5);
      FOUND in m.findings && m.findings[FOUND] == REMEDIATED.(state := FindingAwaitingRescan) &&
      Closes(m, 1, 0, FOUND, NO_ANCESTRY) && Settles(m, 1, 0, NO_ANCESTRY) &&
      MemberAfter(m, w.runs[1], 0, FOUND, NO_ANCESTRY).state == Fixed
  {
    hide Closes, Settles, MemberAfter;
    var m := Merge(w, 0, None, 5);
    assert m.findings[FOUND] == REMEDIATED.(state := FindingAwaitingRescan);
    CleanCloses(m);
  }

  lemma OrdersDiffer(w: World)
    requires w.findings == map[FOUND := REMEDIATED, SIBLING := Opened(SIBLING_SHOWN, SIBLING)]
    requires w.runs == map[0 := OPENING, 1 := CLEAN, 2 := SIBLING_SHOWN] && w.items == [OWNED] && w.applied == {}
    ensures Differ(w, EvaluateEach(w, [1, 2], NO_ANCESTRY))
  {
    hide EvaluateEach, ReplayRuns, Merge, MemberAfter, Settles, Closes, ShowsAgain, AllUnderway, AreTheEvidence,
      IsMember;
    assert [] + ([1] + [2]) == [1, 2] && 2 in [1] + [2];
    CleanScanDecides(w);
    SiblingShowsAgain(REMEDIATED.(state := FindingAwaitingRescan));
    ScansLeaveItem(w, [1, 2], 0, NO_ANCESTRY);
    assert ShowsAgain(w.runs, 1, 2, Merge(w, 0, None, 5).findings[FOUND], NO_ANCESTRY);
    ScansAndMergeCommuteIff(w, 0, FOUND, None, 5, [], 1, [2], NO_ANCESTRY);
  }

  /** With both scans evaluated in `scanned`, noticing the merge last leaves the finding fixed, noticing it
      first does not. */
  ghost predicate Differ(w: World, scanned: World) {
    1 in w.runs && 2 in w.runs && |w.items| == 1 && |scanned.items| == 1 &&
    IsReplayOrder(scanned, 5, [1, 2]) && IsReplayOrder(w, 5, []) &&
    var scanFirst := MergeSeen(scanned, 0, None, 5, [1, 2], NO_ANCESTRY);
    var mergeFirst := EvaluateEach(MergeSeen(w, 0, None, 5, [], NO_ANCESTRY), [1, 2], NO_ANCESTRY);
    FOUND in scanFirst.findings && FOUND in mergeFirst.findings && scanFirst.findings[FOUND].state == Fixed &&
    mergeFirst.findings[FOUND] != scanFirst.findings[FOUND]
  }

  /** There is a reachable state in which the two orders differ. */
  lemma TwoScansDoNotCommute() returns (history: seq<World>)
    ensures IsHistory(history)
    ensures var w := history[|history| - 1];
      1 in w.runs && 2 in w.runs && Differ(w, EvaluateEach(w, [1, 2], NO_ANCESTRY))
  {
    hide Differ, EvaluateEach;
    history := TwoScansIngested();
    OrdersDiffer(history[|history| - 1]);
  }
}
