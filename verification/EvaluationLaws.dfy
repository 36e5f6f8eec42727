/** What one evaluation does to every finding and item, in terms of the run's reports and columns. */
module EvaluationLaws {
  import opened Domain
  import opened Evidence
  import opened Closer
  import opened Closing
  import opened ClosingSoundness
  import opened Confluence

  /** The other scan finished later, as far as both times are known. */
  predicate FinishedLater(runs: map<nat, Run>, run: Run, other: Option<nat>) {
    other.Some? && other.value in runs && other.value != run.id &&
    match (run.finished, runs[other.value].finished) {
      case (Some(mine), Some(theirs)) => mine < theirs
      case _ => false
    }
  }

  /** A scan that finished later last saw the finding, or closed it. */
  predicate Overtaken(runs: map<nat, Run>, run: Run, f: Finding) {
    FinishedLater(runs, run, Some(f.lastSeen)) || FinishedLater(runs, run, f.closedBy)
  }

  lemma OvertakenMeans(runs: map<nat, Run>, run: Run, f: Finding)
    ensures Overtaken(runs, run, f) <==> IsSuperseded(runs, run, f)
  {
  }

  /** The run is valid evidence for a member of a merged item. */
  ghost predicate Speaks(w: World, run: Run, it: WorkItem, f: Finding, anc: Ancestry) {
    Qualifies(run, f, it.merge, anc, it.noFix || it.resolution == DispositionApproved, Overtaken(w.runs, run, f))
  }

  ghost predicate Says(o: ClosingOutcome, w: World, run: Run, it: WorkItem, f: Finding, anc: Ancestry) {
    Answers(o, run, f, Speaks(w, run, it, f, anc), it.resolution == DisagreementAccepted, it.issue)
  }

  // ---------------------------------------------------------------- one merged item

  lemma OutcomeSays(w: World, run: Run, i: nat, k: Key, anc: Ancestry, o: ClosingOutcome)
    requires i < |w.items| && k in w.findings
    ensures OutcomeIn(w, run, i, k, anc) == o <==> Says(o, w, run, w.items[i], w.findings[k], anc)
  {
    hide IsClosingRun, Qualifies, IsSuperseded, Overtaken, Answers, Outcome;
    var it, f := w.items[i], w.findings[k];
    OvertakenMeans(w.runs, run, f);
    ClosingRunMeans(run, f, it.merge, anc, NeedsPolicy(it), IsSuperseded(w.runs, run, f));
    OutcomeMeans(run, f, Speaks(w, run, it, f, anc), it.resolution == DisagreementAccepted, it.issue);
  }

  /** The run speaks for every member of the item, and the closing of the item leaves every one closed. */
  ghost predicate AllEndClosed(w: World, run: Run, i: nat, anc: Ancestry)
    requires i < |w.items|
  {
    var v := CloseItem(w, run, i, anc);
    (exists k :: k in w.findings && w.findings[k].owner == Some(i)) &&
    forall k :: k in w.findings && w.findings[k].owner == Some(i) ==>
      Speaks(w, run, w.items[i], w.findings[k], anc) &&
      k in v.findings && v.findings[k].state in {Fixed, ApprovedDisposition, DisagreementResolved}
  }

  /** The run speaks for every member and still shows one that nothing a human accepted resolves. */
  ghost predicate SomeStillPresent(w: World, run: Run, i: nat, anc: Ancestry)
    requires i < |w.items|
  {
    (forall k :: k in w.findings && w.findings[k].owner == Some(i) ==>
      Speaks(w, run, w.items[i], w.findings[k], anc)) &&
    exists k :: k in w.findings && w.findings[k].owner == Some(i) &&
      Says(StillPresent, w, run, w.items[i], w.findings[k], anc)
  }

  lemma ClosedIff(w: World, run: Run, i: nat, k: Key, anc: Ancestry)
    requires i < |w.items| && IsMember(w, i, k)
    ensures k in CloseItem(w, run, i, anc).findings
    ensures IsClosed(CloseItem(w, run, i, anc).findings[k].state) <==> IsClosed(ResolvedIn(w, run, i, k, anc).state)
    ensures OutcomeIn(w, run, i, k, anc) == StillPresent ==> !IsClosed(ResolvedIn(w, run, i, k, anc).state)
    ensures OutcomeIn(w, run, i, k, anc) != NotApplicable <==> Speaks(w, run, w.items[i], w.findings[k], anc)
  {
    hide ItemVerdict, OutcomeIn, Speaks, Says;
    OutcomeSays(w, run, i, k, anc, NotApplicable);
    OutcomeSays(w, run, i, k, anc, StillPresent);
    SpeaksUnlessSilent(w, run, w.items[i], w.findings[k], anc);
    SettledMeans(run, w.findings[k], OutcomeIn(w, run, i, k, anc), ItemVerdict(w, run, i, anc));
  }

  lemma SpeaksUnlessSilent(w: World, run: Run, it: WorkItem, f: Finding, anc: Ancestry)
    ensures Says(NotApplicable, w, run, it, f, anc) <==> !Speaks(w, run, it, f, anc)
    ensures Says(StillPresent, w, run, it, f, anc) ==> !IsClosed(f.state)
  {
    hide Speaks, ReportedBy, ReportedByOne, ApprovedFor;
  }

  /** What an outcome and the item's verdict make of a member. */
  lemma SettledMeans(run: Run, f: Finding, o: ClosingOutcome, v: Verdict)
    ensures var closed := f.(closedBy := Some(run.id));
      Settled(run, f, o, v) ==
        if o == FixedOutcome && !IsClosed(f.state) then closed.(state := Fixed)
        else if o == ApprovedOutcome && f.state in {InRemediation, FindingAwaitingRescan, HumanBlocked}
        then closed.(state := ApprovedDisposition)
        else if o == DisagreementOutcome && f.state in {InRemediation, HumanBlocked}
        then closed.(state := DisagreementResolved)
        else if o == StillPresent && v == ShowsPresent && f.state in {Grouped, InRemediation, FindingAwaitingRescan}
        then f.(state := HumanBlocked)
        else f
    ensures o != StillPresent ==> Settled(run, f, o, v) == Resolved(f, o, run.id)
    ensures o == StillPresent && !IsClosed(f.state) ==> !IsClosed(Settled(run, f, o, v).state)
    ensures o == StillPresent ==> Resolved(f, o, run.id) == f
  {
  }

  lemma VerdictMeans(w: World, run: Run, i: nat, anc: Ancestry)
    requires i < |w.items|
    ensures ItemVerdict(w, run, i, anc) == AllResolved <==> AllEndClosed(w, run, i, anc)
    ensures ItemVerdict(w, run, i, anc) == ShowsPresent <==> SomeStillPresent(w, run, i, anc)
  {
    hide Speaks, Says, OutcomeIn, ResolvedIn, CloseItem;
    forall k | IsMember(w, i, k)
      ensures k in CloseItem(w, run, i, anc).findings
      ensures OutcomeIn(w, run, i, k, anc) != NotApplicable <==> Speaks(w, run, w.items[i], w.findings[k], anc)
      ensures IsClosed(CloseItem(w, run, i, anc).findings[k].state) <==> IsClosed(ResolvedIn(w, run, i, k, anc).state)
      ensures OutcomeIn(w, run, i, k, anc) == StillPresent <==>
        Says(StillPresent, w, run, w.items[i], w.findings[k], anc)
      ensures OutcomeIn(w, run, i, k, anc) == StillPresent ==> !IsClosed(ResolvedIn(w, run, i, k, anc).state)
    {
      OutcomeSays(w, run, i, k, anc, StillPresent);
      ClosedIff(w, run, i, k, anc);
    }
  }

  /** Closing an item that waits for its rescan verifies it exactly when it has members, the run speaks for all of
      them and all of them end closed; it hands it to a human exactly when the run speaks for all of them and
      still shows one; otherwise the item goes on waiting. */
  lemma ClosingDecides(w: World, run: Run, i: nat, anc: Ancestry)
    requires i < |w.items| && w.items[i].state in {Merged, AwaitingRescan}
    ensures CloseItem(w, run, i, anc).items ==
      w.items[i := w.items[i].(state :=
        if AllEndClosed(w, run, i, anc) then Verified
        else if SomeStillPresent(w, run, i, anc) then NeedsHuman else AwaitingRescan)]
  {
    hide ItemVerdict, AllEndClosed, SomeStillPresent;
    VerdictMeans(w, run, i, anc);
  }

  /** Where the closing of its item leaves a member. */
  lemma MemberEnds(w: World, run: Run, i: nat, k: Key, anc: Ancestry)
    requires i < |w.items| && k in w.findings && w.findings[k].owner == Some(i)
    ensures var it, f := w.items[i], w.findings[k]; var closed := f.(closedBy := Some(run.id));
      CloseItem(w, run, i, anc).findings[k] ==
        if Says(FixedOutcome, w, run, it, f, anc) &&
          f.state !in {Fixed, ApprovedDisposition, DisagreementResolved} then closed.(state := Fixed)
        else if Says(ApprovedOutcome, w, run, it, f, anc) &&
          f.state in {InRemediation, FindingAwaitingRescan, HumanBlocked} then closed.(state := ApprovedDisposition)
        else if Says(DisagreementOutcome, w, run, it, f, anc) &&
          f.state in {InRemediation, HumanBlocked} then closed.(state := DisagreementResolved)
        else if Says(StillPresent, w, run, it, f, anc) && SomeStillPresent(w, run, i, anc) &&
          f.state in {Grouped, InRemediation, FindingAwaitingRescan} then f.(state := HumanBlocked)
        else f
  {
    hide ItemVerdict, OutcomeIn, Says, SomeStillPresent, MemberAfter, Settled;
    VerdictMeans(w, run, i, anc);
    SettledIn(w, run, i, k, anc);
    SettledMeans(run, w.findings[k], OutcomeIn(w, run, i, k, anc), ItemVerdict(w, run, i, anc));
    OutcomeSays(w, run, i, k, anc, FixedOutcome);
    OutcomeSays(w, run, i, k, anc, ApprovedOutcome);
    OutcomeSays(w, run, i, k, anc, DisagreementOutcome);
    OutcomeSays(w, run, i, k, anc, StillPresent);
  }

  // ---------------------------------------------------------------- the rest of the evaluation

  /** No merged item waits on the finding. */
  predicate NotAwaited(w: World, k: Key)
    requires k in w.findings
  {
    var owner := w.findings[k].owner;
    owner.Some? && owner.value < |w.items| ==> w.items[owner.value].state !in {Merged, AwaitingRescan}
  }

  lemma {:induction false} ClosingLeavesOthers(w: World, run: Run, anc: Ancestry, n: nat, k: Key)
    requires n <= |w.items| && k in w.findings && NotAwaited(w, k)
    ensures CloseBelow(w, run, anc, n).findings[k] == w.findings[k]
  {
    hide MemberAfter, ItemVerdict, StateAfter;
    if n > 0 {
      ClosingLeavesOthers(w, run, anc, n - 1, k);
    }
  }

  lemma {:induction false} ClosingLeavesItems(w: World, run: Run, anc: Ancestry, n: nat, i: nat)
    requires n <= |w.items| && i < |w.items| && !AwaitsClosure(w.items[i])
    ensures CloseBelow(w, run, anc, n).items[i] == w.items[i]
  {
    hide MemberAfter, ItemVerdict, StateAfter;
    if n > 0 {
      ClosingLeavesItems(w, run, anc, n - 1, i);
    }
  }

  /** Some version of the family is in the run's raw reports. */
  ghost predicate ReportsFamily(run: Run, family: Family) {
    exists k :: k in run.reports && k.family == family && run.reports[k].rawBy != {}
  }

  lemma ReportsFamilyMeans(run: Run, family: Family)
    ensures ReportsFamily(run, family) <==> SomeonePresent(run, family)
  {
    if ReportsFamily(run, family) {
      var k :| k in run.reports && k.family == family && run.reports[k].rawBy != {};
      var d :| d in run.reports[k].rawBy;
      assert d == Trivy || d == Grype;
      assert RawPresent(run, family, d);
    }
    if SomeonePresent(run, family) {
      var d := if RawPresent(run, family, Trivy) then Trivy else Grype;
      var k :| k in run.reports && k.family == family && d in run.reports[k].rawBy;
      assert run.reports[k].rawBy != {};
    }
  }

  /** The commit a reopening scan must descend from. */
  function ClosersCommit(runs: map<nat, Run>, f: Finding): Option<nat> {
    match f.closedBy
    case Some(r) => if r in runs then Some(runs[r].sha) else None
    case None => None
  }

  lemma ReopeningMeans(w: World, run: Run, f: Finding, anc: Ancestry)
    ensures Reopens(w.runs, run, f, anc) <==>
      f.state == Fixed && ReportsFamily(run, f.key.family) &&
      Qualifies(run, f, ClosersCommit(w.runs, f), anc, false, Overtaken(w.runs, run, f))
  {
    hide IsClosingRun, Qualifies, IsSuperseded, Overtaken, ReportsFamily, SomeonePresent;
    ReportsFamilyMeans(run, f.key.family);
    OvertakenMeans(w.runs, run, f);
    ClosingRunMeans(run, f, ClosingSha(w.runs, f), anc, false, IsSuperseded(w.runs, run, f));
  }

  lemma {:induction false} ClosingLeavesClosed(w: World, run: Run, anc: Ancestry, n: nat, k: Key)
    requires n <= |w.items| && k in w.findings && IsClosed(w.findings[k].state)
    ensures CloseBelow(w, run, anc, n).findings[k] == w.findings[k]
  {
    hide MemberAfter, ItemVerdict, StateAfter, Says, SomeStillPresent;
    if n > 0 {
      ClosingLeavesClosed(w, run, anc, n - 1, k);
      var u := CloseBelow(w, run, anc, n - 1);
      if u.findings[k].owner == Some(n - 1) {
        ClosedIsNotWeighed(u, run, n - 1, k, anc);
      }
    }
  }

  lemma ClosedIsNotWeighed(w: World, run: Run, i: nat, k: Key, anc: Ancestry)
    requires i < |w.items| && IsMember(w, i, k) && IsClosed(w.findings[k].state)
    ensures CloseItem(w, run, i, anc).findings[k] == w.findings[k]
  {
    hide Speaks, SomeStillPresent, ReportedBy, ReportedByOne, ApprovedFor, CloseItem;
    MemberEnds(w, run, i, k, anc);
  }

  /** A closed finding comes out of an evaluation as it was, except that a fixed one whose family a valid scan,
      later than what closed it, reports again is a regression and loses its item. */
  lemma ClosedEvaluated(w: World, r: nat, k: Key, anc: Ancestry)
    requires r in w.runs && k in w.findings && w.findings[k].state in {Fixed, ApprovedDisposition, DisagreementResolved}
    ensures var f, run, v := w.findings[k], w.runs[r], Evaluate(w, r, anc);
      k in v.findings &&
      v.findings[k] ==
        if f.state == Fixed && ReportsFamily(run, f.key.family) &&
          Qualifies(run, f, ClosersCommit(w.runs, f), anc, false, Overtaken(w.runs, run, f))
        then f.(state := Regression, owner := None) else f
  {
    hide CloseBelow, Reopens, Qualifies, Overtaken, ReportsFamily, IsClosingRun, SomeonePresent;
    ClosingLeavesClosed(w, w.runs[r], anc, |w.items|, k);
    ReopeningMeans(w, w.runs[r], w.findings[k], anc);
  }

  /** The finding is nobody's yet, or its item has not been dispatched. */
  predicate Idle(w: World, f: Finding) {
    f.state in {Open, Unclassified} ||
    (f.state == Grouped &&
     (f.owner.Some? ==> f.owner.value < |w.items| && w.items[f.owner.value].state in {Queued, IssueOpen}))
  }

  /** A finding that is not closed is closed by an evaluation outside the merged items exactly when it is idle,
      another scan saw it last, no scanner reports its family and the run is valid evidence for it. */
  lemma OpenEvaluated(w: World, r: nat, k: Key, anc: Ancestry)
    requires r in w.runs && w.runs[r].id == r && k in w.findings && NotAwaited(w, k)
    requires w.findings[k].state !in {Fixed, ApprovedDisposition, DisagreementResolved}
    ensures var f, run, v := w.findings[k], w.runs[r], Evaluate(w, r, anc);
      k in v.findings &&
      v.findings[k] ==
        if Idle(w, f) && f.lastSeen != r && !ReportsFamily(run, f.key.family) &&
          Qualifies(run, f, None, anc, false, Overtaken(w.runs, run, f))
        then f.(state := Fixed, closedBy := Some(r)) else f
  {
    hide CloseBelow, Reopens, Qualifies, Overtaken, ReportsFamily, IsClosingRun, IsSuperseded, SomeonePresent;
    var f, run := w.findings[k], w.runs[r];
    ClosingLeavesOthers(w, run, anc, |w.items|, k);
    ReopeningMeans(w, run, f, anc);
    ReportsFamilyMeans(run, f.key.family);
    OvertakenMeans(w.runs, run, f);
    ClosingRunMeans(run, f, None, anc, false, IsSuperseded(w.runs, run, f));
    if f.owner.Some? && f.owner.value < |w.items| {
      ClosingLeavesItems(w, run, anc, |w.items|, f.owner.value);
    }
  }

  // ---------------------------------------------------------------- items

  lemma DriftLeavesItem(b: World, run: Run, i: nat, anc: Ancestry)
    requires i < |b.items| && b.items[i].state !in {Queued, IssueOpen}
    ensures |Drift(b, run, anc).items| == |b.items| && Drift(b, run, anc).items[i] == b.items[i]
  {
    hide DriftOne, SomeonePresent;
    assert !Touched(b, run, i);
  }

  /** An item that waits for its rescan comes out of an evaluation as its own closing decides. */
  lemma WaitingItemEvaluated(w: World, r: nat, i: nat, anc: Ancestry)
    requires r in w.runs && i < |w.items| && w.items[i].state in {Merged, AwaitingRescan}
    ensures |Evaluate(w, r, anc).items| == |w.items|
    ensures Evaluate(w, r, anc).items[i] ==
      w.items[i].(state :=
        if AllEndClosed(w, w.runs[r], i, anc) then Verified
        else if SomeStillPresent(w, w.runs[r], i, anc) then NeedsHuman else AwaitingRescan)
  {
    hide AllEndClosed, SomeStillPresent, Drift, Regressions, CloseItem;
    ClosingDecides(w, w.runs[r], i, anc);
    EvaluateAt(w, r, i, anc);
  }

  /** Something the item stands for is gone from the run's reports. */
  ghost predicate LosesMember(w: World, run: Run, i: nat) {
    exists k :: k in w.findings && w.findings[k].owner == Some(i) && w.findings[k].state == Grouped &&
      w.findings[k].lastSeen != run.id && !ReportsFamily(run, w.findings[k].key.family)
  }

  ghost predicate MembersAreClosed(v: World, i: nat) {
    forall k :: k in v.findings && v.findings[k].owner == Some(i) ==>
      v.findings[k].state in {Fixed, ApprovedDisposition, DisagreementResolved}
  }

  lemma TouchedMeans(b: World, run: Run, i: nat)
    requires i < |b.items| && b.items[i].state in {Queued, IssueOpen}
    ensures Touched(b, run, i) <==> LosesMember(b, run, i)
  {
    hide SomeonePresent, ReportsFamily;
    forall k | IsMember(b, i, k)
      ensures ReportsFamily(run, b.findings[k].key.family) <==> SomeonePresent(run, b.findings[k].key.family)
    {
      ReportsFamilyMeans(run, b.findings[k].key.family);
    }
    if LosesMember(b, run, i) {
      var k :| IsMember(b, i, k) && b.findings[k].state == Grouped && b.findings[k].lastSeen != run.id &&
        !ReportsFamily(run, b.findings[k].key.family);
      assert Driftable(b.items, run, b.findings[k]);
    }
  }

  lemma RetiresMeans(b: World, run: Run, i: nat, anc: Ancestry)
    requires i < |b.items| && b.items[i].state in {Queued, IssueOpen}
    ensures |Drift(b, run, anc).items| == |b.items|
    ensures Drift(b, run, anc).items[i] ==
      if LosesMember(b, run, i) && MembersAreClosed(Drift(b, run, anc), i) then b.items[i].(state := Abandoned)
      else b.items[i]
  {
    hide DriftOne, Touched, LosesMember;
    forall k | k in b.findings ensures DriftOne(b, run, b.findings[k], anc).owner == b.findings[k].owner {
      DriftKeepsOwner(b, run, b.findings[k], anc);
    }
    TouchedMeans(b, run, i);
    var v := Drift(b, run, anc);
    forall k ensures k in v.findings && v.findings[k].owner == Some(i) <==> IsMember(b, i, k) {
    }
    forall k | IsMember(b, i, k) ensures v.findings[k] == DriftOne(b, run, b.findings[k], anc) {
    }
    assert Retires(b, run, i, anc) <==> LosesMember(b, run, i) && MembersAreClosed(Drift(b, run, anc), i);
  }

  lemma DriftKeepsOwner(w: World, run: Run, f: Finding, anc: Ancestry)
    ensures DriftOne(w, run, f, anc).owner == f.owner
  {
    hide IsClosingRun, IsSuperseded, SomeonePresent;
  }

  lemma SameLosses(w: World, b: World, r: nat, i: nat, anc: Ancestry)
    requires r in w.runs && w.runs[r].id == r && i < |w.items| && w.items[i].state in {Queued, IssueOpen}
    requires b == Regressions(CloseBelow(w, w.runs[r], anc, |w.items|), w.runs[r], anc)
    ensures LosesMember(b, w.runs[r], i) <==> LosesMember(w, w.runs[r], i)
  {
    hide CloseBelow, Reopens, ReportsFamily, FairMove, LeavesFixed;
    var run := w.runs[r];
    CloseBelowIsFair(w, run, anc, |w.items|);
    forall k | IsMember(w, i, k)
      ensures b.findings[k] == RegressOne(w.runs, run, w.findings[k], anc)
      ensures w.findings[k].state == Grouped ==> b.findings[k] == w.findings[k]
    {
      ClosingLeavesOthers(w, run, anc, |w.items|, k);
      GroupedIsNoRegression(w, run, w.findings[k], anc);
    }
  }

  lemma GroupedIsNoRegression(w: World, run: Run, f: Finding, anc: Ancestry)
    ensures f.state == Grouped ==> RegressOne(w.runs, run, f, anc) == f
    ensures RegressOne(w.runs, run, f, anc).state == Grouped ==> f.state == Grouped
    ensures RegressOne(w.runs, run, f, anc).owner in {None, f.owner}
  {
    hide IsClosingRun, IsSuperseded, SomeonePresent;
  }

  /** An undispatched item is abandoned by an evaluation exactly when a grouped member it looked at is gone from
      the reports and every member left to the item ends closed. */
  lemma UndispatchedItemEvaluated(w: World, r: nat, i: nat, anc: Ancestry)
    requires r in w.runs && w.runs[r].id == r && i < |w.items| && w.items[i].state in {Queued, IssueOpen}
    ensures |Evaluate(w, r, anc).items| == |w.items|
    ensures Evaluate(w, r, anc).items[i] ==
      if LosesMember(w, w.runs[r], i) && MembersAreClosed(Evaluate(w, r, anc), i)
      then w.items[i].(state := Abandoned) else w.items[i]
  {
    hide CloseBelow, Regressions, Drift, LosesMember;
    var run := w.runs[r];
    var b := Regressions(CloseBelow(w, run, anc, |w.items|), run, anc);
    ClosingLeavesItems(w, run, anc, |w.items|, i);
    RegressionsKeepItems(CloseBelow(w, run, anc, |w.items|), run, anc);
    SameLosses(w, b, r, i, anc);
    RetiresMeans(b, run, i, anc);
  }

  lemma RegressionsKeepItems(a: World, run: Run, anc: Ancestry)
    ensures Regressions(a, run, anc).items == a.items && Regressions(a, run, anc).runs == a.runs
  {
  }

  /** Every other item is left alone. */
  lemma OtherItemEvaluated(w: World, r: nat, i: nat, anc: Ancestry)
    requires r in w.runs && i < |w.items| && w.items[i].state !in {Queued, IssueOpen, Merged, AwaitingRescan}
    ensures |Evaluate(w, r, anc).items| == |w.items| && Evaluate(w, r, anc).items[i] == w.items[i]
  {
    hide CloseBelow, Drift, Regressions;
    var a := CloseBelow(w, w.runs[r], anc, |w.items|);
    ClosingLeavesItems(w, w.runs[r], anc, |w.items|, i);
    RegressionsKeepItems(a, w.runs[r], anc);
    DriftLeavesItem(Regressions(a, w.runs[r], anc), w.runs[r], i, anc);
  }
}
