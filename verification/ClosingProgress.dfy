/** What an evaluation must do: clean, valid evidence verifies a merged item, and valid evidence that
    still shows a member hands it to a human. */
module ClosingProgress {
  import opened Domain
  import opened StateTables
  import opened Evidence
  import opened Closer
  import opened Closing
  import opened Confluence

  /** The run is valid evidence for every member of item `i`, and only the scanners closure listens to
      report their families. */
  ghost predicate Speaks(w: World, r: nat, i: nat, anc: Ancestry) {
    r in w.runs && w.runs[r].id == r && i < |w.items| && AwaitsClosure(w.items[i]) &&
    forall k :: IsMember(w, i, k) ==>
      var f := w.findings[k];
      OnlyWatchersReport(w.runs[r], f) &&
      IsClosingRun(w.runs[r], f, w.items[i].merge, anc, NeedsPolicy(w.items[i]), IsSuperseded(w.runs, w.runs[r], f))
  }

  /** There are members, and each is in a state that can still be closed as absent. */
  ghost predicate AllOpen(w: World, i: nat) {
    AnyMember(w, i) && forall k :: IsMember(w, i, k) ==> NextFindingState(w.findings[k].state, ClosingAbsent).Some?
  }

  lemma AbsentIsResolved(w: World, r: nat, i: nat, k: Key, anc: Ancestry)
    requires Speaks(w, r, i, anc) && AllOpen(w, i) && IsMember(w, i, k)
    ensures StillReported(w.runs[r], w.findings[k]) <==> OutcomeIn(w, w.runs[r], i, k, anc) != FixedOutcome
    ensures OutcomeIn(w, w.runs[r], i, k, anc) !in {NotApplicable, RegressionOutcome}
    ensures OutcomeIn(w, w.runs[r], i, k, anc) == FixedOutcome ==>
      ResolvedIn(w, w.runs[r], i, k, anc) == w.findings[k].(state := Fixed, closedBy := Some(r))
  {
  }

  lemma CleanVerdict(w: World, r: nat, i: nat, anc: Ancestry)
    requires Speaks(w, r, i, anc) && AllOpen(w, i)
    requires forall k :: IsMember(w, i, k) ==> !StillReported(w.runs[r], w.findings[k])
    ensures ItemVerdict(w, w.runs[r], i, anc) == AllResolved
  {
    hide IsClosingRun, Outcome;
    forall k | IsMember(w, i, k)
      ensures OutcomeIn(w, w.runs[r], i, k, anc) == FixedOutcome && ResolvedIn(w, w.runs[r], i, k, anc).state == Fixed
    {
      AbsentIsResolved(w, r, i, k, anc);
    }
    assert !AnyOutcome(w, w.runs[r], i, anc, NotApplicable);
    assert AllMembersClose(w, w.runs[r], i, anc);
  }

  /** A valid scan that shows no member of a merged item any more verifies it: every member ends fixed by
      that run and stays with the item, whatever else the evaluation does. */
  lemma CleanScanVerifies(w: World, r: nat, i: nat, anc: Ancestry)
    requires Speaks(w, r, i, anc) && AllOpen(w, i)
    requires forall k :: IsMember(w, i, k) ==> !StillReported(w.runs[r], w.findings[k])
    ensures |Evaluate(w, r, anc).items| == |w.items| && Evaluate(w, r, anc).items[i].state == Verified
    ensures forall k :: IsMember(w, i, k) ==>
      k in Evaluate(w, r, anc).findings &&
      Evaluate(w, r, anc).findings[k] == w.findings[k].(state := Fixed, closedBy := Some(r))
  {
    hide IsClosingRun, Outcome, Drift, Regressions;
    var run := w.runs[r];
    CleanVerdict(w, r, i, anc);
    VerdictDecides(w.items[i].state);
    EvaluateAt(w, r, i, anc);
    forall k | IsMember(w, i, k)
      ensures k in Evaluate(w, r, anc).findings
      ensures Evaluate(w, r, anc).findings[k] == w.findings[k].(state := Fixed, closedBy := Some(r))
    {
      AbsentIsResolved(w, r, i, k, anc);
      var g := w.findings[k].(state := Fixed, closedBy := Some(r));
      assert MemberAfter(w, run, i, k, anc) == g;
      assert IsMember(CloseItem(w, run, i, anc), i, k);
      ClosedHereIsNotReopened(w.runs, run, g, anc);
      assert Afterwards(w.runs, run, g, anc) == g;
    }
  }

  lemma VerdictDecides(s: WorkItemState)
    requires s in {Merged, AwaitingRescan}
    ensures StateAfter(s, AllResolved) == Verified && StateAfter(s, ShowsPresent) == NeedsHuman &&
      StateAfter(s, Undecided) == AwaitingRescan
  {
  }

  /** A scan that is not valid for some member decides nothing: the item keeps waiting. */
  lemma InvalidScanDecidesNothing(w: World, r: nat, i: nat, k: Key, anc: Ancestry)
    requires r in w.runs && i < |w.items| && AwaitsClosure(w.items[i]) && IsMember(w, i, k)
    requires !IsClosingRun(w.runs[r], w.findings[k], w.items[i].merge, anc, NeedsPolicy(w.items[i]),
      IsSuperseded(w.runs, w.runs[r], w.findings[k]))
    ensures |Evaluate(w, r, anc).items| == |w.items| && Evaluate(w, r, anc).items[i].state == AwaitingRescan
  {
    hide IsClosingRun, Drift, Regressions;
    assert OutcomeIn(w, w.runs[r], i, k, anc) == NotApplicable;
    assert AnyOutcome(w, w.runs[r], i, anc, NotApplicable);
    VerdictDecides(w.items[i].state);
    EvaluateAt(w, r, i, anc);
  }

  lemma PresentVerdict(w: World, r: nat, i: nat, k: Key, anc: Ancestry)
    requires Speaks(w, r, i, anc) && AllOpen(w, i) && IsMember(w, i, k)
    requires OutcomeIn(w, w.runs[r], i, k, anc) == StillPresent
    ensures ItemVerdict(w, w.runs[r], i, anc) == ShowsPresent
  {
    hide IsClosingRun, Outcome;
    forall q | IsMember(w, i, q) ensures OutcomeIn(w, w.runs[r], i, q, anc) != NotApplicable {
      AbsentIsResolved(w, r, i, q, anc);
    }
    assert ResolvedIn(w, w.runs[r], i, k, anc) == w.findings[k];
    assert AnyOutcome(w, w.runs[r], i, anc, StillPresent);
  }

  lemma UnresolvedIsPresent(w: World, r: nat, i: nat, k: Key, anc: Ancestry)
    requires Speaks(w, r, i, anc) && AllOpen(w, i) && IsMember(w, i, k) && StillReported(w.runs[r], w.findings[k])
    requires IsConfig(w.findings[k].key.family.layer) ||
      (!SuppressedByVex(w.runs[r], w.findings[k], w.items[i].issue) && w.items[i].resolution != DisagreementAccepted)
    ensures OutcomeIn(w, w.runs[r], i, k, anc) == StillPresent
  {
    hide SuppressedByVex, StillReported;
    assert !IsClosed(w.findings[k].state);
  }

  /** A member handed to a human is left alone by the rest of the evaluation. */
  lemma BlockedStays(w: World, run: Run, i: nat, k: Key, anc: Ancestry)
    requires i < |w.items| && IsMember(w, i, k) &&
      w.findings[k].state in {Grouped, InRemediation, FindingAwaitingRescan}
    requires ItemVerdict(w, run, i, anc) == ShowsPresent && OutcomeIn(w, run, i, k, anc) == StillPresent
    ensures MemberAfter(w, run, i, k, anc) == w.findings[k].(state := HumanBlocked)
    ensures Afterwards(w.runs, run, MemberAfter(w, run, i, k, anc), anc) == w.findings[k].(state := HumanBlocked)
  {
    hide ItemVerdict, IsClosingRun, Outcome;
  }

  /** A valid scan that still shows a member, unresolved by anything a human accepted, takes the item and
      that member to a human. */
  lemma PresentMemberGoesToAHuman(w: World, r: nat, i: nat, k: Key, anc: Ancestry)
    requires r in w.runs && i < |w.items| && AwaitsClosure(w.items[i]) && Speaks(w, r, i, anc)
    requires AllOpen(w, i) && IsMember(w, i, k) && StillReported(w.runs[r], w.findings[k])
    requires w.findings[k].state in {Grouped, InRemediation, FindingAwaitingRescan}
    requires IsConfig(w.findings[k].key.family.layer) ||
      (!SuppressedByVex(w.runs[r], w.findings[k], w.items[i].issue) && w.items[i].resolution != DisagreementAccepted)
    ensures |Evaluate(w, r, anc).items| == |w.items| && Evaluate(w, r, anc).items[i].state == NeedsHuman
    ensures k in Evaluate(w, r, anc).findings &&
      Evaluate(w, r, anc).findings[k] == w.findings[k].(state := HumanBlocked)
  {
    hide Drift, Regressions, Speaks, AllOpen, Afterwards, MemberAfter, StillReported;
    var run := w.runs[r];
    UnresolvedIsPresent(w, r, i, k, anc);
    PresentVerdict(w, r, i, k, anc);
    VerdictDecides(w.items[i].state);
    EvaluateAt(w, r, i, anc);
    BlockedStays(w, run, i, k, anc);
    assert IsMember(CloseItem(w, run, i, anc), i, k);
  }
}
