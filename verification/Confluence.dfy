/** The order in which a merge and a scan of the merged branch are noticed does not matter; and when
    one evaluation reopens what it closed. */
module Confluence {
  import opened Domain
  import opened StateTables
  import opened Evidence
  import opened Closer
  import opened Closing
  import opened ClosingSoundness

  // ---------------------------------------------------------------- evaluation, item by item

  /** `u` and `w` say the same about item `i` and its members. */
  ghost predicate SameItem(w: World, u: World, i: nat) {
    i < |w.items| && i < |u.items| && u.items[i] == w.items[i] && u.runs == w.runs &&
    (forall k :: IsMember(w, i, k) <==> IsMember(u, i, k)) &&
    (forall k :: IsMember(w, i, k) ==> u.findings[k] == w.findings[k])
  }

  lemma SameVerdict(w: World, u: World, run: Run, i: nat, anc: Ancestry)
    requires SameItem(w, u, i)
    ensures ItemVerdict(u, run, i, anc) == ItemVerdict(w, run, i, anc)
    ensures forall k :: IsMember(w, i, k) ==> MemberAfter(u, run, i, k, anc) == MemberAfter(w, run, i, k, anc)
  {
    forall k | IsMember(w, i, k)
      ensures OutcomeIn(u, run, i, k, anc) == OutcomeIn(w, run, i, k, anc)
      ensures ResolvedIn(u, run, i, k, anc) == ResolvedIn(w, run, i, k, anc)
    {
    }
    forall o ensures AnyOutcome(u, run, i, anc, o) <==> AnyOutcome(w, run, i, anc, o) {
      SameOutcomes(w, u, run, i, anc, o);
      SameOutcomes(u, w, run, i, anc, o);
    }
    assert AnyMember(u, i) <==> AnyMember(w, i);
    assert AllMembersClose(u, run, i, anc) <==> AllMembersClose(w, run, i, anc);
  }

  lemma SameOutcomes(w: World, u: World, run: Run, i: nat, anc: Ancestry, o: ClosingOutcome)
    requires SameItem(w, u, i)
    ensures AnyOutcome(w, run, i, anc, o) ==> AnyOutcome(u, run, i, anc, o)
  {
    if AnyOutcome(w, run, i, anc, o) {
      var k :| IsMember(w, i, k) && OutcomeIn(w, run, i, k, anc) == o;
      assert IsMember(u, i, k) && OutcomeIn(u, run, i, k, anc) == o;
    }
  }

  lemma MemberKeepsOwner(w: World, run: Run, i: nat, k: Key, anc: Ancestry)
    requires i < |w.items| && k in w.findings
    ensures MemberAfter(w, run, i, k, anc).owner == w.findings[k].owner
  {
  }

  lemma CloseItemLeavesOthers(w: World, run: Run, j: nat, i: nat, anc: Ancestry)
    requires j < |w.items| && i < |w.items| && i != j
    ensures SameItem(w, CloseItem(w, run, j, anc), i)
  {
    forall k | k in w.findings ensures MemberAfter(w, run, j, k, anc).owner == w.findings[k].owner {
      MemberKeepsOwner(w, run, j, k, anc);
    }
  }

  lemma SameItemTwice(w: World, u: World, v: World, i: nat)
    requires SameItem(w, u, i) && SameItem(u, v, i)
    ensures SameItem(w, v, i)
  {
  }

  /** The loop over merged items reaches item `i` as it was, and leaves it as it left it. */
  lemma {:induction false} CloseBelowOn(w: World, run: Run, anc: Ancestry, n: nat, i: nat)
    requires n <= |w.items| && i < |w.items|
    ensures var v := CloseBelow(w, run, anc, n);
      if i < n && AwaitsClosure(w.items[i]) then SameItem(CloseItem(w, run, i, anc), v, i) else SameItem(w, v, i)
  {
    hide MemberAfter, ItemVerdict, StateAfter, IsMember;
    var v := CloseBelow(w, run, anc, n);
    if n > 0 {
      var u := CloseBelow(w, run, anc, n - 1);
      CloseBelowOn(w, run, anc, n - 1, i);
      if AwaitsClosure(w.items[n - 1]) {
        assert v == CloseItem(u, run, n - 1, anc);
        if i == n - 1 {
          SameItemCloses(w, u, run, i, anc);
        } else {
          CloseItemLeavesOthers(u, run, n - 1, i, anc);
          if i < n - 1 && AwaitsClosure(w.items[i]) {
            SameItemTwice(CloseItem(w, run, i, anc), u, v, i);
          } else {
            SameItemTwice(w, u, v, i);
          }
        }
      } else {
        assert v == u;
      }
    }
  }

  lemma SameItemCloses(w: World, u: World, run: Run, i: nat, anc: Ancestry)
    requires SameItem(w, u, i)
    ensures SameItem(CloseItem(w, run, i, anc), CloseItem(u, run, i, anc), i)
  {
    SameVerdict(w, u, run, i, anc);
    forall k | k in w.findings ensures MemberAfter(w, run, i, k, anc).owner == w.findings[k].owner {
      MemberKeepsOwner(w, run, i, k, anc);
    }
    forall k | k in u.findings ensures MemberAfter(u, run, i, k, anc).owner == u.findings[k].owner {
      MemberKeepsOwner(u, run, i, k, anc);
    }
    forall k ensures IsMember(CloseItem(w, run, i, anc), i, k) <==> IsMember(CloseItem(u, run, i, anc), i, k) {
      assert IsMember(w, i, k) <==> IsMember(u, i, k);
    }
  }

  // ---------------------------------------------------------------- one member, either way

  /** Only the scanners closure listens to report the family in the run. */
  ghost predicate OnlyWatchersReport(run: Run, f: Finding) {
    forall d :: RawPresent(run, f.key.family, d) ==> d in Watchers(f)
  }

  /** A member whose item is out to review or with a human, drifted by the run before the merge. */
  ghost function DriftedFirst(runs: map<nat, Run>, run: Run, f: Finding, anc: Ancestry): Finding {
    if f.state in {Open, Unclassified} && f.lastSeen != run.id && !SomeonePresent(run, f.key.family) &&
      IsClosingRun(run, f, None, anc, false, IsSuperseded(runs, run, f))
    then Shift(f, ClosingAbsent, Some(run.id)) else f
  }

  /** Whether drift took the member first makes no difference to its outcome, nor, once decided, to
      whether it is closed. */
  lemma DriftDoesNotMatter(runs: map<nat, Run>, run: Run, it: WorkItem, f: Finding, anc: Ancestry)
    requires !IsClosed(f.state) && OnlyWatchersReport(run, f)
    ensures var a := Shift(DriftedFirst(runs, run, f, anc), PrMerged, None); var b := Shift(f, PrMerged, None);
      var o := MemberOutcome(runs, run, it, a, anc);
      o == MemberOutcome(runs, run, it, b, anc) &&
      (o != NotApplicable ==> Resolved(a, o, run.id) == Resolved(b, o, run.id))
  {
    var a := Shift(DriftedFirst(runs, run, f, anc), PrMerged, None);
    var b := Shift(f, PrMerged, None);
    if DriftedFirst(runs, run, f, anc) != f {
      assert b == f && a == f.(state := Fixed, closedBy := Some(run.id));
      assert IsSuperseded(runs, run, a) == IsSuperseded(runs, run, f) == false;
      SameValidity(run, f, a, it.merge, anc, NeedsPolicy(it), false);
      assert !StillReported(run, f) && !StillReported(run, a) by {
        WatchersAreSomeone(run, f);
        WatchersAreSomeone(run, a);
      }
    }
  }

  /** What the rest of an evaluation does to a member whose item is past dispatch. */
  ghost function Afterwards(runs: map<nat, Run>, run: Run, g: Finding, anc: Ancestry): Finding {
    DriftedFirst(runs, run, RegressOne(runs, run, g, anc), anc)
  }

  lemma ClosedHereIsNotReopened(runs: map<nat, Run>, run: Run, g: Finding, anc: Ancestry)
    requires OnlyWatchersReport(run, g) && (g.state == Fixed ==> !StillReported(run, g))
    ensures RegressOne(runs, run, g, anc) == g
  {
    PresenceTestsAgree(run, g);
  }

  ghost function Settled(run: Run, g: Finding, o: ClosingOutcome, v: Verdict): Finding {
    var f := Resolved(g, o, run.id);
    if v == ShowsPresent && o == StillPresent then Shift(f, BlockByHuman, None) else f
  }

  lemma SettledKeeps(run: Run, g: Finding, o: ClosingOutcome, v: Verdict)
    ensures var h := Settled(run, g, o, v);
      h == g.(state := h.state, closedBy := h.closedBy) &&
      (h.state in {Open, Unclassified} ==> h == g) && (h.state == Fixed ==> g.state == Fixed || o == FixedOutcome) &&
      (o == FixedOutcome && g.state in {Open, Unclassified} ==> h.state == Fixed)
  {
  }

  /** Scan first, or merge first: the member ends the same. */
  lemma MemberConverges(runs: map<nat, Run>, run: Run, it: WorkItem, f: Finding, anc: Ancestry, v: Verdict)
    requires !IsClosed(f.state) && OnlyWatchersReport(run, f)
    ensures var a := Shift(DriftedFirst(runs, run, f, anc), PrMerged, None); var b := Shift(f, PrMerged, None);
      var o := MemberOutcome(runs, run, it, b, anc);
      Settled(run, a, o, v) == Afterwards(runs, run, Settled(run, b, o, v), anc)
  {
    var a := Shift(DriftedFirst(runs, run, f, anc), PrMerged, None);
    var b := Shift(f, PrMerged, None);
    var o := MemberOutcome(runs, run, it, b, anc);
    var h := Settled(run, b, o, v);
    DriftDoesNotMatter(runs, run, it, f, anc);
    SettledKeeps(run, b, o, v);
    assert b == f.(state := b.state, closedBy := b.closedBy) && !IsClosed(b.state);
    assert OnlyWatchersReport(run, h);
    assert h.state == Fixed ==> o == FixedOutcome;
    assert StillReported(run, h) == StillReported(run, b);
    ClosedHereIsNotReopened(runs, run, h, anc);
    if o != NotApplicable {
      assert Settled(run, a, o, v) == h;
      if h.state in {Open, Unclassified} {
        assert StillReported(run, h);
        WatchersAreSomeone(run, h);
      }
    }
  }

  // ---------------------------------------------------------------- the whole evaluation, at one item

  /** Where the closing loop leaves item `i` and its members. */
  ghost function ClosedAt(w: World, r: nat, i: nat, anc: Ancestry): World
    requires r in w.runs && i < |w.items|
  {
    if AwaitsClosure(w.items[i]) then CloseItem(w, w.runs[r], i, anc) else w
  }

  lemma DriftedLike(w: World, run: Run, f: Finding, i: nat, anc: Ancestry)
    requires i < |w.items| && w.items[i].state !in {Queued, IssueOpen}
    requires f.owner == Some(i) || f.state == Regression
    ensures DriftOne(w, run, f, anc) == DriftedFirst(w.runs, run, f, anc)
  {
  }

  /** Regression and drift, at an item past dispatch. */
  lemma RestOfEvaluation(a: World, run: Run, i: nat, anc: Ancestry)
    requires i < |a.items| && a.items[i].state !in {Queued, IssueOpen}
    ensures var d := Drift(Regressions(a, run, anc), run, anc);
      |d.items| == |a.items| && d.items[i] == a.items[i] && d.runs == a.runs &&
      (forall k :: IsMember(d, i, k) ==> IsMember(a, i, k)) &&
      (forall k :: IsMember(a, i, k) ==>
        k in d.findings && d.findings[k] == Afterwards(a.runs, run, a.findings[k], anc))
  {
    hide IsClosingRun, IsSuperseded, SomeonePresent;
    var b := Regressions(a, run, anc);
    var d := Drift(b, run, anc);
    forall k | IsMember(a, i, k)
      ensures k in d.findings && d.findings[k] == Afterwards(a.runs, run, a.findings[k], anc)
    {
      DriftedLike(b, run, RegressOne(a.runs, run, a.findings[k], anc), i, anc);
    }
    forall k | IsMember(d, i, k) ensures IsMember(a, i, k) {
      assert IsMember(b, i, k);
    }
    assert !Touched(b, run, i);
  }

  lemma EvaluateAt(w: World, r: nat, i: nat, anc: Ancestry)
    requires r in w.runs && i < |w.items| && ClosedAt(w, r, i, anc).items[i].state !in {Queued, IssueOpen}
    ensures var c := ClosedAt(w, r, i, anc); var v := Evaluate(w, r, anc);
      |v.items| == |w.items| && v.items[i] == c.items[i] && v.runs == w.runs && v.applied == w.applied + {r} &&
      (forall k :: IsMember(v, i, k) ==> IsMember(c, i, k)) &&
      (forall k :: IsMember(c, i, k) ==>
        k in v.findings && v.findings[k] == Afterwards(w.runs, w.runs[r], c.findings[k], anc))
  {
    hide Drift, Regressions, Afterwards;
    var run := w.runs[r];
    var c := ClosedAt(w, r, i, anc);
    var a := CloseBelow(w, run, anc, |w.items|);
    CloseBelowOn(w, run, anc, |w.items|, i);
    assert SameItem(c, a, i);
    RestOfEvaluation(a, run, i, anc);
  }

  // ---------------------------------------------------------------- confluence

  ghost predicate SameVerdictInputs(u: World, v: World, run: Run, i: nat, anc: Ancestry) {
    i < |u.items| && i < |v.items| &&
    (forall k :: IsMember(u, i, k) <==> IsMember(v, i, k)) &&
    (forall k :: IsMember(u, i, k) ==>
      var o := OutcomeIn(u, run, i, k, anc);
      o == OutcomeIn(v, run, i, k, anc) &&
      (o != NotApplicable ==> ResolvedIn(u, run, i, k, anc) == ResolvedIn(v, run, i, k, anc)))
  }

  lemma OutcomesCarryOver(u: World, v: World, run: Run, i: nat, anc: Ancestry, o: ClosingOutcome)
    requires SameVerdictInputs(u, v, run, i, anc)
    ensures AnyOutcome(u, run, i, anc, o) ==> AnyOutcome(v, run, i, anc, o)
  {
    if AnyOutcome(u, run, i, anc, o) {
      var k :| IsMember(u, i, k) && OutcomeIn(u, run, i, k, anc) == o;
      assert IsMember(v, i, k) && OutcomeIn(v, run, i, k, anc) == o;
    }
  }

  lemma ClosureCarriesOver(u: World, v: World, run: Run, i: nat, anc: Ancestry)
    requires SameVerdictInputs(u, v, run, i, anc) && !AnyOutcome(u, run, i, anc, NotApplicable)
    ensures AllMembersClose(u, run, i, anc) ==> AllMembersClose(v, run, i, anc)
  {
    if AllMembersClose(u, run, i, anc) {
      var k :| IsMember(u, i, k);
      assert IsMember(v, i, k);
      forall q | IsMember(v, i, q) ensures IsClosed(ResolvedIn(v, run, i, q, anc).state) {
        assert IsMember(u, i, q);
        assert OutcomeIn(u, run, i, q, anc) != NotApplicable;
      }
    }
  }

  lemma VerdictsAgree(u: World, v: World, run: Run, i: nat, anc: Ancestry)
    requires SameVerdictInputs(u, v, run, i, anc) && SameVerdictInputs(v, u, run, i, anc)
    ensures ItemVerdict(u, run, i, anc) == ItemVerdict(v, run, i, anc)
  {
    forall o ensures AnyOutcome(u, run, i, anc, o) <==> AnyOutcome(v, run, i, anc, o) {
      OutcomesCarryOver(u, v, run, i, anc, o);
      OutcomesCarryOver(v, u, run, i, anc, o);
    }
    if !AnyOutcome(u, run, i, anc, NotApplicable) {
      ClosureCarriesOver(u, v, run, i, anc);
      ClosureCarriesOver(v, u, run, i, anc);
    }
  }

  ghost predicate Comparable(w: World, r: nat, i: nat) {
    r in w.runs && i < |w.items| && TracksPr(w.items[i].state) &&
    forall k :: IsMember(w, i, k) ==> !IsClosed(w.findings[k].state) && OnlyWatchersReport(w.runs[r], w.findings[k])
  }

  /** Before the merge is seen, the run can only drift members that have no work under way. */
  lemma ScanBeforeMerge(w: World, r: nat, i: nat, anc: Ancestry)
    requires Comparable(w, r, i)
    ensures var v := Evaluate(w, r, anc);
      |v.items| == |w.items| && v.items[i] == w.items[i] && v.runs == w.runs && v.applied == w.applied + {r} &&
      (forall k :: IsMember(v, i, k) <==> IsMember(w, i, k)) &&
      (forall k :: IsMember(w, i, k) ==> v.findings[k] == DriftedFirst(w.runs, w.runs[r], w.findings[k], anc))
  {
    EvaluateAt(w, r, i, anc);
    forall k | IsMember(w, i, k)
      ensures Afterwards(w.runs, w.runs[r], w.findings[k], anc) == DriftedFirst(w.runs, w.runs[r], w.findings[k], anc)
      ensures DriftedFirst(w.runs, w.runs[r], w.findings[k], anc).owner == Some(i)
    {
    }
  }

  /** The two worlds in which the run is weighed: merge seen last, with drift already taken, and
      merge seen first. */
  lemma SameWeighing(w: World, r: nat, i: nat, sha: Option<nat>, at: int, anc: Ancestry)
    requires Comparable(w, r, i)
    ensures var late := Merge(Evaluate(w, r, anc), i, sha, at); var early := Merge(w, i, sha, at);
      SameVerdictInputs(late, early, w.runs[r], i, anc) && SameVerdictInputs(early, late, w.runs[r], i, anc) &&
      late.items[i] == early.items[i]
  {
    var run := w.runs[r];
    ScanBeforeMerge(w, r, i, anc);
    var scanned := Evaluate(w, r, anc);
    var late, early := Merge(scanned, i, sha, at), Merge(w, i, sha, at);
    forall k ensures IsMember(late, i, k) <==> IsMember(early, i, k) {
      assert IsMember(late, i, k) <==> IsMember(scanned, i, k);
      assert IsMember(early, i, k) <==> IsMember(w, i, k);
    }
    forall k | IsMember(early, i, k)
      ensures OutcomeIn(late, run, i, k, anc) == OutcomeIn(early, run, i, k, anc)
      ensures OutcomeIn(late, run, i, k, anc) != NotApplicable ==>
        ResolvedIn(late, run, i, k, anc) == ResolvedIn(early, run, i, k, anc)
    {
      assert IsMember(w, i, k);
      DriftDoesNotMatter(w.runs, run, early.items[i], w.findings[k], anc);
    }
  }

  /** `r` is the one run that is evidence about a merge at `at`, and it is still to be evaluated. */
  ghost predicate IsTheEvidence(w: World, r: nat, at: int) {
    r in w.runs && r !in w.applied && w.runs[r].finished.Some? && w.runs[r].finished.value >= at &&
    forall q :: !Replays(w, at, q)
  }

  lemma ReplayOrders(w: World, r: nat, i: nat, at: int, anc: Ancestry)
    requires Comparable(w, r, i) && IsTheEvidence(w, r, at)
    ensures IsReplayOrder(Evaluate(w, r, anc), at, [r]) && IsReplayOrder(w, at, [])
    ensures |Evaluate(w, r, anc).items| == |w.items|
  {
    EvaluateAt(w, r, i, anc);
    var v := Evaluate(w, r, anc);
    forall q ensures q in [r] <==> Replays(v, at, q) {
      assert !Replays(w, at, q);
    }
  }

  lemma ReplayOne(w: World, r: nat, i: nat, anc: Ancestry)
    requires r in w.runs && i < |w.items| && AwaitsClosure(w.items[i])
    ensures ReplayRuns(w, i, [r], anc) == CloseItem(w, w.runs[r], i, anc)
  {
    assert [r][1..] == [];
  }

  lemma ClosureLeavesDispatch(s: WorkItemState, v: Verdict)
    requires s in {Merged, AwaitingRescan}
    ensures StateAfter(s, v) in {AwaitingRescan, Verified, NeedsHuman}
  {
  }

  lemma MemberCommutes(w: World, r: nat, i: nat, k: Key, sha: Option<nat>, at: int, anc: Ancestry)
    requires Comparable(w, r, i) && IsMember(w, i, k)
    ensures var late := Merge(Evaluate(w, r, anc), i, sha, at); var early := Merge(w, i, sha, at);
      k in late.findings &&
      MemberAfter(late, w.runs[r], i, k, anc) ==
      Afterwards(w.runs, w.runs[r], MemberAfter(early, w.runs[r], i, k, anc), anc)
  {
    var run := w.runs[r];
    var late, early := Merge(Evaluate(w, r, anc), i, sha, at), Merge(w, i, sha, at);
    ScanBeforeMerge(w, r, i, anc);
    SameWeighing(w, r, i, sha, at, anc);
    VerdictsAgree(late, early, run, i, anc);
    assert IsMember(early, i, k) && IsMember(late, i, k);
    MemberConverges(w.runs, run, early.items[i], w.findings[k], anc, ItemVerdict(early, run, i, anc));
    SettledIn(late, run, i, k, anc);
    SettledIn(early, run, i, k, anc);
  }

  /** The merge seen first, then the evaluation: what it leaves of the item and its members. */
  lemma MergeThenScan(w: World, r: nat, i: nat, sha: Option<nat>, at: int, anc: Ancestry)
    requires Comparable(w, r, i)
    ensures var early := Merge(w, i, sha, at); var v := Evaluate(early, r, anc);
      |v.items| == |w.items| && v.items[i] == CloseItem(early, w.runs[r], i, anc).items[i] &&
      forall k :: IsMember(w, i, k) ==>
        k in v.findings && k in early.findings &&
        v.findings[k] == Afterwards(w.runs, w.runs[r], MemberAfter(early, w.runs[r], i, k, anc), anc)
  {
    var run, early := w.runs[r], Merge(w, i, sha, at);
    ClosureLeavesDispatch(Merged, ItemVerdict(early, run, i, anc));
    EvaluateAt(early, r, i, anc);
    forall k | IsMember(w, i, k) ensures IsMember(CloseItem(early, run, i, anc), i, k) {
      assert IsMember(early, i, k);
      MemberKeepsOwner(early, run, i, k, anc);
    }
  }

  /** The scan first, then the merge. */
  ghost function ScanFirst(w: World, r: nat, i: nat, sha: Option<nat>, at: int, anc: Ancestry): World
    requires r in w.runs && i < |Evaluate(w, r, anc).items| && IsReplayOrder(Evaluate(w, r, anc), at, [r])
  {
    MergeSeen(Evaluate(w, r, anc), i, sha, at, [r], anc)
  }

  /** The merge first, with nothing to replay, then the scan. */
  ghost function MergeFirst(w: World, r: nat, i: nat, sha: Option<nat>, at: int, anc: Ancestry): World
    requires r in w.runs && i < |w.items| && IsReplayOrder(w, at, [])
  {
    Evaluate(MergeSeen(w, i, sha, at, [], anc), r, anc)
  }

  /** The merge of a tracked pull request and the scan that is evidence about it may be noticed in
      either order: the work item and every member it had end the same, owner and all. */
  lemma MergeAndScanCommute(w: World, r: nat, i: nat, sha: Option<nat>, at: int, anc: Ancestry)
    requires Comparable(w, r, i) && IsTheEvidence(w, r, at)
    ensures IsReplayOrder(Evaluate(w, r, anc), at, [r]) && IsReplayOrder(w, at, [])
    ensures |Evaluate(w, r, anc).items| == |w.items| == |MergeFirst(w, r, i, sha, at, anc).items|
    ensures ScanFirst(w, r, i, sha, at, anc).items[i] == MergeFirst(w, r, i, sha, at, anc).items[i]
    ensures forall k :: IsMember(w, i, k) ==>
      k in ScanFirst(w, r, i, sha, at, anc).findings && k in MergeFirst(w, r, i, sha, at, anc).findings &&
      ScanFirst(w, r, i, sha, at, anc).findings[k] == MergeFirst(w, r, i, sha, at, anc).findings[k]
  {
    hide ItemVerdict, Afterwards, MemberAfter, Drift, Regressions, IsClosingRun;
    var run := w.runs[r];
    ReplayOrders(w, r, i, at, anc);
    var scanned := Evaluate(w, r, anc);
    var late, early := Merge(scanned, i, sha, at), Merge(w, i, sha, at);
    ScanBeforeMerge(w, r, i, anc);
    ReplayOne(late, r, i, anc);
    assert ScanFirst(w, r, i, sha, at, anc) == CloseItem(late, run, i, anc);
    assert MergeFirst(w, r, i, sha, at, anc) == Evaluate(early, r, anc);
    MergeThenScan(w, r, i, sha, at, anc);
    SameWeighing(w, r, i, sha, at, anc);
    VerdictsAgree(late, early, run, i, anc);
    forall k | IsMember(w, i, k)
      ensures k in late.findings && CloseItem(late, run, i, anc).findings[k] == Evaluate(early, r, anc).findings[k]
    {
      MemberCommutes(w, r, i, k, sha, at, anc);
      assert IsMember(late, i, k);
    }
  }

  lemma SettledIn(w: World, run: Run, i: nat, k: Key, anc: Ancestry)
    requires i < |w.items| && k in w.findings
    ensures MemberAfter(w, run, i, k, anc) ==
      Settled(run, w.findings[k], OutcomeIn(w, run, i, k, anc), ItemVerdict(w, run, i, anc))
  {
  }

  // ---------------------------------------------------------------- closing and reopening in one evaluation

  /** The run closes this member as fixed: its item waits for closure, its state can be closed, the run is
      valid evidence for it and no scanner closure listens to reports its family. */
  ghost predicate Closes(w: World, r: nat, i: nat, k: Key, anc: Ancestry) {
    r in w.runs && w.runs[r].id == r && i < |w.items| && AwaitsClosure(w.items[i]) && IsMember(w, i, k) &&
    NextFindingState(w.findings[k].state, ClosingAbsent).Some? && !StillReported(w.runs[r], w.findings[k]) &&
    IsClosingRun(w.runs[r], w.findings[k], w.items[i].merge, anc, NeedsPolicy(w.items[i]),
                 IsSuperseded(w.runs, w.runs[r], w.findings[k]))
  }

  /** The closing loop fixes exactly the members the run closes. */
  lemma FixesIffCloses(w: World, r: nat, i: nat, k: Key, anc: Ancestry)
    requires r in w.runs && w.runs[r].id == r && i < |w.items| && AwaitsClosure(w.items[i]) && IsMember(w, i, k)
    requires w.findings[k].state != Fixed
    ensures MemberAfter(w, w.runs[r], i, k, anc).state == Fixed <==> Closes(w, r, i, k, anc)
    ensures Closes(w, r, i, k, anc) ==>
      MemberAfter(w, w.runs[r], i, k, anc) == w.findings[k].(state := Fixed, closedBy := Some(r))
  {
    var f, run := w.findings[k], w.runs[r];
    var o := OutcomeIn(w, run, i, k, anc);
    SettledIn(w, run, i, k, anc);
    SettledKeeps(run, f, o, ItemVerdict(w, run, i, anc));
    OutcomeOfClosing(w, r, i, k, anc);
  }

  lemma OutcomeOfClosing(w: World, r: nat, i: nat, k: Key, anc: Ancestry)
    requires r in w.runs && w.runs[r].id == r && i < |w.items| && AwaitsClosure(w.items[i]) && IsMember(w, i, k)
    requires w.findings[k].state != Fixed
    ensures Closes(w, r, i, k, anc) <==>
      OutcomeIn(w, w.runs[r], i, k, anc) == FixedOutcome && NextFindingState(w.findings[k].state, ClosingAbsent).Some?
  {
    hide IsClosingRun, StillReported;
  }

  lemma ClosesIsValid(w: World, r: nat, i: nat, k: Key, anc: Ancestry)
    requires Closes(w, r, i, k, anc)
    ensures IsClosingRun(w.runs[r], w.findings[k], None, anc, false, IsSuperseded(w.runs, w.runs[r], w.findings[k]))
    ensures w.findings[k].state != Fixed
  {
    MergedIsStricter(w.runs[r], w.findings[k], w.items[i].merge, anc, NeedsPolicy(w.items[i]),
                     IsSuperseded(w.runs, w.runs[r], w.findings[k]));
  }

  /** Validity for drift plus an ancestry the run meets is validity against that ancestor. */
  lemma ValidAgainst(run: Run, f: Finding, sha: nat, anc: Ancestry, superseded: bool)
    requires IsClosingRun(run, f, None, anc, false, superseded) && IsDescendant(anc, sha, run.sha)
    ensures IsClosingRun(run, f, Some(sha), anc, false, superseded)
  {
  }

  lemma RegressionDecides(w: World, r: nat, i: nat, k: Key, anc: Ancestry)
    requires Closes(w, r, i, k, anc)
    ensures var run := w.runs[r]; var g := MemberAfter(w, run, i, k, anc);
      RegressOne(w.runs, run, g, anc) ==
        if OnlyWatchersReport(run, w.findings[k]) then g else g.(state := Regression, owner := None)
  {
    var run, f := w.runs[r], w.findings[k];
    var g := MemberAfter(w, run, i, k, anc);
    ClosesIsValid(w, r, i, k, anc);
    FixesIffCloses(w, r, i, k, anc);
    SameValidity(run, f, g, None, anc, false, false);
    assert IsSuperseded(w.runs, run, g) == IsLater(w.runs, run, f.lastSeen) == false;
    ValidAgainst(run, g, run.sha, anc, false);
    assert StillReported(run, g) == StillReported(run, f);
    if OnlyWatchersReport(run, f) {
      ClosedHereIsNotReopened(w.runs, run, g, anc);
    } else {
      var d :| RawPresent(run, f.key.family, d) && d !in Watchers(f);
      assert d == Trivy || d == Grype;
      assert Reopens(w.runs, run, g, anc);
    }
  }

  /** One evaluation that closes a member as fixed reopens it exactly when a scanner closure does not
      listen to reports the family in that very run. */
  lemma ClosesAndReopensIff(w: World, r: nat, i: nat, k: Key, anc: Ancestry)
    requires Closes(w, r, i, k, anc)
    ensures k in Evaluate(w, r, anc).findings
    ensures Evaluate(w, r, anc).findings[k].state ==
      (if OnlyWatchersReport(w.runs[r], w.findings[k]) then Fixed else Regression)
    ensures Evaluate(w, r, anc).findings[k].owner ==
      (if OnlyWatchersReport(w.runs[r], w.findings[k]) then Some(i) else None)
  {
    var run := w.runs[r];
    var g := MemberAfter(w, run, i, k, anc);
    ClosesIsValid(w, r, i, k, anc);
    FixesIffCloses(w, r, i, k, anc);
    MemberKeepsOwner(w, run, i, k, anc);
    assert IsMember(CloseItem(w, run, i, anc), i, k);
    ClosureLeavesDispatch(w.items[i].state, ItemVerdict(w, run, i, anc));
    EvaluateAt(w, r, i, anc);
    RegressionDecides(w, r, i, k, anc);
  }
}
