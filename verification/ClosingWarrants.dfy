/** What a closed finding and a verified item are worth, over all histories: what the run that closed them says
    in its own columns. */
module ClosingWarrants {
  import opened Domain
  import opened Evidence
  import opened Persist
  import opened Closer
  import opened Closing
  import opened ClosingSoundness
  import opened Confluence
  import opened EvaluationLaws

  // ---------------------------------------------------------------- verified items

  /** The item has members, and the run is valid evidence for every one of them. */
  ghost predicate Vouches(w: World, r: nat, i: nat) {
    r in w.runs && (exists k :: k in w.findings && w.findings[k].owner == Some(i)) &&
    forall k :: k in w.findings && w.findings[k].owner == Some(i) ==>
      Qualifies(w.runs[r], w.findings[k], None, {}, false, false)
  }

  /** Every member ended closed under the item. The exception is a finding reopened in the same breath: the
      verifying run itself reports its family, and it has no item any more. */
  ghost predicate MembersEndClosed(w: World, r: nat, i: nat, v: World)
    requires r in w.runs
  {
    forall k :: k in w.findings && w.findings[k].owner == Some(i) ==>
      k in v.findings && var g := v.findings[k];
      (g.owner == Some(i) && g.state in {Fixed, ApprovedDisposition, DisagreementResolved}) ||
      (g.owner == None && g.state == Regression && ReportsFamily(w.runs[r], w.findings[k].key.family))
  }

  lemma SpeaksIsEvidence(w: World, run: Run, it: WorkItem, f: Finding, anc: Ancestry)
    requires Speaks(w, run, it, f, anc)
    ensures Qualifies(run, f, None, {}, false, false)
  {
    hide IsClosingRun, Qualifies, Overtaken;
    var policy, superseded := it.noFix || it.resolution == DispositionApproved, Overtaken(w.runs, run, f);
    ClosingRunMeans(run, f, it.merge, anc, policy, superseded);
    MergedIsStricter(run, f, it.merge, anc, policy, superseded);
    EvidenceHere(run, f, anc, superseded);
    ClosingRunMeans(run, f, None, {}, false, false);
  }

  lemma ClosedAfterwards(runs: map<nat, Run>, run: Run, g: Finding, anc: Ancestry)
    requires IsClosed(g.state)
    ensures var h := Afterwards(runs, run, g, anc);
      h == g || (h.state == Regression && h.owner == None && ReportsFamily(run, g.key.family))
  {
    hide IsClosingRun, IsSuperseded, SomeonePresent, ReportsFamily;
    ReportsFamilyMeans(run, g.key.family);
  }

  lemma EvaluationVerifies(w: World, r: nat, i: nat, anc: Ancestry)
    requires r in w.runs && w.runs[r].id == r && i < |w.items| && w.items[i].state in {Merged, AwaitingRescan}
    requires i < |Evaluate(w, r, anc).items| && Evaluate(w, r, anc).items[i].state == Verified
    ensures Vouches(w, r, i) && MembersEndClosed(w, r, i, Evaluate(w, r, anc))
  {
    hide CloseItem, Drift, Regressions, CloseBelow, Speaks, Qualifies, Afterwards, ReportsFamily, SomeStillPresent;
    WaitingItemEvaluated(w, r, i, anc);
    ClosingDecides(w, w.runs[r], i, anc);
    EvaluateAt(w, r, i, anc);
    forall k | k in w.findings && w.findings[k].owner == Some(i)
      ensures Qualifies(w.runs[r], w.findings[k], None, {}, false, false)
    {
      SpeaksIsEvidence(w, w.runs[r], w.items[i], w.findings[k], anc);
    }
    var c, v := CloseItem(w, w.runs[r], i, anc), Evaluate(w, r, anc);
    forall k | k in w.findings && w.findings[k].owner == Some(i)
      ensures k in v.findings && var g := v.findings[k];
        (g.owner == Some(i) && g.state in {Fixed, ApprovedDisposition, DisagreementResolved}) ||
        (g.owner == None && g.state == Regression && ReportsFamily(w.runs[r], w.findings[k].key.family))
    {
      MemberKeepsName(w, w.runs[r], i, k, anc);
      assert IsMember(c, i, k);
      ClosedAfterwards(w.runs, w.runs[r], c.findings[k], anc);
    }
  }

  lemma MemberKeepsName(w: World, run: Run, i: nat, k: Key, anc: Ancestry)
    requires i < |w.items| && IsMember(w, i, k)
    ensures IsMember(CloseItem(w, run, i, anc), i, k)
    ensures CloseItem(w, run, i, anc).findings[k].key == w.findings[k].key
  {
    hide Says, SomeStillPresent, MemberAfter, StateAfter, ItemVerdict;
    MemberEnds(w, run, i, k, anc);
  }

  /** A replay that verifies the item does it by one of its runs. */
  lemma {:induction false} ReplayVerifies(w: World, i: nat, order: seq<nat>, anc: Ancestry) returns (r: nat)
    requires i < |w.items| && w.items[i].state in {Merged, AwaitingRescan}
    requires forall q :: q in order ==> q in w.runs && w.runs[q].id == q
    requires ReplayRuns(w, i, order, anc).items[i].state == Verified
    ensures r in order && Vouches(w, r, i)
    ensures var v := ReplayRuns(w, i, order, anc);
      forall k :: k in w.findings && w.findings[k].owner == Some(i) ==>
        k in v.findings && v.findings[k].owner == Some(i) && IsClosed(v.findings[k].state)
    decreases |order|
  {
    hide CloseItem, Vouches, AllEndClosed, SomeStillPresent, Fair, Steady, LeavesFixed;
    var run := w.runs[order[0]];
    var u := CloseItem(w, run, i, anc);
    CloseItemShape(w, run, i, anc);
    ClosingDecides(w, run, i, anc);
    CloseItemIsFair(w, run, i, anc);
    if u.items[i].state == Verified {
      r := order[0];
      ClosingVouches(w, r, i, anc);
    } else {
      if !AwaitsClosure(u.items[i]) {
        assert false;
      }
      r := ReplayVerifies(u, i, order[1..], anc);
      SameMembers(w, run, i, anc);
      VouchesBefore(w, u, r, i);
    }
  }

  lemma CloseItemShape(w: World, run: Run, i: nat, anc: Ancestry)
    requires i < |w.items|
    ensures var u := CloseItem(w, run, i, anc);
      |u.items| == |w.items| && u.runs == w.runs && u.findings.Keys == w.findings.Keys
  {
    hide MemberAfter, StateAfter, ItemVerdict;
  }

  lemma SameMembers(w: World, run: Run, i: nat, anc: Ancestry)
    requires i < |w.items|
    ensures var u := CloseItem(w, run, i, anc);
      forall k :: k in w.findings && w.findings[k].owner == Some(i) ==>
        k in u.findings && u.findings[k].owner == Some(i)
  {
    hide CloseItem;
    var u := CloseItem(w, run, i, anc);
    forall k | k in w.findings && w.findings[k].owner == Some(i)
      ensures k in u.findings && u.findings[k].owner == Some(i)
    {
      MemberKeepsName(w, run, i, k, anc);
    }
  }

  lemma ClosingVouches(w: World, r: nat, i: nat, anc: Ancestry)
    requires r in w.runs && i < |w.items| && AllEndClosed(w, w.runs[r], i, anc)
    ensures Vouches(w, r, i)
    ensures forall k :: k in w.findings && w.findings[k].owner == Some(i) ==>
      k in CloseItem(w, w.runs[r], i, anc).findings &&
      CloseItem(w, w.runs[r], i, anc).findings[k].owner == Some(i) &&
      IsClosed(CloseItem(w, w.runs[r], i, anc).findings[k].state)
  {
    hide Speaks, Qualifies, CloseItem;
    SameMembers(w, w.runs[r], i, anc);
    forall k | k in w.findings && w.findings[k].owner == Some(i)
      ensures Qualifies(w.runs[r], w.findings[k], None, {}, false, false)
    {
      SpeaksIsEvidence(w, w.runs[r], w.items[i], w.findings[k], anc);
      assert IsMember(w, i, k);
    }
  }

  lemma SameQualification(run: Run, f: Finding, g: Finding)
    requires g.key == f.key && g.openedBy == f.openedBy && g.openingDb == f.openingDb && g.description == f.description
    ensures Qualifies(run, g, None, {}, false, false) <==> Qualifies(run, f, None, {}, false, false)
  {
    hide IsClosingRun, Qualifies;
    ClosingRunMeans(run, f, None, {}, false, false);
    ClosingRunMeans(run, g, None, {}, false, false);
    SameValidity(run, f, g, None, {}, false, false);
  }

  lemma VouchesBefore(w: World, u: World, r: nat, i: nat)
    requires Fair(w, u) && Steady(w, u) && Vouches(u, r, i) && r in w.runs
    requires forall k :: k in w.findings && w.findings[k].owner == Some(i) ==> u.findings[k].owner == Some(i)
    ensures Vouches(w, r, i)
  {
    hide Qualifies, IsEvidence, Warrants;
    var q :| q in u.findings && u.findings[q].owner == Some(i);
    assert q in w.findings && w.findings[q].owner == Some(i);
    forall k | k in w.findings && w.findings[k].owner == Some(i)
      ensures Qualifies(w.runs[r], w.findings[k], None, {}, false, false)
    {
      assert FairMove(w, w.findings[k], u.findings[k]);
      SameQualification(w.runs[r], w.findings[k], u.findings[k]);
    }
  }

  lemma {:induction false} ReplayLeavesOthers(w: World, i: nat, order: seq<nat>, anc: Ancestry)
    requires i < |w.items| && forall r :: r in order ==> r in w.runs
    ensures var v := ReplayRuns(w, i, order, anc);
      (forall j :: 0 <= j < |w.items| && j != i ==> v.items[j] == w.items[j]) &&
      forall k :: k in w.findings && w.findings[k].owner != Some(i) ==> v.findings[k] == w.findings[k]
    decreases |order|
  {
    hide MemberAfter, StateAfter, ItemVerdict;
    if order != [] && AwaitsClosure(w.items[i]) {
      ReplayLeavesOthers(CloseItem(w, w.runs[order[0]], i, anc), i, order[1..], anc);
    }
  }

  lemma MergeLeavesOthers(w: World, i: nat, sha: Option<nat>, at: int, order: seq<nat>, anc: Ancestry)
    requires i < |w.items| && IsReplayOrder(w, at, order)
    ensures var v := MergeSeen(w, i, sha, at, order, anc);
      (forall j :: 0 <= j < |w.items| && j != i ==> v.items[j] == w.items[j]) &&
      forall k :: k in w.findings && w.findings[k].owner != Some(i) ==> v.findings[k] == w.findings[k]
  {
    hide ReplayRuns, Shift;
    ReplayLeavesOthers(Merge(w, i, sha, at), i, order, anc);
  }

  lemma MergeVerifies(w: World, i: nat, sha: Option<nat>, at: int, order: seq<nat>, anc: Ancestry) returns (r: nat)
    requires Inv(w) && i < |w.items| && IsReplayOrder(w, at, order)
    requires MergeSeen(w, i, sha, at, order, anc).items[i].state == Verified
    ensures r in w.applied && Vouches(w, r, i) && MembersEndClosed(w, r, i, MergeSeen(w, i, sha, at, order, anc))
  {
    hide ReplayRuns, Vouches, Fair, Backed, IsReplayOrder, ReportsFamily;
    var u := Merge(w, i, sha, at);
    ReplayedAreApplied(w, at, order);
    MergeIsFair(w, i, sha, at);
    forall k | k in w.findings && w.findings[k].owner == Some(i) ensures u.findings[k].owner == Some(i) {
      MergingIsFair(w, w.findings[k]);
    }
    r := ReplayVerifies(u, i, order, anc);
    VouchesBefore(w, u, r, i);
  }

  lemma ReplayedAreApplied(w: World, at: int, order: seq<nat>)
    requires IsReplayOrder(w, at, order)
    ensures forall r :: r in order ==> r in w.applied && r in w.runs
  {
    assert forall r :: r in order ==> Replays(w, at, r);
  }

  lemma StepVerifies(w: World, s: Step, i: nat) returns (r: nat)
    requires Inv(w) && Enabled(w, s) && i < |Next(w, s).items| && Next(w, s).items[i].state == Verified
    requires i < |w.items| ==> w.items[i].state != Verified
    ensures i < |w.items| && r in Next(w, s).applied && Vouches(w, r, i) && MembersEndClosed(w, r, i, Next(w, s))
  {
    hide Evaluate, MergeSeen, Vouches, MembersEndClosed, Backed, IsReplayOrder, Ingest, Shift, AllEndClosed,
      LosesMember, MembersAreClosed, SomeStillPresent;
    r := 0;
    match s
    case EvaluateStep(q, anc, _) =>
      EvaluateKeepsLength(w, q, anc);
      if w.items[i].state in {Merged, AwaitingRescan} {
        r := q;
        EvaluateMarks(w, q, anc);
        EvaluationVerifies(w, q, i, anc);
      } else if w.items[i].state in {Queued, IssueOpen} {
        UndispatchedItemEvaluated(w, q, i, anc);
        assert false;
      } else {
        OtherItemEvaluated(w, q, i, anc);
        assert false;
      }
    case MergeStep(j, sha, at, order, anc) =>
      MergeLeavesOthers(w, j, sha, at, order, anc);
      MergeSeenKeepsLog(w, j, sha, at, order, anc);
      MergeSeenIsFair(w, j, sha, at, order, anc);
      if i == j {
        r := MergeVerifies(w, i, sha, at, order, anc);
      }
    case _ =>
  }

  lemma EvaluateMarks(w: World, r: nat, anc: Ancestry)
    requires r in w.runs
    ensures r in Evaluate(w, r, anc).applied
  {
    hide CloseBelow, Regressions, Drift;
  }

  lemma EvaluateKeepsLength(w: World, r: nat, anc: Ancestry)
    requires r in w.runs && w.runs[r].id == r
    ensures |Evaluate(w, r, anc).items| == |w.items|
  {
    hide Evaluate, Fair;
    EvaluationIsFair(w, r, anc);
  }

  /** An item becomes verified only when a run, evaluated by then, is valid evidence for every member it had, and
      every one of them ends closed; a member the run itself reports again has left the item as a regression. */
  lemma VerifiedOnEvidence(history: seq<World>, n: nat, i: nat) returns (r: nat)
    requires IsHistory(history) && n + 1 < |history|
    requires i < |history[n + 1].items| && history[n + 1].items[i].state == Verified
    requires i < |history[n].items| ==> history[n].items[i].state != Verified
    ensures i < |history[n].items| && r in history[n + 1].applied
    ensures Vouches(history[n], r, i) && MembersEndClosed(history[n], r, i, history[n + 1])
  {
    hide Inv, Vouches, MembersEndClosed, Enabled, Next;
    HistoryKeeps(history, n);
    assert Linked(history[n], history[n + 1]);
    var s :| Leads(history[n], s, history[n + 1]);
    r := StepVerifies(history[n], s, i);
  }

  ghost predicate VerifiedAreClosed(w: World) {
    forall i: nat, k :: i < |w.items| && w.items[i].state == Verified && IsMember(w, i, k) ==>
      IsClosed(w.findings[k].state)
  }

  lemma EvaluationKeepsClosed(w: World, r: nat, anc: Ancestry, i: nat, k: Key)
    requires r in w.runs && w.runs[r].id == r && i < |w.items| && VerifiedAreClosed(w)
    requires i < |Evaluate(w, r, anc).items| && Evaluate(w, r, anc).items[i].state == Verified
    requires IsMember(Evaluate(w, r, anc), i, k)
    ensures IsClosed(Evaluate(w, r, anc).findings[k].state)
  {
    hide Evaluate, Vouches, Qualifies, ReportsFamily, Overtaken, AllEndClosed, SomeStillPresent, LosesMember,
      MembersAreClosed, FairMove;
    EvaluationIsFair(w, r, anc);
    assert k in w.findings && IsMember(w, i, k);
    if w.items[i].state in {Merged, AwaitingRescan} {
      EvaluationVerifies(w, r, i, anc);
    } else if w.items[i].state in {Queued, IssueOpen} {
      UndispatchedItemEvaluated(w, r, i, anc);
      assert false;
    } else {
      OtherItemEvaluated(w, r, i, anc);
      ClosedEvaluated(w, r, k, anc);
    }
  }

  lemma MergeKeepsClosed(w: World, j: nat, sha: Option<nat>, at: int, order: seq<nat>, anc: Ancestry, i: nat, k: Key)
    requires Inv(w) && VerifiedAreClosed(w) && j < |w.items| && TracksPr(w.items[j].state)
    requires IsReplayOrder(w, at, order) && i < |w.items|
    requires var v := MergeSeen(w, j, sha, at, order, anc);
      i < |v.items| && v.items[i].state == Verified && IsMember(v, i, k)
    ensures IsClosed(MergeSeen(w, j, sha, at, order, anc).findings[k].state)
  {
    hide MergeSeen, Vouches, Qualifies, ReportsFamily, FairMove, Backed, IsReplayOrder;
    MergeSeenIsFair(w, j, sha, at, order, anc);
    MergeLeavesOthers(w, j, sha, at, order, anc);
    assert IsMember(w, i, k);
    if i == j {
      var r := MergeVerifies(w, i, sha, at, order, anc);
    }
  }

  lemma IngestKeepsClosed(w: World, run: Run, i: nat, k: Key)
    requires KeyedByKey(w.findings) && run.id !in w.runs && VerifiedAreClosed(w)
    requires var v := Next(w, IngestStep(run));
      i < |v.items| && v.items[i].state == Verified && IsMember(v, i, k)
    ensures IsClosed(Next(w, IngestStep(run)).findings[k].state)
  {
    hide Refreshed, FinishedBefore, Opened;
    if k in w.findings {
      assert IsMember(w, i, k);
    }
  }

  lemma StepKeepsClosed(w: World, s: Step)
    requires Inv(w) && VerifiedAreClosed(w) && Enabled(w, s)
    ensures VerifiedAreClosed(Next(w, s))
  {
    hide Evaluate, MergeSeen, Backed, Chronological, Ingest, IsReplayOrder;
    var v := Next(w, s);
    forall i: nat, k | i < |v.items| && v.items[i].state == Verified && IsMember(v, i, k)
      ensures IsClosed(v.findings[k].state)
    {
      match s
      case IngestStep(run) => IngestKeepsClosed(w, run, i, k);
      case EvaluateStep(r, anc, ok) =>
        if r in w.applied || !ok {
          assert v == w;
        } else {
          InvFacts(w, r);
          EvaluateKeepsLength(w, r, anc);
          EvaluationKeepsClosed(w, r, anc, i, k);
        }
      case MergeStep(j, sha, at, order, anc) =>
        MergeKeepsLength(w, j, sha, at, order, anc);
        MergeKeepsClosed(w, j, sha, at, order, anc, i, k);
      case _ => assert IsMember(w, i, k) || s.GroupStep?;
    }
  }

  lemma InvFacts(w: World, r: nat)
    requires Inv(w) && r in w.runs
    ensures w.runs[r].id == r
  {
    hide Backed;
  }

  lemma MergeKeepsLength(w: World, i: nat, sha: Option<nat>, at: int, order: seq<nat>, anc: Ancestry)
    requires Inv(w) && i < |w.items| && IsReplayOrder(w, at, order)
    ensures |MergeSeen(w, i, sha, at, order, anc).items| == |w.items|
  {
    hide MergeSeen, Fair, Backed;
    MergeSeenIsFair(w, i, sha, at, order, anc);
  }

  lemma {:induction false} HistoryKeepsClosed(history: seq<World>, n: nat)
    requires IsHistory(history) && n < |history|
    ensures VerifiedAreClosed(history[n])
  {
    hide Inv, Enabled, Next, VerifiedAreClosed;
    if n == 0 {
      NothingIsVerified();
    } else {
      HistoryKeepsClosed(history, n - 1);
      HistoryKeeps(history, n - 1);
      assert Linked(history[n - 1], history[n - 1 + 1]);
      var s :| Leads(history[n - 1], s, history[n]);
      StepKeepsClosed(history[n - 1], s);
    }
  }

  lemma NothingIsVerified()
    ensures VerifiedAreClosed(START_WORLD)
  {
  }

  /** In every reachable state every finding under a verified item is closed. */
  lemma VerifiedItemsAreClosed(history: seq<World>, n: nat, i: nat, k: Key)
    requires IsHistory(history) && n < |history| && i < |history[n].items| && history[n].items[i].state == Verified
    requires k in history[n].findings && history[n].findings[k].owner == Some(i)
    ensures history[n].findings[k].state in {Fixed, ApprovedDisposition, DisagreementResolved}
  {
    HistoryKeepsClosed(history, n);
    assert IsMember(history[n], i, k);
  }

  // ---------------------------------------------------------------- what opened a finding

  /** Run `r`, ingested by step `m` of the history, is the first ingested run that reports `k`. */
  ghost predicate OpenedAt(history: seq<World>, m: nat, k: Key, r: nat) {
    m + 1 < |history| && r !in history[m].runs && r in history[m + 1].runs && k in history[m + 1].runs[r].reports &&
    forall q :: q in history[m].runs ==> k !in history[m].runs[q].reports
  }

  ghost predicate ReportedAreKnown(w: World) {
    forall r :: r in w.runs ==> w.runs[r].reports.Keys <= w.findings.Keys
  }

  lemma StepKeepsKnown(w: World, s: Step)
    requires Inv(w) && ReportedAreKnown(w) && Enabled(w, s)
    ensures ReportedAreKnown(Next(w, s))
    ensures forall r :: r in w.runs ==> r in Next(w, s).runs && Next(w, s).runs[r] == w.runs[r]
    ensures w.findings.Keys <= Next(w, s).findings.Keys
  {
    hide FairMove, Upserted, Backed, Chronological, Evaluate, MergeSeen, Shift, IsReplayOrder;
    if !s.IngestStep? {
      StepIsFair(w, s);
    }
  }

  lemma {:induction false} HistoryKnows(history: seq<World>, n: nat)
    requires IsHistory(history) && n < |history|
    ensures ReportedAreKnown(history[n])
  {
    hide Inv, Enabled, Next, ReportedAreKnown;
    if n == 0 {
      assert ReportedAreKnown(START_WORLD) by {
        NothingIsReported();
      }
    } else {
      HistoryKnows(history, n - 1);
      HistoryKeeps(history, n - 1);
      assert Linked(history[n - 1], history[n - 1 + 1]);
      var s :| Leads(history[n - 1], s, history[n]);
      StepKeepsKnown(history[n - 1], s);
    }
  }

  lemma NothingIsReported()
    ensures ReportedAreKnown(START_WORLD)
  {
  }

  /** The finding is new, and the step that brought it ingested the run that reports it. */
  lemma StepOpens(w: World, s: Step, k: Key) returns (r: nat)
    requires Inv(w) && Enabled(w, s) && k !in w.findings && k in Next(w, s).findings
    ensures r !in w.runs && r in Next(w, s).runs && k in Next(w, s).runs[r].reports
    ensures Next(w, s).findings[k].openedBy == Next(w, s).runs[r].reports[k].rawBy
    ensures Next(w, s).findings[k].openingDb == Next(w, s).runs[r].oldestDb
  {
    hide FairMove, Refreshed, Opened, Backed, Chronological, Evaluate, MergeSeen, Shift, IsReplayOrder;
    r := 0;
    if !s.IngestStep? {
      StepIsFair(w, s);
      assert false;
    } else {
      r := s.run.id;
    }
  }

  lemma StepKeepsOpening(w: World, s: Step, k: Key)
    requires Inv(w) && Enabled(w, s) && k in w.findings
    ensures k in Next(w, s).findings
    ensures Next(w, s).findings[k].openedBy == w.findings[k].openedBy
    ensures Next(w, s).findings[k].openingDb == w.findings[k].openingDb
  {
    hide Refreshed, Opened, FinishedBefore, IsEvidence, Warrants, Backed, Chronological, Evaluate, MergeSeen, Shift,
      IsReplayOrder;
    if !s.IngestStep? {
      StepIsFair(w, s);
      assert FairMove(w, w.findings[k], Next(w, s).findings[k]);
    }
  }

  /** Whatever happens to a finding, its openers and its opening database time are the raw reporters and the oldest
      database of the first ingested run that reported it. */
  lemma {:induction false} OpeningsAreKept(history: seq<World>, n: nat, k: Key) returns (m: nat, r: nat)
    requires IsHistory(history) && n < |history| && k in history[n].findings
    ensures m < n && OpenedAt(history, m, k, r)
    ensures r in history[n].runs && history[n].runs[r] == history[m + 1].runs[r]
    ensures history[n].findings[k].openedBy == history[n].runs[r].reports[k].rawBy
    ensures history[n].findings[k].openingDb == history[n].runs[r].oldestDb
  {
    hide Inv, Enabled, Next;
    if n == 0 {
      assert false;
    }
    HistoryKeeps(history, n - 1);
    HistoryKnows(history, n - 1);
    assert Linked(history[n - 1], history[n - 1 + 1]);
    var s :| Leads(history[n - 1], s, history[n]);
    StepKeepsKnown(history[n - 1], s);
    if k in history[n - 1].findings {
      m, r := OpeningsAreKept(history, n - 1, k);
      StepKeepsOpening(history[n - 1], s, k);
    } else {
      m := n - 1;
      r := StepOpens(history[n - 1], s, k);
    }
  }

  // ---------------------------------------------------------------- what backs a fixed finding

  /** The run lists a raw job of the scanner last, successful, on the pinned scanner version or a newer one and on
      a database no older than the given time. */
  ghost predicate RanFresh(run: Run, d: Scanner, since: Option<int>) {
    exists j :: 0 <= j < |run.jobs| && run.jobs[j].name == ScannerJob(d, Raw) &&
      (forall l :: j < l < |run.jobs| ==> run.jobs[l].name != ScannerJob(d, Raw)) &&
      run.jobs[j].success && run.jobs[j].version.Some? && run.jobs[j].version.value >= 0 &&
      (since.Some? ==> run.jobs[j].db.Some? && run.jobs[j].db.value >= since.value)
  }

  /** The run proves the finding absent that `opening` brought in: it is a complete scan of the fork's main with a
      closing trigger and no failed job; for configuration the configuration scan ran and does not report the family;
      for an image every scanner that reported the finding then ran fresh and reports no version of it now. */
  ghost predicate ProvesGone(run: Run, k: Key, opening: Run)
    requires k in opening.reports
  {
    run.repo == ForkRepo && run.branch == RemediationBranch && run.trigger != PullRequest && run.status == Complete &&
    (forall j :: 0 <= j < |run.jobs| ==> run.jobs[j].success) &&
    if k.family.layer in {DockerfileLayer, HelmLayer, ComposeLayer} then
      (exists j :: 0 <= j < |run.jobs| && run.jobs[j].name == ConfigJob(Raw)) &&
      forall q :: q in run.reports && q.family == k.family ==> Trivy !in run.reports[q].rawBy
    else
      run.digest.Some? && opening.reports[k].rawBy != {} &&
      (forall d :: d in opening.reports[k].rawBy ==> RanFresh(run, d, opening.oldestDb)) &&
      forall q :: q in run.reports && q.family == k.family ==> run.reports[q].rawBy !! opening.reports[k].rawBy
  }

  lemma FreshEnoughMeans(run: Run, d: Scanner, f: Finding)
    requires FreshEnough(run.jobs, ScannerJob(d, Raw), f)
    ensures RanFresh(run, d, f.openingDb)
  {
    NamedIsLast(run.jobs, ScannerJob(d, Raw));
    var j :| RanAs(run.jobs, j, ScannerJob(d, Raw));
    assert run.jobs[j].name == ScannerJob(d, Raw);
  }

  lemma BackingMeans(run: Run, f: Finding, opening: Run)
    requires f.key in opening.reports
    requires f.openedBy == opening.reports[f.key].rawBy && f.openingDb == opening.oldestDb
    requires ClosingGrade(run, f) && !StillReported(run, f)
    ensures ProvesGone(run, f.key, opening)
  {
    hide FreshEnough, RanFresh;
    StillReportedMeans(run, f);
    if IsConfig(f.key.family.layer) {
      NamedIsLast(run.jobs, ConfigJob(Raw));
      var j :| RanAs(run.jobs, j, ConfigJob(Raw));
      assert run.jobs[j].name == ConfigJob(Raw);
      forall q | q in run.reports && q.family == f.key.family ensures Trivy !in run.reports[q].rawBy {
        assert run.reports[q].rawBy * Watchers(f) == {};
        assert Trivy in Watchers(f);
      }
    } else {
      forall d | d in f.openedBy ensures RanFresh(run, d, f.openingDb) {
        FreshEnoughMeans(run, d, f);
      }
      forall q | q in run.reports && q.family == f.key.family ensures run.reports[q].rawBy !! f.openedBy {
        assert run.reports[q].rawBy * Watchers(f) == {};
      }
    }
  }

  /** In every reachable state a fixed finding names a run that proves it absent, by the measure of the run that
      brought the finding in: that run's reporters and that run's oldest database. */
  lemma EveryFixedIsBacked(history: seq<World>, n: nat, k: Key) returns (m: nat, r: nat)
    requires IsHistory(history) && n < |history| && k in history[n].findings && history[n].findings[k].state == Fixed
    ensures m < n && OpenedAt(history, m, k, r)
    ensures r in history[n].runs && history[n].runs[r] == history[m + 1].runs[r]
    ensures var closer := history[n].findings[k].closedBy;
      closer.Some? && closer.value in history[n].runs && k in history[n].runs[r].reports &&
      ProvesGone(history[n].runs[closer.value], k, history[n].runs[r])
  {
    hide ProvesGone, ClosingGrade, StillReported;
    HistoryKeeps(history, n);
    assert Backed(history[n].runs, history[n].findings[k]);
    m, r := OpeningsAreKept(history, n, k);
    BackingMeans(history[n].runs[history[n].findings[k].closedBy.value], history[n].findings[k], history[n].runs[r]);
  }

  // ---------------------------------------------------------------- what backs the other closing outcomes

  lemma StepWarrants(w: World, s: Step, k: Key)
    requires Inv(w) && Enabled(w, s) && k in w.findings && k in Next(w, s).findings
    requires IsClosed(Next(w, s).findings[k].state) && w.findings[k].state != Next(w, s).findings[k].state
    ensures var f, g := w.findings[k], Next(w, s).findings[k];
      g.closedBy.Some? && g.closedBy.value in w.runs && Warrants(w.items, w.runs[g.closedBy.value], f, g.state) &&
      Qualifies(w.runs[g.closedBy.value], f, None, {}, false, false)
  {
    hide Warrants, IsClosingRun, Qualifies, Refreshed, Opened, FinishedBefore, Evaluate, MergeSeen, Shift, Backed,
      Chronological, IsReplayOrder;
    var f, g := w.findings[k], Next(w, s).findings[k];
    if !s.IngestStep? {
      StepIsFair(w, s);
      assert FairMove(w, f, g);
      ClosingRunMeans(w.runs[g.closedBy.value], f, None, {}, false, false);
    }
  }

  /** A finding becomes an approved disposition only under an item with an issue, on a valid run whose policy scan
      applied an approval of the vulnerability naming that issue; a scanner that opened the finding still reports
      its family raw, and none of them does in the policy scan. */
  lemma ApprovedByTheIssuesApproval(history: seq<World>, n: nat, k: Key) returns (i: nat, r: nat)
    requires IsHistory(history) && n + 1 < |history| && k in history[n].findings && k in history[n + 1].findings
    requires history[n].findings[k].state != ApprovedDisposition
    requires history[n + 1].findings[k].state == ApprovedDisposition
    ensures r in history[n].runs && history[n + 1].findings[k].closedBy == Some(r)
    ensures Qualifies(history[n].runs[r], history[n].findings[k], None, {}, false, false)
    ensures i < |history[n].items| && history[n].findings[k].owner == Some(i)
    ensures var run, issue, openers := history[n].runs[r], history[n].items[i].issue, history[n].findings[k].openedBy;
      run.hasPolicy && issue.Some? && (issue.value, k.family.vuln) in run.vex &&
      (exists q :: q in run.reports && q.family == k.family && run.reports[q].rawBy * openers != {}) &&
      forall q :: q in run.reports && q.family == k.family ==>
        run.reports[q].rawBy * run.reports[q].policyBy * openers == {}
  {
    hide Qualifies, Backed, Chronological, Enabled, Next;
    HistoryKeeps(history, n);
    assert Linked(history[n], history[n + 1]);
    var s :| Leads(history[n], s, history[n + 1]);
    StepWarrants(history[n], s, k);
    i, r := history[n].findings[k].owner.value, history[n + 1].findings[k].closedBy.value;
  }

  /** A finding becomes a resolved disagreement only under an item whose disagreement a human accepted, on a valid
      run in which exactly one of the scanners that opened it still reports the family. */
  lemma DisagreementResolvedByAHuman(history: seq<World>, n: nat, k: Key) returns (i: nat, r: nat, d: Scanner)
    requires IsHistory(history) && n + 1 < |history| && k in history[n].findings && k in history[n + 1].findings
    requires history[n].findings[k].state != DisagreementResolved
    requires history[n + 1].findings[k].state == DisagreementResolved
    ensures r in history[n].runs && history[n + 1].findings[k].closedBy == Some(r)
    ensures Qualifies(history[n].runs[r], history[n].findings[k], None, {}, false, false)
    ensures i < |history[n].items| && history[n].findings[k].owner == Some(i)
    ensures history[n].items[i].resolution == DisagreementAccepted
    ensures var run, openers := history[n].runs[r], history[n].findings[k].openedBy;
      d in openers && (exists q :: q in run.reports && q.family == k.family && d in run.reports[q].rawBy) &&
      forall q :: q in run.reports && q.family == k.family ==> run.reports[q].rawBy * openers <= {d}
  {
    hide Qualifies, Backed, Chronological, Enabled, Next;
    HistoryKeeps(history, n);
    assert Linked(history[n], history[n + 1]);
    var s :| Leads(history[n], s, history[n + 1]);
    StepWarrants(history[n], s, k);
    i, r := history[n].findings[k].owner.value, history[n + 1].findings[k].closedBy.value;
    var f, run := history[n].findings[k], history[n].runs[r];
    d :| d in f.openedBy && ReportedBy(run, f, {d}) && !ReportedBy(run, f, f.openedBy - {d});
    OnlyOne(run, f, d);
  }

  lemma OnlyOne(run: Run, f: Finding, d: Scanner)
    requires d in f.openedBy && ReportedBy(run, f, {d}) && !ReportedBy(run, f, f.openedBy - {d})
    ensures exists q :: q in run.reports && q.family == f.key.family && d in run.reports[q].rawBy
    ensures forall q :: q in run.reports && q.family == f.key.family ==> run.reports[q].rawBy * f.openedBy <= {d}
  {
    forall q | q in run.reports && q.family == f.key.family ensures run.reports[q].rawBy * f.openedBy <= {d} {
      assert run.reports[q].rawBy * f.openedBy - {d} == run.reports[q].rawBy * (f.openedBy - {d});
    }
    var q :| q in run.reports && q.family == f.key.family && run.reports[q].rawBy * {d} != {};
    assert d in run.reports[q].rawBy;
  }
}
