/** Several scans beside one merge: what the order of noticing them can change, and exactly when. */
module MultipleScans {
  import opened Domain
  import opened Evidence
  import opened Closer
  import opened Closing
  import opened ClosingSoundness
  import opened Confluence

  /** The runs evaluated one after the other. */
  ghost function EvaluateEach(w: World, order: seq<nat>, anc: Ancestry): (v: World)
    requires forall r :: r in order ==> r in w.runs
    ensures v.runs == w.runs
    decreases |order|
  {
    if order == [] then w else EvaluateEach(Evaluate(w, order[0], anc), order[1..], anc)
  }

  /** Work on the member is under way or stopped: it is neither closed nor open to drift. */
  predicate IsUnderway(s: FindingState) {
    !IsClosed(s) && s !in {Open, Unclassified}
  }

  ghost predicate AllUnderway(w: World, i: nat) {
    i < |w.items| && forall k :: IsMember(w, i, k) ==> IsUnderway(w.findings[k].state)
  }

  // ---------------------------------------------------------------- before the merge

  /** Before the merge is seen an evaluation only marks its run. */
  lemma ScanLeavesItem(w: World, r: nat, i: nat, anc: Ancestry)
    requires r in w.runs && AllUnderway(w, i) && TracksPr(w.items[i].state)
    ensures SameItem(w, Evaluate(w, r, anc), i) && |Evaluate(w, r, anc).items| == |w.items|
    ensures Evaluate(w, r, anc).applied == w.applied + {r}
  {
    hide Drift, Regressions, CloseBelow;
    EvaluateAt(w, r, i, anc);
    forall k | IsMember(w, i, k) ensures Afterwards(w.runs, w.runs[r], w.findings[k], anc) == w.findings[k] {
      UnderwayStays(w.runs, w.runs[r], w.findings[k], anc);
    }
  }

  lemma UnderwayStays(runs: map<nat, Run>, run: Run, f: Finding, anc: Ancestry)
    requires IsUnderway(f.state)
    ensures Afterwards(runs, run, f, anc) == f
  {
  }

  lemma {:induction false} ScansLeaveItem(w: World, order: seq<nat>, i: nat, anc: Ancestry)
    requires (forall r :: r in order ==> r in w.runs) && AllUnderway(w, i) && TracksPr(w.items[i].state)
    ensures var v := EvaluateEach(w, order, anc);
      SameItem(w, v, i) && |v.items| == |w.items| && forall r :: r in v.applied <==> r in w.applied || r in order
    decreases |order|
  {
    if order != [] {
      hide Evaluate;
      var u := Evaluate(w, order[0], anc);
      ScanLeavesItem(w, order[0], i, anc);
      assert u.runs == w.runs;
      ScansLeaveItem(u, order[1..], i, anc);
      SameItemTwice(w, u, EvaluateEach(u, order[1..], anc), i);
      assert order == [order[0]] + order[1..];
    }
  }

  lemma MergesAlike(w: World, v: World, i: nat, sha: Option<nat>, at: int)
    requires SameItem(w, v, i)
    ensures SameItem(Merge(w, i, sha, at), Merge(v, i, sha, at), i)
  {
    forall k ensures IsMember(Merge(w, i, sha, at), i, k) <==> IsMember(Merge(v, i, sha, at), i, k) {
      assert IsMember(w, i, k) <==> IsMember(v, i, k);
    }
  }

  // ---------------------------------------------------------------- after the item is settled

  /** Some run of `order` reopens the finding as it is. */
  ghost predicate SomeReopens(runs: map<nat, Run>, order: seq<nat>, g: Finding, anc: Ancestry) {
    exists q :: q in order && q in runs && Reopens(runs, runs[q], g, anc)
  }

  /** Past its closure an item is only touched through its members. */
  predicate IsSettled(s: WorkItemState) {
    s !in {Queued, IssueOpen, Merged, AwaitingRescan}
  }

  lemma {:induction false} UnownedKeepsBelow(w: World, run: Run, anc: Ancestry, n: nat, k: Key)
    requires n <= |w.items| && k in w.findings && w.findings[k].owner == None
    ensures CloseBelow(w, run, anc, n).findings[k] == w.findings[k]
  {
    hide MemberAfter, ItemVerdict, StateAfter;
    if n > 0 {
      UnownedKeepsBelow(w, run, anc, n - 1, k);
    }
  }

  /** A regression that lost its item stays one until somebody groups it again. */
  lemma UnownedRegressionStays(w: World, r: nat, k: Key, anc: Ancestry)
    requires r in w.runs && k in w.findings && w.findings[k].owner == None && w.findings[k].state == Regression
    ensures k in Evaluate(w, r, anc).findings && Evaluate(w, r, anc).findings[k] == w.findings[k]
    ensures Evaluate(w, r, anc).runs == w.runs
  {
    hide MemberAfter, ItemVerdict, IsClosingRun, SomeonePresent, CloseBelow;
    UnownedKeepsBelow(w, w.runs[r], anc, |w.items|, k);
  }

  lemma {:induction false} UnownedRegressionsStay(w: World, order: seq<nat>, k: Key, anc: Ancestry)
    requires (forall r :: r in order ==> r in w.runs) && k in w.findings
    requires w.findings[k].owner == None && w.findings[k].state == Regression
    ensures k in EvaluateEach(w, order, anc).findings && EvaluateEach(w, order, anc).findings[k] == w.findings[k]
    decreases |order|
  {
    hide Evaluate;
    if order != [] {
      UnownedRegressionStays(w, order[0], k, anc);
      UnownedRegressionsStay(Evaluate(w, order[0], anc), order[1..], k, anc);
    }
  }

  lemma RegressedOrKept(runs: map<nat, Run>, run: Run, g: Finding, anc: Ancestry)
    requires g.state !in {Open, Unclassified}
    ensures var h := Afterwards(runs, run, g, anc);
      if Reopens(runs, run, g, anc) then h.state == Regression && h.owner == None && IsClosed(g.state) else h == g
  {
    hide IsClosingRun, SomeonePresent, PolicySuppressed;
  }

  /** What later evaluations do to a settled item and one of its members: nothing to the item, and to the
      member exactly what the first run that reopens it does. */
  lemma {:induction false} LaterScans(w: World, order: seq<nat>, i: nat, k: Key, anc: Ancestry)
    requires (forall r :: r in order ==> r in w.runs) && i < |w.items| && IsSettled(w.items[i].state) &&
      IsMember(w, i, k)
    requires w.findings[k].state !in {Open, Unclassified}
    ensures var v := EvaluateEach(w, order, anc);
      |v.items| == |w.items| && v.items[i] == w.items[i] && k in v.findings &&
      if SomeReopens(w.runs, order, w.findings[k], anc)
      then v.findings[k].state == Regression && v.findings[k].owner == None
      else v.findings[k] == w.findings[k]
    decreases |order|
  {
    hide Evaluate, Reopens, Afterwards;
    if order != [] {
      var u := Evaluate(w, order[0], anc);
      EvaluateAt(w, order[0], i, anc);
      RegressedOrKept(w.runs, w.runs[order[0]], w.findings[k], anc);
      assert order == [order[0]] + order[1..];
      if Reopens(w.runs, w.runs[order[0]], w.findings[k], anc) {
        UnownedRegressionsStay(u, order[1..], k, anc);
        SettledItemStays(u, order[1..], i, anc);
        assert SomeReopens(w.runs, order, w.findings[k], anc);
      } else {
        LaterScans(u, order[1..], i, k, anc);
        assert SomeReopens(w.runs, order, w.findings[k], anc) <==> SomeReopens(w.runs, order[1..], w.findings[k], anc);
      }
    }
  }

  lemma {:induction false} SettledItemStays(w: World, order: seq<nat>, i: nat, anc: Ancestry)
    requires (forall r :: r in order ==> r in w.runs) && i < |w.items| && IsSettled(w.items[i].state)
    ensures var v := EvaluateEach(w, order, anc); |v.items| == |w.items| && v.items[i] == w.items[i]
    decreases |order|
  {
    hide Evaluate;
    if order != [] {
      EvaluateAt(w, order[0], i, anc);
      SettledItemStays(Evaluate(w, order[0], anc), order[1..], i, anc);
    }
  }

  // ---------------------------------------------------------------- both orders

  /** The run is valid evidence for no member: it leaves the item waiting and the members as they are. */
  ghost predicate Idles(w: World, r: nat, i: nat, anc: Ancestry)
    requires r in w.runs && i < |w.items|
  {
    forall k :: IsMember(w, i, k) ==>
      !IsClosingRun(w.runs[r], w.findings[k], w.items[i].merge, anc, NeedsPolicy(w.items[i]),
        IsSuperseded(w.runs, w.runs[r], w.findings[k]))
  }

  /** The run decides the item: it no longer waits for closure. */
  ghost predicate Settles(w: World, r: nat, i: nat, anc: Ancestry)
    requires r in w.runs && i < |w.items|
  {
    !AwaitsClosure(CloseItem(w, w.runs[r], i, anc).items[i])
  }

  lemma IdleLeaves(w: World, r: nat, i: nat, anc: Ancestry)
    requires r in w.runs && i < |w.items| && AwaitsClosure(w.items[i]) && Idles(w, r, i, anc)
    ensures var c := CloseItem(w, w.runs[r], i, anc);
      c.items[i] == w.items[i].(state := AwaitingRescan) && c.findings == w.findings
  {
    hide IsClosingRun;
    forall k | IsMember(w, i, k) ensures OutcomeIn(w, w.runs[r], i, k, anc) == NotApplicable {
    }
    forall k | IsMember(w, i, k) ensures MemberAfter(w, w.runs[r], i, k, anc) == w.findings[k] {
    }
    assert ItemVerdict(w, w.runs[r], i, anc) in {Undecided, NothingLeft} by {
      if AnyMember(w, i) {
        var k :| IsMember(w, i, k);
        assert AnyOutcome(w, w.runs[r], i, anc, NotApplicable);
      }
    }
    StaysWaiting(w.items[i].state);
  }

  lemma StaysWaiting(s: WorkItemState)
    requires s in {Merged, AwaitingRescan}
    ensures StateAfter(s, Undecided) == AwaitingRescan && StateAfter(s, NothingLeft) == AwaitingRescan
  {
  }

  /** An idle run says the same whether the merge was noticed before or after it. */
  lemma IdleKeepsPace(e: World, l: World, q: nat, i: nat, anc: Ancestry)
    requires SameItem(e, l, i) && q in e.runs && AwaitsClosure(e.items[i]) && AllUnderway(e, i) && Idles(e, q, i, anc)
    ensures var u, v := Evaluate(e, q, anc), CloseItem(l, l.runs[q], i, anc);
      SameItem(u, v, i) && u.runs == e.runs && u.items[i] == e.items[i].(state := AwaitingRescan) &&
      (forall k :: IsMember(e, i, k) <==> IsMember(u, i, k)) &&
      (forall k :: IsMember(e, i, k) ==> u.findings[k] == e.findings[k])
  {
    hide Evaluate, IsClosingRun, CloseItem, Afterwards;
    assert Idles(l, q, i, anc);
    IdleLeaves(e, q, i, anc);
    IdleLeaves(l, q, i, anc);
    EvaluateAt(e, q, i, anc);
    CloseItemFrame(l, l.runs[q], i, anc);
    forall k | IsMember(e, i, k) ensures Afterwards(e.runs, e.runs[q], e.findings[k], anc) == e.findings[k] {
      UnderwayStays(e.runs, e.runs[q], e.findings[k], anc);
    }
    CloseItemFrame(e, e.runs[q], i, anc);
  }

  lemma CloseItemFrame(w: World, run: Run, i: nat, anc: Ancestry)
    requires i < |w.items|
    ensures var c := CloseItem(w, run, i, anc);
      |c.items| == |w.items| && c.runs == w.runs && (forall k :: IsMember(c, i, k) <==> IsMember(w, i, k)) &&
      forall k :: IsMember(w, i, k) ==> c.findings[k] == MemberAfter(w, run, i, k, anc)
  {
    hide ItemVerdict, IsClosingRun;
    forall k | k in w.findings ensures MemberAfter(w, run, i, k, anc).owner == w.findings[k].owner {
      MemberKeepsOwner(w, run, i, k, anc);
    }
  }

  /** `u` is `w` with the item known to wait for its rescan. */
  ghost predicate OnlyWaits(w: World, u: World, i: nat) {
    u.runs == w.runs && i < |w.items| && i < |u.items| && AwaitsClosure(w.items[i]) &&
    u.items[i] == w.items[i].(state := AwaitingRescan) &&
    (forall k :: IsMember(w, i, k) <==> IsMember(u, i, k)) &&
    (forall k :: IsMember(w, i, k) && IsMember(u, i, k) ==> u.findings[k] == w.findings[k])
  }

  /** What a run decides about an item does not depend on which of the two waiting states it is in. */
  lemma WaitingOutcomes(w: World, u: World, r: nat, i: nat, anc: Ancestry)
    requires r in w.runs && OnlyWaits(w, u, i)
    ensures ItemVerdict(u, w.runs[r], i, anc) == ItemVerdict(w, w.runs[r], i, anc)
    ensures forall k :: IsMember(w, i, k) && IsMember(u, i, k) ==>
      MemberAfter(u, w.runs[r], i, k, anc) == MemberAfter(w, w.runs[r], i, k, anc)
  {
    hide IsClosingRun, Outcome, MemberOutcome, Resolved, ItemVerdict;
    var run := w.runs[r];
    forall k | IsMember(w, i, k) && IsMember(u, i, k)
      ensures OutcomeIn(u, run, i, k, anc) == OutcomeIn(w, run, i, k, anc) &&
        ResolvedIn(u, run, i, k, anc) == ResolvedIn(w, run, i, k, anc)
    {
      SameOutcomeWaiting(w.runs, run, w.items[i], w.findings[k], anc);
    }
    assert SameVerdictInputs(u, w, run, i, anc) && SameVerdictInputs(w, u, run, i, anc);
    VerdictsAgree(u, w, run, i, anc);
  }

  lemma WaitingStateDoesNotMatter(w: World, u: World, r: nat, i: nat, anc: Ancestry)
    requires r in w.runs && OnlyWaits(w, u, i)
    ensures Settles(u, r, i, anc) <==> Settles(w, r, i, anc)
    ensures Settles(w, r, i, anc) ==>
      CloseItem(u, u.runs[r], i, anc).items[i] == CloseItem(w, w.runs[r], i, anc).items[i]
    ensures Idles(u, r, i, anc) <==> Idles(w, r, i, anc)
  {
    hide IsClosingRun, ItemVerdict, MemberAfter;
    WaitingOutcomes(w, u, r, i, anc);
    VerdictSettles(w.items[i].state, ItemVerdict(w, w.runs[r], i, anc));
  }

  lemma SameOutcomeWaiting(runs: map<nat, Run>, run: Run, it: WorkItem, f: Finding, anc: Ancestry)
    ensures MemberOutcome(runs, run, it.(state := AwaitingRescan), f, anc) == MemberOutcome(runs, run, it, f, anc)
  {
    hide IsClosingRun, Outcome;
  }

  lemma VerdictSettles(s: WorkItemState, v: Verdict)
    requires s in {Merged, AwaitingRescan}
    ensures StateAfter(s, v) in {Merged, AwaitingRescan} <==> v in {Undecided, NothingLeft}
    ensures v !in {Undecided, NothingLeft} ==>
      StateAfter(s, v) == StateAfter(AwaitingRescan, v) && IsSettled(StateAfter(s, v))
  {
  }

  /** How the two orders leave a member: settled alike by the run that decides the item, then reopened or
      not by what is still evaluated after the merge was seen first. */
  ghost predicate Raced(
      runs: map<nat, Run>, g: Finding, order: seq<nat>, anc: Ancestry, scanFirst: Finding, mergeFirst: Finding) {
    scanFirst == g &&
    if SomeReopens(runs, order, g, anc)
      then mergeFirst.state == Regression && mergeFirst.owner == None && IsClosed(g.state)
    else mergeFirst == g
  }

  lemma SettledNotOpen(w: World, run: Run, i: nat, k: Key, anc: Ancestry)
    requires i < |w.items| && IsMember(w, i, k) && IsUnderway(w.findings[k].state)
    ensures MemberAfter(w, run, i, k, anc).state !in {Open, Unclassified}
  {
    hide IsClosingRun, Outcome, ItemVerdict;
  }

  /** The decisive run and everything after it. */
  lemma DecisiveRun(e: World, l: World, i: nat, k: Key, r: nat, later: seq<nat>, anc: Ancestry)
    requires SameItem(e, l, i) && AwaitsClosure(e.items[i]) && AllUnderway(e, i) && IsMember(e, i, k)
    requires (forall q :: q in [r] + later ==> q in e.runs) && Settles(e, r, i, anc)
    ensures var a, b := EvaluateEach(e, [r] + later, anc), ReplayRuns(l, i, [r] + later, anc);
      i < |a.items| && a.items[i] == b.items[i] && k in a.findings && k in b.findings &&
      Raced(e.runs, MemberAfter(e, e.runs[r], i, k, anc), [r] + later, anc, b.findings[k], a.findings[k])
  {
    hide Evaluate, CloseItem, MemberAfter, Afterwards, Reopens, IsClosingRun, ItemVerdict;
    var order := [r] + later;
    assert order[0] == r && order[1..] == later && r in order;
    var u, c := Evaluate(e, r, anc), CloseItem(l, l.runs[r], i, anc);
    SameItemCloses(e, l, e.runs[r], i, anc);
    CloseItemFrame(e, e.runs[r], i, anc);
    CloseItemFrame(l, l.runs[r], i, anc);
    SettledState(e, r, i, anc);
    EvaluateAt(e, r, i, anc);
    assert ReplayRuns(l, i, order, anc) == ReplayRuns(c, i, later, anc) == c;
    var g := MemberAfter(e, e.runs[r], i, k, anc);
    SettledNotOpen(e, e.runs[r], i, k, anc);
    RegressedOrKept(e.runs, e.runs[r], g, anc);
    if Reopens(e.runs, e.runs[r], g, anc) {
      assert SomeReopens(e.runs, order, g, anc);
      UnownedRegressionsStay(u, later, k, anc);
      SettledItemStays(u, later, i, anc);
    } else {
      assert IsMember(u, i, k);
      LaterScans(u, later, i, k, anc);
      LaterDecide(e.runs, r, later, g, anc);
      assert SomeReopens(e.runs, order, g, anc) ==> IsClosed(g.state) by { ReopenedIsClosed(e.runs, order, g, anc); }
    }
  }

  lemma LaterDecide(runs: map<nat, Run>, r: nat, later: seq<nat>, g: Finding, anc: Ancestry)
    requires r in runs && !Reopens(runs, runs[r], g, anc)
    ensures SomeReopens(runs, [r] + later, g, anc) <==> SomeReopens(runs, later, g, anc)
  {
    hide Reopens;
    assert forall q :: q in [r] + later <==> q == r || q in later;
  }

  lemma ReopenedIsClosed(runs: map<nat, Run>, order: seq<nat>, g: Finding, anc: Ancestry)
    ensures SomeReopens(runs, order, g, anc) ==> IsClosed(g.state)
  {
  }

  lemma SettledState(w: World, r: nat, i: nat, anc: Ancestry)
    requires r in w.runs && i < |w.items| && AwaitsClosure(w.items[i]) && Settles(w, r, i, anc)
    ensures IsSettled(CloseItem(w, w.runs[r], i, anc).items[i].state)
  {
    hide ItemVerdict;
    VerdictSettles(w.items[i].state, ItemVerdict(w, w.runs[r], i, anc));
  }

  lemma {:induction false} BothOrders(
      e: World, l: World, i: nat, k: Key, idle: seq<nat>, r: nat, later: seq<nat>, anc: Ancestry)
    requires SameItem(e, l, i) && AwaitsClosure(e.items[i]) && AllUnderway(e, i) && IsMember(e, i, k)
    requires (forall q :: q in idle + ([r] + later) ==> q in e.runs) && r in e.runs
    requires (forall q :: q in idle && q in e.runs ==> Idles(e, q, i, anc)) && Settles(e, r, i, anc)
    ensures var a, b := EvaluateEach(e, idle + ([r] + later), anc), ReplayRuns(l, i, idle + ([r] + later), anc);
      i < |a.items| && a.items[i] == b.items[i] && k in a.findings && k in b.findings &&
      Raced(e.runs, MemberAfter(e, e.runs[r], i, k, anc), [r] + later, anc, b.findings[k], a.findings[k])
    decreases |idle|
  {
    hide Evaluate, CloseItem, MemberAfter, Reopens, IsClosingRun, ItemVerdict, Idles, Settles, Raced, AwaitsClosure;
    var order := idle + ([r] + later);
    if idle == [] {
      assert order == [r] + later;
      DecisiveRun(e, l, i, k, r, later, anc);
    } else {
      var q := idle[0];
      assert order[0] == q && order[1..] == idle[1..] + ([r] + later) && q in order && q in idle;
      var u, v := Evaluate(e, q, anc), CloseItem(l, l.runs[q], i, anc);
      IdleKeepsPace(e, l, q, i, anc);
      Waiting(e, u, i);
      forall p | p in idle[1..] && p in u.runs ensures Idles(u, p, i, anc) {
        assert p in idle;
        WaitingStateDoesNotMatter(e, u, p, i, anc);
      }
      WaitingStateDoesNotMatter(e, u, r, i, anc);
      WaitingOutcomes(e, u, r, i, anc);
      BothOrders(u, v, i, k, idle[1..], r, later, anc);
    }
  }

  lemma Waiting(e: World, u: World, i: nat)
    requires i < |e.items| && i < |u.items| && AwaitsClosure(e.items[i]) &&
      u.items[i] == e.items[i].(state := AwaitingRescan)
    requires u.runs == e.runs && (forall k :: IsMember(e, i, k) <==> IsMember(u, i, k))
    requires forall k :: IsMember(e, i, k) && IsMember(u, i, k) ==> u.findings[k] == e.findings[k]
    ensures OnlyWaits(e, u, i) && AwaitsClosure(u.items[i]) && (AllUnderway(e, i) ==> AllUnderway(u, i))
  {
  }

  predicate NoLater(runs: map<nat, Run>, a: nat, b: nat) {
    a in runs && b in runs && runs[a].finished.Some? && runs[b].finished.Some? &&
    runs[a].finished.value <= runs[b].finished.value
  }

  /** The scans are all the evidence there is about a merge at `at`, in scan order and still to be
      evaluated. */
  ghost predicate AreTheEvidence(w: World, order: seq<nat>, at: int) {
    (forall q :: q in order ==>
      q in w.runs && q !in w.applied && w.runs[q].finished.Some? && w.runs[q].finished.value >= at) &&
    (forall a, b :: 0 <= a < b < |order| ==> order[a] != order[b]) &&
    (forall a, b :: 0 <= a < b < |order| ==> NoLater(w.runs, order[a], order[b])) &&
    forall q :: !Replays(w, at, q)
  }

  lemma ReplaysAll(w: World, v: World, order: seq<nat>, at: int)
    requires AreTheEvidence(w, order, at) && v.runs == w.runs
    requires forall q :: q in v.applied <==> q in w.applied || q in order
    ensures IsReplayOrder(v, at, order) && IsReplayOrder(w, at, [])
  {
    forall q ensures q in order <==> Replays(v, at, q) {
      assert !Replays(w, at, q);
    }
  }

  lemma MergedWaits(w: World, i: nat, sha: Option<nat>, at: int)
    requires AllUnderway(w, i)
    ensures AwaitsClosure(Merge(w, i, sha, at).items[i]) && AllUnderway(Merge(w, i, sha, at), i)
    ensures forall k :: IsMember(Merge(w, i, sha, at), i, k) <==> IsMember(w, i, k)
  {
    forall k | k in w.findings ensures IsUnderway(w.findings[k].state) ==>
      IsUnderway(Shift(w.findings[k], PrMerged, None).state) {
    }
  }

  lemma OrdersAtMember(
      w: World, i: nat, k: Key, sha: Option<nat>, at: int, idle: seq<nat>, r: nat, later: seq<nat>, anc: Ancestry)
    requires AllUnderway(w, i) && TracksPr(w.items[i].state) && IsMember(w, i, k)
    requires AreTheEvidence(w, idle + ([r] + later), at) && r in w.runs
    requires (forall q :: q in idle && q in w.runs ==> Idles(Merge(w, i, sha, at), q, i, anc)) &&
      Settles(Merge(w, i, sha, at), r, i, anc)
    ensures var order, m := idle + ([r] + later), Merge(w, i, sha, at);
      IsMember(m, i, k) && i < |EvaluateEach(w, order, anc).items| &&
      IsReplayOrder(EvaluateEach(w, order, anc), at, order) && IsReplayOrder(w, at, []) &&
      var scanFirst := MergeSeen(EvaluateEach(w, order, anc), i, sha, at, order, anc);
      var mergeFirst := EvaluateEach(MergeSeen(w, i, sha, at, [], anc), order, anc);
      i < |mergeFirst.items| && scanFirst.items[i] == mergeFirst.items[i] && k in scanFirst.findings &&
      k in mergeFirst.findings &&
      scanFirst.findings[k] == MemberAfter(m, w.runs[r], i, k, anc) &&
      (scanFirst.findings[k] == mergeFirst.findings[k] <==>
        !SomeReopens(w.runs, [r] + later, scanFirst.findings[k], anc))
  {
    hide Evaluate, CloseItem, MemberAfter, Reopens, IsClosingRun, ItemVerdict, Idles, Settles, MergedFindings,
      SomeReopens;
    var order := idle + ([r] + later);
    assert forall q :: q in order ==> q in w.runs;
    var v := EvaluateEach(w, order, anc);
    ScansLeaveItem(w, order, i, anc);
    ReplaysAll(w, v, order, at);
    MergesAlike(w, v, i, sha, at);
    MergedWaits(w, i, sha, at);
    BothOrders(Merge(w, i, sha, at), Merge(v, i, sha, at), i, k, idle, r, later, anc);
  }

  // ---------------------------------------------------------------- a member the decisive run fixes

  /** The run shows the family of a member fixed by `r` again: it is valid evidence about the commit `r`
      scanned and nothing later has reported the member. */
  ghost predicate ShowsAgain(runs: map<nat, Run>, r: nat, q: nat, f: Finding, anc: Ancestry) {
    q in runs && r in runs && SomeonePresent(runs[q], f.key.family) &&
    IsClosingRun(runs[q], f, Some(runs[r].sha), anc, false, IsLater(runs, runs[q], f.lastSeen))
  }

  lemma ReopensIffShowsAgain(runs: map<nat, Run>, r: nat, q: nat, f: Finding, anc: Ancestry)
    requires r in runs && q in runs && (q == r || NoLater(runs, r, q)) && runs[q].id == q
    ensures Reopens(runs, runs[q], f.(state := Fixed, closedBy := Some(r)), anc) <==> ShowsAgain(runs, r, q, f, anc)
  {
    var g := f.(state := Fixed, closedBy := Some(r));
    SameValidity(runs[q], f, g, Some(runs[r].sha), anc, false, IsLater(runs, runs[q], f.lastSeen));
    assert !IsLater(runs, runs[q], r);
  }

  /** Whether anything evaluated from `r` on reopens what `r` left of the member: only if `r` fixed it. */
  lemma ReopenedIffFixedAndShown(m: World, r: nat, i: nat, k: Key, order: seq<nat>, anc: Ancestry)
    requires r in m.runs && m.runs[r].id == r && i < |m.items| && AwaitsClosure(m.items[i]) && IsMember(m, i, k)
    requires IsUnderway(m.findings[k].state)
    requires forall q :: q in order ==> q in m.runs && m.runs[q].id == q && (q == r || NoLater(m.runs, r, q))
    ensures SomeReopens(m.runs, order, MemberAfter(m, m.runs[r], i, k, anc), anc) <==>
      Closes(m, r, i, k, anc) && exists q :: q in order && ShowsAgain(m.runs, r, q, m.findings[k], anc)
  {
    hide MemberAfter, Closes, ShowsAgain, IsClosingRun, Reopens;
    var f, h := m.findings[k], MemberAfter(m, m.runs[r], i, k, anc);
    FixesIffCloses(m, r, i, k, anc);
    if Closes(m, r, i, k, anc) {
      forall q | q in order ensures Reopens(m.runs, m.runs[q], h, anc) <==> ShowsAgain(m.runs, r, q, f, anc) {
        ReopensIffShowsAgain(m.runs, r, q, f, anc);
      }
    } else {
      OnlyFixedReopens(m.runs, order, h, anc);
    }
  }

  lemma OnlyFixedReopens(runs: map<nat, Run>, order: seq<nat>, g: Finding, anc: Ancestry)
    ensures SomeReopens(runs, order, g, anc) ==> g.state == Fixed
  {
    hide IsClosingRun, SomeonePresent, PolicySuppressed;
  }

  /** Any number of scans and one merge, of which the scans before the decisive one are valid for no member:
      whichever is noticed first, the work item ends the same, and a member ends otherwise exactly when the
      decisive run fixes it and it or a later one shows its family again. */
  lemma ScansAndMergeCommuteIff(
      w: World, i: nat, k: Key, sha: Option<nat>, at: int, idle: seq<nat>, r: nat, later: seq<nat>, anc: Ancestry)
    requires AllUnderway(w, i) && TracksPr(w.items[i].state) && IsMember(w, i, k)
    requires AreTheEvidence(w, idle + ([r] + later), at) && r in w.runs && forall q :: q in w.runs ==> w.runs[q].id == q
    requires forall q :: q in idle && q in w.runs ==> Idles(Merge(w, i, sha, at), q, i, anc)
    requires Settles(Merge(w, i, sha, at), r, i, anc)
    ensures var order, m := idle + ([r] + later), Merge(w, i, sha, at);
      IsMember(m, i, k) && i < |EvaluateEach(w, order, anc).items| &&
      IsReplayOrder(EvaluateEach(w, order, anc), at, order) && IsReplayOrder(w, at, []) &&
      var scanFirst := MergeSeen(EvaluateEach(w, order, anc), i, sha, at, order, anc);
      var mergeFirst := EvaluateEach(MergeSeen(w, i, sha, at, [], anc), order, anc);
      i < |mergeFirst.items| && scanFirst.items[i] == mergeFirst.items[i] &&
      k in scanFirst.findings && k in mergeFirst.findings &&
      scanFirst.findings[k] == MemberAfter(m, w.runs[r], i, k, anc) &&
      (scanFirst.findings[k] != mergeFirst.findings[k] <==>
        Closes(m, r, i, k, anc) && exists q :: q in [r] + later && ShowsAgain(w.runs, r, q, m.findings[k], anc))
  {
    hide EvaluateEach, ReplayRuns, MemberAfter, Settles, Idles, Closes, ShowsAgain, SomeReopens, AreTheEvidence;
    OrdersAtMember(w, i, k, sha, at, idle, r, later, anc);
    MergedWaits(w, i, sha, at);
    forall q | q in [r] + later ensures q in w.runs && (q == r || NoLater(w.runs, r, q)) {
      FromDecisive(w, idle, r, later, at, q);
    }
    ReopenedIffFixedAndShown(Merge(w, i, sha, at), r, i, k, [r] + later, anc);
  }

  lemma FromDecisive(w: World, idle: seq<nat>, r: nat, later: seq<nat>, at: int, q: nat)
    requires AreTheEvidence(w, idle + ([r] + later), at) && q in [r] + later
    ensures q in w.runs && (q == r || NoLater(w.runs, r, q))
  {
    var order := idle + ([r] + later);
    assert order[|idle|] == r;
    var c :| 0 <= c < |[r] + later| && ([r] + later)[c] == q;
    assert order[|idle| + c] == q;
  }
}
