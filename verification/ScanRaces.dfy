/** Any number of scans of any validity beside one merge: the two orders of noticing them agree exactly when
    no scan shows again what a replayed scan fixed. */
module ScanRaces {
  import opened Domain
  import opened Evidence
  import opened Closer
  import opened Closing
  import opened Confluence
  import opened MultipleScans

  // ---------------------------------------------------------------- a fixed finding, whatever its item does

  lemma FixedIsNotWeighed(w: World, run: Run, i: nat, k: Key, anc: Ancestry)
    requires i < |w.items| && k in w.findings && w.findings[k].state == Fixed
    ensures MemberAfter(w, run, i, k, anc) == w.findings[k]
  {
    hide IsClosingRun, Outcome, ItemVerdict;
  }

  lemma {:induction false} FixedKeepsBelow(w: World, run: Run, anc: Ancestry, n: nat, k: Key)
    requires n <= |w.items| && k in w.findings && w.findings[k].state == Fixed
    ensures CloseBelow(w, run, anc, n).findings[k] == w.findings[k]
  {
    hide MemberAfter, ItemVerdict, StateAfter;
    if n > 0 {
      FixedKeepsBelow(w, run, anc, n - 1, k);
      FixedIsNotWeighed(CloseBelow(w, run, anc, n - 1), run, n - 1, k, anc);
    }
  }

  lemma FixedEvaluated(w: World, r: nat, k: Key, anc: Ancestry)
    requires r in w.runs && k in w.findings && w.findings[k].state == Fixed
    ensures var v := Evaluate(w, r, anc);
      v.runs == w.runs && k in v.findings &&
      if Reopens(w.runs, w.runs[r], w.findings[k], anc)
      then v.findings[k].state == Regression && v.findings[k].owner == None
      else v.findings[k] == w.findings[k]
  {
    hide Reopens, CloseBelow, IsClosingRun, SomeonePresent;
    FixedKeepsBelow(w, w.runs[r], anc, |w.items|, k);
    ReopenedState(w.runs, w.runs[r], w.findings[k], anc);
  }

  lemma ReopenedState(runs: map<nat, Run>, run: Run, g: Finding, anc: Ancestry)
    ensures Reopens(runs, run, g, anc) ==>
      g.state == Fixed && RegressOne(runs, run, g, anc).state == Regression &&
      RegressOne(runs, run, g, anc).owner == None
  {
    hide IsClosingRun, SomeonePresent, PolicySuppressed;
  }

  /** Evaluations leave a fixed finding fixed, under its item, until one of them reopens it; whatever becomes
      of the item and of the other findings between. */
  lemma {:induction false} FixedUntilReopened(w: World, order: seq<nat>, k: Key, anc: Ancestry)
    requires (forall r :: r in order ==> r in w.runs) && k in w.findings && w.findings[k].state == Fixed
    ensures var v := EvaluateEach(w, order, anc);
      k in v.findings &&
      if SomeReopens(w.runs, order, w.findings[k], anc)
      then v.findings[k].state == Regression && v.findings[k].owner == None
      else v.findings[k] == w.findings[k]
    decreases |order|
  {
    hide Evaluate, Reopens;
    if order != [] {
      var u := Evaluate(w, order[0], anc);
      assert order == [order[0]] + order[1..];
      FixedEvaluated(w, order[0], k, anc);
      if Reopens(w.runs, w.runs[order[0]], w.findings[k], anc) {
        assert SomeReopens(w.runs, order, w.findings[k], anc);
        UnownedRegressionsStay(u, order[1..], k, anc);
      } else {
        FixedUntilReopened(u, order[1..], k, anc);
        assert SomeReopens(w.runs, order, w.findings[k], anc) <==> SomeReopens(w.runs, order[1..], w.findings[k], anc);
      }
    }
  }

  lemma {:induction false} ReplayKeepsMember(w: World, i: nat, order: seq<nat>, k: Key, anc: Ancestry)
    requires i < |w.items| && (forall r :: r in order ==> r in w.runs) && IsMember(w, i, k)
    ensures IsMember(ReplayRuns(w, i, order, anc), i, k)
    decreases |order|
  {
    hide CloseItem;
    if order != [] && AwaitsClosure(w.items[i]) {
      CloseItemFrame(w, w.runs[order[0]], i, anc);
      assert forall r :: r in order[1..] ==> r in order;
      ReplayKeepsMember(CloseItem(w, w.runs[order[0]], i, anc), i, order[1..], k, anc);
    }
  }

  // ---------------------------------------------------------------- the race

  ghost predicate InOrder(runs: map<nat, Run>, order: seq<nat>) {
    (forall q :: q in order ==> q in runs && runs[q].id == q) &&
    forall a, b :: 0 <= a < b < |order| ==> NoLater(runs, order[a], order[b])
  }

  /** The first of the runs fixes the member, and one of them shows its family again. */
  ghost predicate FixedThenShown(w: World, i: nat, k: Key, order: seq<nat>, anc: Ancestry)
    requires order != []
  {
    Closes(w, order[0], i, k, anc) &&
    exists q :: q in order && ShowsAgain(w.runs, order[0], q, w.findings[k], anc)
  }

  ghost predicate SomeFixedThenShown(w: World, i: nat, order: seq<nat>, anc: Ancestry)
    requires order != []
  {
    exists k :: FixedThenShown(w, i, k, order, anc)
  }

  /** Replaying the runs for the item, some run fixes a member that it or a later one shows again. */
  ghost predicate FixesInVain(w: World, i: nat, order: seq<nat>, anc: Ancestry)
    requires i < |w.items| && forall q :: q in order ==> q in w.runs
    decreases |order|
  {
    order != [] && AwaitsClosure(w.items[i]) &&
    (SomeFixedThenShown(w, i, order, anc) || FixesInVain(CloseItem(w, w.runs[order[0]], i, anc), i, order[1..], anc))
  }

  /** No member is open to drift, and none of the runs reopens one. */
  ghost predicate Steady(w: World, i: nat, order: seq<nat>, anc: Ancestry) {
    forall k :: IsMember(w, i, k) ==>
      w.findings[k].state !in {Open, Unclassified} && !SomeReopens(w.runs, order, w.findings[k], anc)
  }

  lemma ShownIsReopened(w: World, i: nat, k: Key, order: seq<nat>, anc: Ancestry)
    requires order != [] && InOrder(w.runs, order) && Closes(w, order[0], i, k, anc)
    ensures MemberAfter(w, w.runs[order[0]], i, k, anc) == w.findings[k].(state := Fixed, closedBy := Some(order[0]))
    ensures FixedThenShown(w, i, k, order, anc) <==>
      SomeReopens(w.runs, order, MemberAfter(w, w.runs[order[0]], i, k, anc), anc)
  {
    hide Reopens, ShowsAgain, MemberAfter, IsClosingRun, StillReported;
    var r, f := order[0], w.findings[k];
    ClosesIsValid(w, r, i, k, anc);
    FixesIffCloses(w, r, i, k, anc);
    forall q | q in order
      ensures Reopens(w.runs, w.runs[q], f.(state := Fixed, closedBy := Some(r)), anc) <==>
        ShowsAgain(w.runs, r, q, f, anc)
    {
      var c :| 0 <= c < |order| && order[c] == q;
      ReopensIffShowsAgain(w.runs, r, q, f, anc);
    }
  }

  /** What a run that waits for closure leaves of a member that was steady: steady still, unless it was
      fixed just now and is shown again. */
  lemma MemberStaysSteady(w: World, i: nat, k: Key, order: seq<nat>, anc: Ancestry)
    requires i < |w.items| && order != [] && InOrder(w.runs, order) && AwaitsClosure(w.items[i])
    requires IsMember(w, i, k) && Steady(w, i, order, anc) && !FixedThenShown(w, i, k, order, anc)
    ensures var g := MemberAfter(w, w.runs[order[0]], i, k, anc);
      g.state !in {Open, Unclassified} && !SomeReopens(w.runs, order, g, anc)
  {
    hide Reopens, ShowsAgain, IsClosingRun, StillReported, MemberAfter, Closes;
    var r, f := order[0], w.findings[k];
    if f.state == Fixed {
      FixedIsNotWeighed(w, w.runs[r], i, k, anc);
    } else {
      FixesIffCloses(w, r, i, k, anc);
      ClosingNeverOpens(w, w.runs[r], i, k, anc);
      if Closes(w, r, i, k, anc) {
        ShownIsReopened(w, i, k, order, anc);
      } else {
        OnlyFixedReopens(w.runs, order, MemberAfter(w, w.runs[r], i, k, anc), anc);
      }
    }
  }

  lemma ClosingNeverOpens(w: World, run: Run, i: nat, k: Key, anc: Ancestry)
    requires i < |w.items| && k in w.findings && w.findings[k].state !in {Open, Unclassified}
    ensures MemberAfter(w, run, i, k, anc).state !in {Open, Unclassified}
  {
    hide IsClosingRun, Outcome, ItemVerdict;
  }

  lemma SteadyTail(w: World, i: nat, order: seq<nat>, anc: Ancestry)
    requires order != [] && Steady(w, i, order, anc)
    ensures Steady(w, i, order[1..], anc)
  {
    hide Reopens;
    forall k | IsMember(w, i, k) ensures !SomeReopens(w.runs, order[1..], w.findings[k], anc) {
      assert forall q :: q in order[1..] ==> q in order;
    }
  }

  /** An evaluation leaves a steady item to its closing loop. */
  lemma SteadyEvaluated(e: World, c: World, r: nat, i: nat, anc: Ancestry)
    requires r in e.runs && i < |e.items| && c == ClosedAt(e, r, i, anc)
    requires c.items[i].state !in {Queued, IssueOpen}
    requires forall k :: IsMember(c, i, k) ==>
      c.findings[k].state !in {Open, Unclassified} && !Reopens(e.runs, e.runs[r], c.findings[k], anc)
    ensures SameItem(c, Evaluate(e, r, anc), i)
  {
    hide Evaluate, ClosedAt, Reopens, CloseItem;
    ClosedAtRuns(e, r, i, anc);
    EvaluateAt(e, r, i, anc);
    forall k | IsMember(c, i, k) ensures Afterwards(e.runs, e.runs[r], c.findings[k], anc) == c.findings[k] {
      RegressedOrKept(e.runs, e.runs[r], c.findings[k], anc);
    }
    var v := Evaluate(e, r, anc);
    assert v.items[i] == c.items[i] && v.runs == c.runs;
  }

  lemma ClosedAtRuns(e: World, r: nat, i: nat, anc: Ancestry)
    requires r in e.runs && i < |e.items|
    ensures ClosedAt(e, r, i, anc).runs == e.runs && i < |ClosedAt(e, r, i, anc).items|
  {
  }

  lemma SameItemBack(w: World, u: World, i: nat)
    requires SameItem(w, u, i)
    ensures SameItem(u, w, i)
  {
  }

  /** A member fixed now and shown again ends a regression without an item on one side, and under the item
      on the other. */
  lemma InVainDiffers(e: World, l: World, i: nat, k: Key, order: seq<nat>, anc: Ancestry)
    requires SameItem(e, l, i) && order != [] && InOrder(e.runs, order) && AwaitsClosure(e.items[i])
    requires FixedThenShown(l, i, k, order, anc)
    ensures IsMember(ReplayRuns(l, i, order, anc), i, k) && !IsMember(EvaluateEach(e, order, anc), i, k)
  {
    hide Evaluate, ReplayRuns, CloseItem, MemberAfter, Reopens, IsClosingRun, StillReported, ShowsAgain;
    var r := order[0];
    ReplayKeepsMember(l, i, order, k, anc);
    assert order == [r] + order[1..];
    ShownIsReopened(l, i, k, order, anc);
    var g := MemberAfter(l, l.runs[r], i, k, anc);
    SameVerdict(l, e, e.runs[r], i, anc);
    ClosureLeavesDispatch(e.items[i].state, ItemVerdict(e, e.runs[r], i, anc));
    CloseItemFrame(e, e.runs[r], i, anc);
    ClosedState(e, e.runs[r], i, anc);
    EvaluateAt(e, r, i, anc);
    var u := Evaluate(e, r, anc);
    RegressedOrKept(e.runs, e.runs[r], g, anc);
    assert u.findings[k] == Afterwards(e.runs, e.runs[r], g, anc);
    if Reopens(e.runs, e.runs[r], g, anc) {
      UnownedRegressionsStay(u, order[1..], k, anc);
    } else {
      LaterDecide(e.runs, r, order[1..], g, anc);
      FixedUntilReopened(u, order[1..], k, anc);
    }
  }

  lemma ClosedState(e: World, run: Run, i: nat, anc: Ancestry)
    requires i < |e.items|
    ensures CloseItem(e, run, i, anc).items[i].state == StateAfter(e.items[i].state, ItemVerdict(e, run, i, anc))
  {
    hide MemberAfter;
  }

  /** One run of the race without loss: both sides stay together. */
  lemma StaysTogether(e: World, l: World, i: nat, order: seq<nat>, anc: Ancestry)
    requires SameItem(e, l, i) && order != [] && InOrder(e.runs, order) && AwaitsClosure(e.items[i])
    requires Steady(l, i, order, anc) && !SomeFixedThenShown(l, i, order, anc)
    ensures var u, c := Evaluate(e, order[0], anc), CloseItem(l, l.runs[order[0]], i, anc);
      SameItem(u, c, i) && Steady(c, i, order[1..], anc) && c.items[i].state !in {Queued, IssueOpen}
  {
    hide Evaluate, CloseItem, MemberAfter, Reopens, IsClosingRun, ItemVerdict, FixedThenShown;
    var r := order[0];
    var c := CloseItem(l, l.runs[r], i, anc);
    var d := CloseItem(e, e.runs[r], i, anc);
    CloseItemFrame(l, l.runs[r], i, anc);
    CloseItemFrame(e, e.runs[r], i, anc);
    SameItemCloses(e, l, e.runs[r], i, anc);
    ClosedState(l, l.runs[r], i, anc);
    ClosureLeavesDispatch(l.items[i].state, ItemVerdict(l, l.runs[r], i, anc));
    forall k | IsMember(c, i, k)
      ensures c.findings[k].state !in {Open, Unclassified} && !SomeReopens(l.runs, order, c.findings[k], anc)
    {
      assert IsMember(l, i, k) && !FixedThenShown(l, i, k, order, anc);
      MemberStaysSteady(l, i, k, order, anc);
    }
    assert Steady(c, i, order, anc);
    SteadyTail(c, i, order, anc);
    assert d == ClosedAt(e, r, i, anc);
    forall k | IsMember(d, i, k) ensures !Reopens(e.runs, e.runs[r], d.findings[k], anc) {
      assert IsMember(c, i, k) && r in order;
    }
    SteadyEvaluated(e, d, r, i, anc);
    SameItemBack(d, Evaluate(e, r, anc), i);
    SameItemTwice(Evaluate(e, r, anc), d, c, i);
  }

  /** Once the item is decided, further evaluations leave a steady one alone. */
  lemma {:induction false} DecidedStays(e: World, i: nat, order: seq<nat>, anc: Ancestry)
    requires i < |e.items| && IsSettled(e.items[i].state) && Steady(e, i, order, anc)
    requires forall q :: q in order ==> q in e.runs
    ensures SameItem(e, EvaluateEach(e, order, anc), i)
    decreases |order|
  {
    hide Evaluate, Reopens;
    if order != [] {
      var r := order[0];
      var u := Evaluate(e, r, anc);
      assert r in order && ClosedAt(e, r, i, anc) == e;
      SteadyEvaluated(e, e, r, i, anc);
      SteadyTail(e, i, order, anc);
      DecidedStays(u, i, order[1..], anc);
      SameItemTwice(e, u, EvaluateEach(u, order[1..], anc), i);
    }
  }

  /** Both orders from a common start: they end alike exactly when nothing was fixed in vain. */
  lemma {:induction false} RaceIff(e: World, l: World, i: nat, order: seq<nat>, anc: Ancestry)
    requires SameItem(e, l, i) && InOrder(e.runs, order) && e.items[i].state !in {Queued, IssueOpen}
    requires Steady(l, i, order, anc)
    ensures SameItem(EvaluateEach(e, order, anc), ReplayRuns(l, i, order, anc), i) <==> !FixesInVain(l, i, order, anc)
    decreases |order|
  {
    hide Evaluate, CloseItem, Steady, FixedThenShown, InOrder;
    if order == [] {
    } else if !AwaitsClosure(e.items[i]) {
      SteadyAlike(e, l, i, order, anc);
      OrderKnown(e.runs, order);
      DecidedStays(e, i, order, anc);
      SameItemBack(e, EvaluateEach(e, order, anc), i);
      SameItemTwice(EvaluateEach(e, order, anc), e, l, i);
    } else if SomeFixedThenShown(l, i, order, anc) {
      var k :| FixedThenShown(l, i, k, order, anc);
      InVainDiffers(e, l, i, k, order, anc);
    } else {
      OrderKnown(e.runs, order);
      StaysTogether(e, l, i, order, anc);
      CloseItemFrame(l, l.runs[order[0]], i, anc);
      InOrderTail(e.runs, order);
      RaceIff(Evaluate(e, order[0], anc), CloseItem(l, l.runs[order[0]], i, anc), i, order[1..], anc);
    }
  }

  lemma OrderKnown(runs: map<nat, Run>, order: seq<nat>)
    requires InOrder(runs, order)
    ensures forall q :: q in order ==> q in runs
  {
  }

  lemma InOrderTail(runs: map<nat, Run>, order: seq<nat>)
    requires InOrder(runs, order) && order != []
    ensures InOrder(runs, order[1..])
  {
  }

  lemma SteadyAlike(e: World, l: World, i: nat, order: seq<nat>, anc: Ancestry)
    requires SameItem(e, l, i) && Steady(l, i, order, anc)
    ensures Steady(e, i, order, anc)
  {
    hide SomeReopens;
  }

  // ---------------------------------------------------------------- scans and a merge

  lemma UnderwayIsSteady(w: World, i: nat, order: seq<nat>, anc: Ancestry)
    requires AllUnderway(w, i)
    ensures Steady(w, i, order, anc)
  {
    forall k | IsMember(w, i, k) ensures !SomeReopens(w.runs, order, w.findings[k], anc) {
      OnlyFixedReopens(w.runs, order, w.findings[k], anc);
    }
  }

  /** Any number of scans, valid for all, some or none of the members, beside one merge: noticing the merge
      before or after them leaves the work item, its members and their owners the same exactly when no scan,
      replayed in order, fixes a member whose family it or a later scan shows again. */
  lemma ScansAndMergeAgreeIff(w: World, i: nat, sha: Option<nat>, at: int, order: seq<nat>, anc: Ancestry)
    requires AllUnderway(w, i) && TracksPr(w.items[i].state) && AreTheEvidence(w, order, at)
    requires forall q :: q in w.runs ==> w.runs[q].id == q
    ensures i < |EvaluateEach(w, order, anc).items| && i < |Merge(w, i, sha, at).items|
    ensures IsReplayOrder(EvaluateEach(w, order, anc), at, order) && IsReplayOrder(w, at, [])
    ensures
      SameItem(EvaluateEach(MergeSeen(w, i, sha, at, [], anc), order, anc),
               MergeSeen(EvaluateEach(w, order, anc), i, sha, at, order, anc), i) <==>
      !FixesInVain(Merge(w, i, sha, at), i, order, anc)
  {
    hide Evaluate, CloseItem, MergedFindings, SomeFixedThenShown, Steady;
    var v := EvaluateEach(w, order, anc);
    ScansLeaveItem(w, order, i, anc);
    ReplaysAll(w, v, order, at);
    MergesAlike(w, v, i, sha, at);
    MergedWaits(w, i, sha, at);
    var m, late := Merge(w, i, sha, at), Merge(v, i, sha, at);
    UnderwayIsSteady(m, i, order, anc);
    SteadyAlike2(m, late, i, order, anc);
    RaceIff(m, late, i, order, anc);
    InVainAlike(m, late, i, order, anc);
  }

  lemma SteadyAlike2(e: World, l: World, i: nat, order: seq<nat>, anc: Ancestry)
    requires SameItem(e, l, i) && Steady(e, i, order, anc)
    ensures Steady(l, i, order, anc)
  {
    SameItemBack(e, l, i);
    SteadyAlike(l, e, i, order, anc);
  }

  lemma ShownAlike(e: World, l: World, i: nat, k: Key, order: seq<nat>, anc: Ancestry)
    requires SameItem(e, l, i) && order != []
    ensures FixedThenShown(e, i, k, order, anc) <==> FixedThenShown(l, i, k, order, anc)
  {
    hide ShowsAgain, IsClosingRun, StillReported;
  }

  lemma {:induction false} InVainAlike(e: World, l: World, i: nat, order: seq<nat>, anc: Ancestry)
    requires SameItem(e, l, i) && forall q :: q in order ==> q in e.runs
    ensures FixesInVain(e, i, order, anc) <==> FixesInVain(l, i, order, anc)
    decreases |order|
  {
    hide CloseItem, FixedThenShown;
    if order != [] && AwaitsClosure(e.items[i]) {
      forall k ensures FixedThenShown(e, i, k, order, anc) <==> FixedThenShown(l, i, k, order, anc) {
        ShownAlike(e, l, i, k, order, anc);
      }
      SameItemCloses(e, l, e.runs[order[0]], i, anc);
      CloseItemFrame(e, e.runs[order[0]], i, anc);
      InVainAlike(CloseItem(e, e.runs[order[0]], i, anc), CloseItem(l, l.runs[order[0]], i, anc), i, order[1..], anc);
    }
  }
}
