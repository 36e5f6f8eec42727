/** The depth ladder: which rungs of evidence the check runs of a commit have earned. */
module Verification {
  import opened Domain
  import PrEvidence

  datatype CheckStatus = Passed | Failed | Pending | Partial | Unavailable

  /** What a rung requires; a component without a check can never be proved. */
  datatype Component = Component(name: string, check: Option<string>)

  type Ladder = map<nat, seq<Component>>

  const RUNGS: nat := 7

  datatype Source = LadderSource | GithubCheck

  datatype Entry = Entry(depth: nat, name: string, source: Source, status: CheckStatus)

  const DEFAULT_LADDER: Ladder := map[
    0 := [Component("requirements-regenerated", Some("check-python-deps")),
      Component("pip-install", Some("build-image"))],
    1 := [Component("import-and-migrations", Some("lean-smoke"))],
    2 := [Component("python-unit-tests", Some("unit-tests"))],
    3 := [Component("postgres-redis-app-runs", Some("app-runs")), Component("screenshot", None)],
    4 := [Component("integration-postgres", Some("test-postgres")), Component("integration-mysql", Some("test-mysql")),
          Component("integration-sqlite", Some("test-sqlite"))],
    5 := [Component("playwright", Some("playwright-tests"))],
    6 := [Component("canary", None)]
  ]

  /** The run is the check itself or one entry of its matrix. */
  predicate Matches(check: string, r: CheckRun) {
    r.name == check || check + " (" <= r.name
  }

  predicate Succeeded(r: CheckRun) {
    r.completed && r.conclusion == Success
  }

  function MatchingRuns(check: string, runs: seq<CheckRun>): (matched: seq<CheckRun>)
    ensures forall r :: r in matched <==> r in runs && Matches(check, r)
  {
    if runs == [] then []
    else
      var rest := MatchingRuns(check, runs[1..]);
      assert forall r :: r in runs <==> r == runs[0] || r in runs[1..];
      if Matches(check, runs[0]) then [runs[0]] + rest else rest
  }

  function ComponentStatus(check: string, runs: seq<CheckRun>): CheckStatus {
    var matched := MatchingRuns(check, runs);
    if matched == [] then Unavailable
    else if exists r :: r in matched && !r.completed then Pending
    else if exists r :: r in matched && r.conclusion !in {Success, Skipped, Neutral} then CheckStatus.Failed
    else if forall r :: r in matched ==> r.conclusion != Success then Unavailable
    else if exists r :: r in matched && r.conclusion != Success then Partial
    else Passed
  }

  function StatusOf(c: Component, runs: seq<CheckRun>): CheckStatus {
    if c.check.None? then Unavailable else ComponentStatus(c.check.value, runs)
  }

  function RungStatus(statuses: seq<CheckStatus>): CheckStatus {
    if CheckStatus.Failed in statuses then CheckStatus.Failed
    else if Pending in statuses then Pending
    else if forall s :: s in statuses ==> s == Unavailable then Unavailable
    else if forall s :: s in statuses ==> s == Passed then Passed
    else Partial
  }

  function Components(ladder: Ladder, depth: nat): seq<Component> {
    if depth in ladder then ladder[depth] else []
  }

  function Rung(ladder: Ladder, depth: nat, runs: seq<CheckRun>): CheckStatus {
    var components := Components(ladder, depth);
    RungStatus(seq(|components|, i requires 0 <= i < |components| => StatusOf(components[i], runs)))
  }

  function EntryOf(depth: nat, c: Component, runs: seq<CheckRun>): Entry {
    Entry(depth, c.name, if c.check.None? then LadderSource else GithubCheck, StatusOf(c, runs))
  }

  /** The entries of the rungs below `depth`, rung by rung and component by component. */
  function Entries(ladder: Ladder, depth: nat, runs: seq<CheckRun>): seq<Entry> {
    if depth == 0 then []
    else
      var components := Components(ladder, depth - 1);
      Entries(ladder, depth - 1, runs) +
      seq(|components|, i requires 0 <= i < |components| => EntryOf(depth - 1, components[i], runs))
  }

  /** One rung: an entry and a status of every component, the unavailable ones too. */
  method EvaluateRung(runs: seq<CheckRun>, depth: nat, components: seq<Component>)
    returns (entries: seq<Entry>, statuses: seq<CheckStatus>)
    ensures statuses == seq(|components|, i requires 0 <= i < |components| => StatusOf(components[i], runs))
    ensures entries == seq(|components|, i requires 0 <= i < |components| => EntryOf(depth, components[i], runs))
  {
    entries, statuses := [], [];
    var i := 0;
    while i < |components|
      invariant 0 <= i <= |components| && |statuses| == i && |entries| == i
      invariant forall j :: 0 <= j < i ==> statuses[j] == StatusOf(components[j], runs)
      invariant forall j :: 0 <= j < i ==> entries[j] == EntryOf(depth, components[j], runs)
    {
      var c := components[i];
      var status, source := Unavailable, LadderSource;
      if c.check.Some? {
        status, source := ComponentStatus(c.check.value, runs), GithubCheck;
      }
      statuses := statuses + [status];
      entries := entries + [Entry(depth, c.name, source, status)];
      i := i + 1;
    }
  }

  /** Walks the whole ladder once. */
  method Evaluate(runs: seq<CheckRun>, ladder: Ladder) returns (entries: seq<Entry>, rungs: seq<CheckStatus>)
    ensures entries == Entries(ladder, RUNGS, runs)
    ensures |rungs| == RUNGS && forall d :: 0 <= d < RUNGS ==> rungs[d] == Rung(ladder, d, runs)
  {
    hide StatusOf, EntryOf;
    entries, rungs := [], [];
    var depth := 0;
    while depth < RUNGS
      invariant 0 <= depth <= RUNGS && |rungs| == depth
      invariant entries == Entries(ladder, depth, runs)
      invariant forall d :: 0 <= d < depth ==> rungs[d] == Rung(ladder, d, runs)
    {
      var added, statuses := EvaluateRung(runs, depth, if depth in ladder then ladder[depth] else []);
      entries := entries + added;
      rungs := rungs + [if statuses != [] then RungStatus(statuses) else Unavailable];
      depth := depth + 1;
    }
  }

  function HighestPassed(rungs: seq<CheckStatus>): (top: Option<nat>)
    ensures top.Some? ==> top.value < |rungs| && rungs[top.value] == Passed &&
                          forall d :: top.value < d < |rungs| ==> rungs[d] != Passed
    ensures top.None? ==> Passed !in rungs
  {
    if rungs == [] then None
    else if rungs[|rungs| - 1] == Passed then Some(|rungs| - 1)
    else
      var top := HighestPassed(rungs[..|rungs| - 1]);
      assert rungs == rungs[..|rungs| - 1] + [rungs[|rungs| - 1]];
      assert forall d :: 0 <= d < |rungs| - 1 ==> rungs[d] == rungs[..|rungs| - 1][d];
      top
  }

  // ---------------------------------------------------------------- what a rung means

  lemma RungMembers(ladder: Ladder, depth: nat, runs: seq<CheckRun>)
    ensures var components := Components(ladder, depth);
      var statuses := seq(|components|, i requires 0 <= i < |components| => StatusOf(components[i], runs));
      forall s :: s in statuses <==> exists c :: c in components && StatusOf(c, runs) == s
  {
    var components := Components(ladder, depth);
    var statuses := seq(|components|, i requires 0 <= i < |components| => StatusOf(components[i], runs));
    forall s ensures s in statuses <==> exists c :: c in components && StatusOf(c, runs) == s {
      if s in statuses {
        var i :| 0 <= i < |statuses| && statuses[i] == s;
        assert components[i] in components;
      }
      if c :| c in components && StatusOf(c, runs) == s {
        var i :| 0 <= i < |components| && components[i] == c;
        assert statuses[i] == s;
      }
    }
  }

  /** The component has matching runs, and every one of them completed successfully. */
  predicate Proved(c: Component, runs: seq<CheckRun>) {
    c.check.Some? && (exists r :: r in runs && Matches(c.check.value, r)) &&
    forall r :: r in runs && Matches(c.check.value, r) ==> Succeeded(r)
  }

  lemma PassedIsProved(c: Component, runs: seq<CheckRun>)
    ensures StatusOf(c, runs) == Passed <==> Proved(c, runs)
  {
    if c.check.Some? {
      var matched := MatchingRuns(c.check.value, runs);
      if r :| r in runs && Matches(c.check.value, r) {
        assert r in matched;
      }
      if matched != [] {
        assert matched[0] in matched;
      }
    }
  }

  /** The run is named after the check, alone or followed by the matrix entry in parentheses. */
  predicate NamedFor(check: string, r: CheckRun) {
    r.name == check ||
    (|r.name| >= |check| + 2 && r.name[..|check|] == check && r.name[|check|] == ' ' && r.name[|check| + 1] == '(')
  }

  lemma NamedForMeans(check: string, r: CheckRun)
    ensures NamedFor(check, r) <==> Matches(check, r)
  {
    if NamedFor(check, r) && r.name != check {
      assert r.name[..|check| + 2] == check + " (";
    }
  }

  /** When a status fits the runs of a check. */
  predicate Fits(status: CheckStatus, named: set<CheckRun>) {
    match status
    case Pending => exists r :: r in named && !r.completed
    case Failed =>
      (forall r :: r in named ==> r.completed) &&
      exists r :: r in named && (r.conclusion == NoConclusion || r.conclusion == Unsuccessful)
    case Partial =>
      (forall r :: r in named ==> r.completed && r.conclusion in {Success, Skipped, Neutral}) &&
      (exists r :: r in named && r.conclusion == Success) && exists r :: r in named && r.conclusion != Success
    case Passed => named != {} && forall r :: r in named ==> r.completed && r.conclusion == Success
    case Unavailable => forall r :: r in named ==> r.completed && r.conclusion in {Skipped, Neutral}
  }

  lemma StatusFits(check: string, runs: seq<CheckRun>, named: set<CheckRun>)
    requires named == set r | r in runs && NamedFor(check, r)
    ensures Fits(ComponentStatus(check, runs), named)
  {
    var matched := MatchingRuns(check, runs);
    forall r ensures r in matched <==> r in named {
      NamedForMeans(check, r);
    }
    hide MatchingRuns;
    assert matched != [] ==> matched[0] in matched;
  }

  /** The status of a component is the one that fits the runs named for its check; one without a check has none. */
  lemma StatusMeans(c: Component, runs: seq<CheckRun>)
    ensures c.check == None ==> StatusOf(c, runs) == Unavailable
    ensures c.check.Some? ==>
      var named := set r | r in runs && NamedFor(c.check.value, r);
      forall s :: Fits(s, named) <==> s == StatusOf(c, runs)
  {
    hide ComponentStatus;
    if c.check.Some? {
      var named := set r | r in runs && NamedFor(c.check.value, r);
      StatusFits(c.check.value, runs, named);
      OneStatusFits(named);
    }
  }

  lemma OneStatusFits(named: set<CheckRun>)
    ensures forall s, z :: Fits(s, named) && Fits(z, named) ==> s == z
  {
  }

  /** What each status of a rung says about its components. */
  ghost predicate RungSays(status: CheckStatus, components: seq<Component>, runs: seq<CheckRun>) {
    var failed := exists c :: c in components && StatusOf(c, runs) == CheckStatus.Failed;
    var pending := exists c :: c in components && StatusOf(c, runs) == Pending;
    var allOut := forall c :: c in components ==> StatusOf(c, runs) == Unavailable;
    var allIn := forall c :: c in components ==> StatusOf(c, runs) == Passed;
    match status
    case Failed => failed
    case Pending => !failed && pending
    case Unavailable => allOut
    case Passed => components != [] && allIn
    case Partial => !failed && !pending && !allOut && !allIn
  }

  /** The status of a rung is the one that fits its components. */
  lemma RungMeans(ladder: Ladder, depth: nat, runs: seq<CheckRun>)
    ensures var components := if depth in ladder then ladder[depth] else [];
      forall s :: RungSays(s, components, runs) <==> s == Rung(ladder, depth, runs)
  {
    hide StatusOf;
    var components := Components(ladder, depth);
    var statuses := seq(|components|, i requires 0 <= i < |components| => StatusOf(components[i], runs));
    RungMembers(ladder, depth, runs);
    forall c | c in components ensures StatusOf(c, runs) in statuses {
    }
    if components != [] {
      assert components[0] in components;
    }
    assert components == [] ==> statuses == [];
  }

  /** Every component of every rung has its entry, and nothing else has one. */
  lemma {:induction false} EntryIff(ladder: Ladder, depth: nat, runs: seq<CheckRun>, e: Entry)
    ensures e in Entries(ladder, depth, runs) <==>
      e.depth < depth && e.depth in ladder &&
      exists c :: c in ladder[e.depth] && e.name == c.name && e.status == StatusOf(c, runs) &&
        e.source == if c.check.Some? then GithubCheck else LadderSource
  {
    hide StatusOf;
    if depth > 0 {
      EntryIff(ladder, depth - 1, runs, e);
      var components := Components(ladder, depth - 1);
      var added := seq(|components|, i requires 0 <= i < |components| => EntryOf(depth - 1, components[i], runs));
      assert e in Entries(ladder, depth, runs) <==> e in Entries(ladder, depth - 1, runs) || e in added;
      if e in added {
        var i :| 0 <= i < |added| && added[i] == e;
        assert components[i] in components;
      }
      if e.depth == depth - 1 && e.depth in ladder {
        if c :| c in ladder[e.depth] && e == EntryOf(depth - 1, c, runs) {
          var i :| 0 <= i < |components| && components[i] == c;
          assert added[i] == e;
        }
      }
    }
  }

  /** A rung is passed exactly when it has components and every one of them is proved. */
  lemma RungPassedIff(ladder: Ladder, depth: nat, runs: seq<CheckRun>)
    ensures Rung(ladder, depth, runs) == Passed <==>
      Components(ladder, depth) != [] && forall c :: c in Components(ladder, depth) ==> Proved(c, runs)
  {
    var components := Components(ladder, depth);
    RungMembers(ladder, depth, runs);
    forall c ensures StatusOf(c, runs) == Passed <==> Proved(c, runs) {
      PassedIsProved(c, runs);
    }
    var statuses := seq(|components|, i requires 0 <= i < |components| => StatusOf(components[i], runs));
    if components == [] {
      assert statuses == [];
    } else {
      assert components[0] in components;
      assert StatusOf(components[0], runs) in statuses;
      if Rung(ladder, depth, runs) == Passed {
        forall c | c in components ensures Proved(c, runs) {
          assert StatusOf(c, runs) in statuses;
        }
      }
      if forall c :: c in components ==> Proved(c, runs) {
        forall s | s in statuses ensures s == Passed {
          var c :| c in components && StatusOf(c, runs) == s;
        }
      }
    }
  }

  /** On the ladder in use, the rungs with a component that has no check are out of reach, whatever
      runs are reported. */
  lemma UncheckedRungsNeverPass(runs: seq<CheckRun>)
    ensures Rung(DEFAULT_LADDER, 3, runs) != Passed && Rung(DEFAULT_LADDER, 6, runs) != Passed
  {
    RungPassedIff(DEFAULT_LADDER, 3, runs);
    RungPassedIff(DEFAULT_LADDER, 6, runs);
    assert DEFAULT_LADDER[3][1] in Components(DEFAULT_LADDER, 3) &&
      DEFAULT_LADDER[6][0] in Components(DEFAULT_LADDER, 6);
  }

  // ---------------------------------------------------------------- what a rung does not depend on

  predicate SameRuns(runs: seq<CheckRun>, others: seq<CheckRun>) {
    (forall r :: r in runs ==> r in others) && (forall r :: r in others ==> r in runs)
  }

  lemma StatusIsOrderFree(c: Component, runs: seq<CheckRun>, others: seq<CheckRun>)
    requires SameRuns(runs, others)
    ensures StatusOf(c, runs) == StatusOf(c, others)
  {
    if c.check.Some? {
      var m, n := MatchingRuns(c.check.value, runs), MatchingRuns(c.check.value, others);
      assert forall r :: r in m <==> r in n;
      assert m != [] ==> m[0] in m;
      assert n != [] ==> n[0] in n;
    }
  }

  /** Neither the order in which check runs are listed nor repetitions change any rung or entry. */
  lemma {:induction false} OrderDoesNotMatter(ladder: Ladder, depth: nat, runs: seq<CheckRun>, others: seq<CheckRun>)
    requires SameRuns(runs, others)
    ensures Rung(ladder, depth, runs) == Rung(ladder, depth, others)
    ensures Entries(ladder, depth, runs) == Entries(ladder, depth, others)
  {
    var components := Components(ladder, depth);
    forall c ensures StatusOf(c, runs) == StatusOf(c, others) {
      StatusIsOrderFree(c, runs, others);
    }
    assert seq(|components|, i requires 0 <= i < |components| => StatusOf(components[i], runs)) ==
      seq(|components|, i requires 0 <= i < |components| => StatusOf(components[i], others));
    if depth > 0 {
      OrderDoesNotMatter(ladder, depth - 1, runs, others);
      var below := Components(ladder, depth - 1);
      assert seq(|below|, i requires 0 <= i < |below| => EntryOf(depth - 1, below[i], runs)) ==
        seq(|below|, i requires 0 <= i < |below| => EntryOf(depth - 1, below[i], others));
    }
  }

  /** Wherever it is listed, one more run that did not succeed never turns a rung passed, so it never
      raises the depth. */
  lemma MoreTroubleNeverPasses(ladder: Ladder, depth: nat, runs: seq<CheckRun>, r: CheckRun, k: nat)
    requires k <= |runs| && !Succeeded(r)
    ensures Rung(ladder, depth, runs[..k] + [r] + runs[k..]) == Passed ==> Rung(ladder, depth, runs) == Passed
  {
    var more := runs[..k] + [r] + runs[k..];
    if Rung(ladder, depth, more) == Passed {
      RungPassedIff(ladder, depth, more);
      RungPassedIff(ladder, depth, runs);
      assert forall x :: x in more <==> x == r || x in runs by {
        assert runs == runs[..k] + runs[k..];
        assert more[k] == r;
      }
    }
  }

  lemma DepthNeverRises(
      ladder: Ladder, runs: seq<CheckRun>, r: CheckRun, k: nat, fewer: seq<CheckStatus>, more: seq<CheckStatus>)
    requires k <= |runs| && !Succeeded(r) && |fewer| == |more| == RUNGS
    requires forall d :: 0 <= d < RUNGS ==> fewer[d] == Rung(ladder, d, runs)
    requires forall d :: 0 <= d < RUNGS ==> more[d] == Rung(ladder, d, runs[..k] + [r] + runs[k..])
    ensures HighestPassed(more).Some? ==>
      HighestPassed(fewer).Some? && HighestPassed(more).value <= HighestPassed(fewer).value
  {
    if HighestPassed(more).Some? {
      MoreTroubleNeverPasses(ladder, HighestPassed(more).value, runs, r, k);
    }
  }

  // ---------------------------------------------------------------- the verdict and the ladder

  /** With no list of required checks, a green verdict leaves no rung failed or pending, and the rungs it
      leaves short of passed are exactly those with a component no run is named after. */
  lemma GreenLeavesNoRungFailed(cfg: PrEvidence.Config, ladder: Ladder, depth: nat, runs: seq<CheckRun>)
    requires cfg.required == {} && PrEvidence.ChecksVerdict(cfg, runs) == PrEvidence.Green
    ensures Rung(ladder, depth, runs) !in {CheckStatus.Failed, Pending}
    ensures Rung(ladder, depth, runs) == Passed <==>
      Components(ladder, depth) != [] && forall c :: c in Components(ladder, depth) ==>
        c.check.Some? && exists r :: r in runs && Matches(c.check.value, r)
  {
    forall r | r in runs ensures Succeeded(r) {
      var i :| 0 <= i < |runs| && runs[i] == r;
      assert PrEvidence.Relevant(cfg, runs, i);
    }
    forall c ensures StatusOf(c, runs) !in {CheckStatus.Failed, Pending} {
    }
    RungMembers(ladder, depth, runs);
    RungPassedIff(ladder, depth, runs);
  }

  /** A run that keeps a component's status from being better than pending or failed. */
  predicate Troubles(r: CheckRun) {
    !r.completed || r.conclusion !in {Success, Skipped, Neutral}
  }

  lemma StatusOfTrouble(c: Component, runs: seq<CheckRun>)
    ensures StatusOf(c, runs) in {CheckStatus.Failed, Pending} <==>
      c.check.Some? && exists r :: r in runs && Matches(c.check.value, r) && Troubles(r)
  {
    if c.check.Some? {
      var matched := MatchingRuns(c.check.value, runs);
      if r :| r in runs && Matches(c.check.value, r) && Troubles(r) {
        assert r in matched;
      }
    }
  }

  /** A rung is failed or pending exactly when some run of one of its components is in trouble. */
  lemma RungInTroubleIff(ladder: Ladder, depth: nat, runs: seq<CheckRun>)
    ensures Rung(ladder, depth, runs) in {CheckStatus.Failed, Pending} <==>
      exists c, r :: c in Components(ladder, depth) && c.check.Some? && r in runs && Matches(c.check.value, r) &&
        Troubles(r)
  {
    var components := Components(ladder, depth);
    RungMembers(ladder, depth, runs);
    forall c ensures StatusOf(c, runs) in {CheckStatus.Failed, Pending} <==>
        c.check.Some? && exists r :: r in runs && Matches(c.check.value, r) && Troubles(r)
    {
      StatusOfTrouble(c, runs);
    }
    if c, r :| c in components && c.check.Some? && r in runs && Matches(c.check.value, r) && Troubles(r) {
      assert StatusOf(c, runs) in {CheckStatus.Failed, Pending};
    }
  }

  /** The verdict does not look at the run: it is not on the list of required checks. */
  predicate Overlooked(cfg: PrEvidence.Config, r: CheckRun) {
    cfg.required != {} && r.name !in cfg.required
  }

  /** Exactly when a green verdict hides a failed or pending rung: when a run of one of its components is in
      trouble and no required check. Without a list of required checks that never happens. */
  lemma GreenHidesTroubleIff(cfg: PrEvidence.Config, ladder: Ladder, depth: nat, runs: seq<CheckRun>)
    requires PrEvidence.ChecksVerdict(cfg, runs) == PrEvidence.Green
    ensures Rung(ladder, depth, runs) in {CheckStatus.Failed, Pending} <==>
      exists c, r :: c in Components(ladder, depth) && r in runs && Overlooked(cfg, r) &&
        c.check.Some? && Matches(c.check.value, r) && Troubles(r)
  {
    RungInTroubleIff(ladder, depth, runs);
    forall r | r in runs && Troubles(r) ensures Overlooked(cfg, r) {
      var i :| 0 <= i < |runs| && runs[i] == r;
      assert !PrEvidence.Relevant(cfg, runs, i);
    }
  }

  const SMOKE_FAILED := [CheckRun("unit-tests", true, Success), CheckRun("lean-smoke", true, Unsuccessful)]

  lemma RequiredCheckIsGreen()
    ensures PrEvidence.ChecksVerdict(PrEvidence.Config({"unit-tests"}, 0), SMOKE_FAILED) == PrEvidence.Green
  {
    var cfg := PrEvidence.Config({"unit-tests"}, 0);
    assert PrEvidence.Relevant(cfg, SMOKE_FAILED, 0);
    assert PrEvidence.Reported(SMOKE_FAILED, "unit-tests");
    assert "lean-smoke" != "unit-tests" by { assert "lean-smoke"[0] != "unit-tests"[0]; }
    assert !PrEvidence.Relevant(cfg, SMOKE_FAILED, 1);
  }

  lemma SmokeRungFails()
    ensures Rung(DEFAULT_LADDER, 1, SMOKE_FAILED) == CheckStatus.Failed
  {
    var matched := MatchingRuns("lean-smoke", SMOKE_FAILED);
    assert SMOKE_FAILED[1] in matched;
    assert SMOKE_FAILED[0] !in matched by { assert "lean-smoke (" <= SMOKE_FAILED[0].name ==> false; }
    RungMembers(DEFAULT_LADDER, 1, SMOKE_FAILED);
    assert DEFAULT_LADDER[1][0] in Components(DEFAULT_LADDER, 1);
    assert StatusOf(DEFAULT_LADDER[1][0], SMOKE_FAILED) == CheckStatus.Failed;
  }

  /** The hiding does happen: one required check green, one other failed. */
  lemma RequiredChecksCanHideAFailure()
    ensures PrEvidence.ChecksVerdict(PrEvidence.Config({"unit-tests"}, 0), SMOKE_FAILED) == PrEvidence.Green
    ensures Rung(DEFAULT_LADDER, 1, SMOKE_FAILED) == CheckStatus.Failed
  {
    RequiredCheckIsGreen();
    SmokeRungFails();
  }
}
