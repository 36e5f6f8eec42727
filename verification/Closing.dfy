/** What one ingested scan run does to findings and work items when it is evaluated as closing
    evidence, and what a merge does when it is observed. */
module Closing {
  import opened Domain
  import opened StateTables
  import opened Evidence
  import opened Persist
  import opened Closer

  datatype Resolution = NoResolution | DispositionApproved | DisagreementAccepted

  datatype WorkItem = WorkItem(state: WorkItemState, noFix: bool, resolution: Resolution, issue: Option<int>,
                               merge: Option<nat>, mergedAt: Option<int>)

  /** `log` lists the committed evaluations in order; `applied` is the marker kept on the runs. */
  datatype World = World(findings: map<Key, Finding>, runs: map<nat, Run>, items: seq<WorkItem>,
                         applied: set<nat>, log: seq<nat>)

  const START_WORLD := World(map[], map[], [], {}, [])

  // ---------------------------------------------------------------- chronology of evidence

  predicate IsLater(runs: map<nat, Run>, run: Run, other: nat) {
    other != run.id && other in runs && run.finished.Some? && runs[other].finished.Some? &&
    runs[other].finished.value > run.finished.value
  }

  /** A scan that finished later already reported or closed the finding. */
  predicate IsSuperseded(runs: map<nat, Run>, run: Run, f: Finding) {
    IsLater(runs, run, f.lastSeen) || (f.closedBy.Some? && IsLater(runs, run, f.closedBy.value))
  }

  // ---------------------------------------------------------------- findings

  /** Moves along the finding table; a refused event leaves the finding alone. */
  function Shift(f: Finding, e: FindingEvent, run: Option<nat>): Finding {
    match NextFindingState(f.state, e)
    case None => f
    case Some(after) => f.(state := after, closedBy := if IsClosed(after) && run.Some? then run else f.closedBy)
  }

  predicate NeedsPolicy(it: WorkItem) {
    it.noFix || it.resolution == DispositionApproved
  }

  ghost function MemberOutcome(runs: map<nat, Run>, run: Run, it: WorkItem, f: Finding, anc: Ancestry): ClosingOutcome {
    Outcome(run, f, IsClosingRun(run, f, it.merge, anc, NeedsPolicy(it), IsSuperseded(runs, run, f)),
            it.resolution == DisagreementAccepted, it.issue)
  }

  function Resolved(f: Finding, outcome: ClosingOutcome, run: nat): Finding {
    match outcome
    case FixedOutcome => Shift(f, ClosingAbsent, Some(run))
    case ApprovedOutcome => Shift(f, ClosingVex, Some(run))
    case DisagreementOutcome => Shift(f, ResolveDisagreement, Some(run))
    case _ => f
  }

  // ---------------------------------------------------------------- one work item

  datatype Verdict = Undecided | AllResolved | ShowsPresent | NothingLeft

  ghost predicate IsMember(w: World, i: nat, k: Key) {
    k in w.findings && w.findings[k].owner == Some(i)
  }

  ghost function OutcomeIn(w: World, run: Run, i: nat, k: Key, anc: Ancestry): ClosingOutcome
    requires i < |w.items| && k in w.findings
  {
    MemberOutcome(w.runs, run, w.items[i], w.findings[k], anc)
  }

  ghost function ResolvedIn(w: World, run: Run, i: nat, k: Key, anc: Ancestry): Finding
    requires i < |w.items| && k in w.findings
  {
    Resolved(w.findings[k], OutcomeIn(w, run, i, k, anc), run.id)
  }

  ghost predicate AnyMember(w: World, i: nat) {
    exists k :: IsMember(w, i, k)
  }

  ghost predicate AnyOutcome(w: World, run: Run, i: nat, anc: Ancestry, o: ClosingOutcome)
    requires i < |w.items|
  {
    exists k :: IsMember(w, i, k) && OutcomeIn(w, run, i, k, anc) == o
  }

  ghost predicate AllMembersClose(w: World, run: Run, i: nat, anc: Ancestry)
    requires i < |w.items|
  {
    AnyMember(w, i) && forall k :: IsMember(w, i, k) ==> IsClosed(ResolvedIn(w, run, i, k, anc).state)
  }

  ghost function ItemVerdict(w: World, run: Run, i: nat, anc: Ancestry): Verdict
    requires i < |w.items|
  {
    if AnyOutcome(w, run, i, anc, NotApplicable) then Undecided
    else if AllMembersClose(w, run, i, anc) then AllResolved
    else if AnyOutcome(w, run, i, anc, StillPresent) then ShowsPresent
    else NothingLeft
  }

  function StateAfter(s: WorkItemState, v: Verdict): WorkItemState {
    if v == Undecided then Advance(s, RescanStarted)
    else
      var rescanned := if s == Merged then Advance(s, RescanStarted) else s;
      match v
      case AllResolved => Advance(rescanned, RescanVerified)
      case ShowsPresent => Advance(rescanned, RescanShowsPresent)
      case _ => rescanned
  }

  ghost function MemberAfter(w: World, run: Run, i: nat, k: Key, anc: Ancestry): Finding
    requires i < |w.items| && k in w.findings
  {
    var f := ResolvedIn(w, run, i, k, anc);
    if ItemVerdict(w, run, i, anc) == ShowsPresent && OutcomeIn(w, run, i, k, anc) == StillPresent
    then Shift(f, BlockByHuman, None) else f
  }

  ghost function CloseItem(w: World, run: Run, i: nat, anc: Ancestry): World
    requires i < |w.items|
  {
    w.(findings := map k | k in w.findings ::
         if w.findings[k].owner == Some(i) then MemberAfter(w, run, i, k, anc) else w.findings[k],
       items := w.items[i := w.items[i].(state := StateAfter(w.items[i].state, ItemVerdict(w, run, i, anc)))])
  }

  predicate AwaitsClosure(it: WorkItem) {
    it.state in {Merged, AwaitingRescan}
  }

  /** Every merged item below `n`, one after the other. */
  ghost function CloseBelow(w: World, run: Run, anc: Ancestry, n: nat): (v: World)
    requires n <= |w.items|
    ensures |v.items| == |w.items| && v.runs == w.runs && v.findings.Keys == w.findings.Keys
  {
    if n == 0 then w
    else
      var v := CloseBelow(w, run, anc, n - 1);
      if AwaitsClosure(w.items[n - 1]) then CloseItem(v, run, n - 1, anc) else v
  }

  lemma {:induction false} KeysStay(w: World, run: Run, anc: Ancestry, n: nat)
    requires KeyedByKey(w.findings) && n <= |w.items|
    ensures KeyedByKey(CloseBelow(w, run, anc, n).findings)
  {
    hide ItemVerdict, IsClosingRun, IsSuperseded, NextFindingState;
    if n > 0 {
      KeysStay(w, run, anc, n - 1);
      var u := CloseBelow(w, run, anc, n - 1);
      forall k | k in u.findings ensures MemberAfter(u, run, n - 1, k, anc).key == k {
      }
    }
  }

  // ---------------------------------------------------------------- regressions and drift

  function ClosingSha(runs: map<nat, Run>, f: Finding): Option<nat> {
    if f.closedBy.Some? && f.closedBy.value in runs then Some(runs[f.closedBy.value].sha) else None
  }

  /** The policy scan reported on the family and suppressed all of it. */
  predicate PolicySuppressed(run: Run, family: Family) {
    run.hasPolicy && SomeonePresent(run, family) &&
    !PolicyPresent(run, family, Trivy) && !PolicyPresent(run, family, Grype)
  }

  ghost predicate Reopens(runs: map<nat, Run>, run: Run, f: Finding, anc: Ancestry) {
    IsClosed(f.state) && SomeonePresent(run, f.key.family) &&
    IsClosingRun(run, f, ClosingSha(runs, f), anc, false, IsSuperseded(runs, run, f)) &&
    !(f.state == ApprovedDisposition && PolicySuppressed(run, f.key.family)) &&
    NextFindingState(f.state, Reappeared).Some?
  }

  ghost function RegressOne(runs: map<nat, Run>, run: Run, f: Finding, anc: Ancestry): Finding {
    if Reopens(runs, run, f, anc) then Shift(f, Reappeared, Some(run.id)).(owner := None) else f
  }

  ghost function Regressions(w: World, run: Run, anc: Ancestry): World {
    w.(findings := map k | k in w.findings :: RegressOne(w.runs, run, w.findings[k], anc))
  }

  /** A finding drift may look at: ungrouped, or grouped under an item no session works on. */
  predicate Driftable(items: seq<WorkItem>, run: Run, f: Finding) {
    f.state in {Open, Unclassified, Grouped} && f.lastSeen != run.id && !SomeonePresent(run, f.key.family) &&
    (f.state == Grouped && f.owner.Some? ==>
      f.owner.value < |items| && items[f.owner.value].state in {Queued, IssueOpen})
  }

  ghost function DriftOne(w: World, run: Run, f: Finding, anc: Ancestry): Finding {
    if Driftable(w.items, run, f) && IsClosingRun(run, f, None, anc, false, IsSuperseded(w.runs, run, f))
    then Shift(f, ClosingAbsent, Some(run.id)) else f
  }

  ghost predicate Touched(w: World, run: Run, i: nat) {
    exists k :: IsMember(w, i, k) && w.findings[k].state == Grouped && Driftable(w.items, run, w.findings[k])
  }

  /** An undispatched item all of whose members are gone is retired. */
  ghost predicate Retires(w: World, run: Run, i: nat, anc: Ancestry) {
    Touched(w, run, i) && forall k :: IsMember(w, i, k) ==> IsClosed(DriftOne(w, run, w.findings[k], anc).state)
  }

  ghost function Drift(w: World, run: Run, anc: Ancestry): World {
    w.(findings := map k | k in w.findings :: DriftOne(w, run, w.findings[k], anc),
       items := seq(|w.items|, i requires 0 <= i < |w.items| =>
         if Retires(w, run, i, anc) then w.items[i].(state := Advance(w.items[i].state, WorkItemEvent.Superseded))
         else w.items[i]))
  }

  /** The whole evaluation and its marker, committed together. */
  ghost function Evaluate(w: World, r: nat, anc: Ancestry): World
    requires r in w.runs
  {
    Drift(Regressions(CloseBelow(w, w.runs[r], anc, |w.items|), w.runs[r], anc), w.runs[r], anc)
      .(applied := w.applied + {r}, log := w.log + [r])
  }

  /** A call to GitHub may fail anywhere in the evaluation; then the transaction is rolled back. A
      run already applied is not evaluated again. */
  ghost function Apply(w: World, r: nat, anc: Ancestry, ok: bool): World
    requires r in w.runs
  {
    if r in w.applied || !ok then w else Evaluate(w, r, anc)
  }

  ghost predicate Evaluates(w: World, r: nat, anc: Ancestry, v: World) {
    r in w.runs && r !in w.applied && v == Evaluate(w, r, anc)
  }

  /** The worlds before, between and after evaluations committed one by one. */
  ghost predicate IsPass(worlds: seq<World>, order: seq<nat>, anc: Ancestry) {
    |worlds| == |order| + 1 && forall n :: 0 <= n < |order| ==> Evaluates(worlds[n], order[n], anc, worlds[n + 1])
  }

  // ---------------------------------------------------------------- a merge is observed

  ghost function MergedFindings(w: World, i: nat): map<Key, Finding> {
    map k | k in w.findings ::
      if w.findings[k].owner == Some(i) then Shift(w.findings[k], PrMerged, None) else w.findings[k]
  }

  ghost function Merge(w: World, i: nat, sha: Option<nat>, at: int): World
    requires i < |w.items|
  {
    w.(findings := MergedFindings(w, i),
       items := w.items[i := w.items[i].(merge := sha, mergedAt := Some(at), state := Merged)])
  }

  predicate Replays(w: World, at: int, r: nat) {
    r in w.applied && r in w.runs && w.runs[r].finished.Some? && w.runs[r].finished.value >= at
  }

  /** Runs already evaluated that finished at or after the merge, oldest first. */
  ghost predicate IsReplayOrder(w: World, at: int, order: seq<nat>) {
    (forall r :: r in order <==> Replays(w, at, r)) &&
    (forall a, b :: 0 <= a < b < |order| ==> order[a] != order[b]) &&
    (forall a, b | 0 <= a < b < |order| && Replays(w, at, order[a]) && Replays(w, at, order[b]) ::
      w.runs[order[a]].finished.value <= w.runs[order[b]].finished.value)
  }

  ghost function ReplayRuns(w: World, i: nat, order: seq<nat>, anc: Ancestry): (v: World)
    requires i < |w.items| && forall r :: r in order ==> r in w.runs
    ensures |v.items| == |w.items| && v.runs == w.runs && v.findings.Keys == w.findings.Keys
    decreases |order|
  {
    if order == [] || !AwaitsClosure(w.items[i]) then w
    else ReplayRuns(CloseItem(w, w.runs[order[0]], i, anc), i, order[1..], anc)
  }

  /** States whose pull request is polled. */
  predicate TracksPr(s: WorkItemState) {
    s in {PrOpen, ChecksRunning, ReviewPending, ReadyForHuman, NeedsHuman}
  }

  ghost function MergeSeen(w: World, i: nat, sha: Option<nat>, at: int, order: seq<nat>, anc: Ancestry): World
    requires i < |w.items| && IsReplayOrder(w, at, order)
  {
    ReplayRuns(Merge(w, i, sha, at), i, order, anc)
  }
}
