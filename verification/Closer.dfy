/** When may a scan run close a finding, and with which outcome. */
module Closer {
  import opened Domain
  import opened Evidence

  datatype ClosingOutcome =
    | FixedOutcome | ApprovedOutcome | DisagreementOutcome | RegressionOutcome | StillPresent | NotApplicable

  datatype Reason =
    | LaterEvidence | WrongRepo | WrongBranch | WrongTrigger | NotComplete | NotDescendant | WrongPlatform
    | ConfigJobFailed | ConfigTargetMismatch | NoDigest | NoDetector
    | JobMissing(job: JobName) | WrongTarget(job: JobName) | OldScanner(job: JobName)
    | NoDatabaseTime(job: JobName) | OldDatabase(job: JobName) | JobFailed(job: JobName)

  /** Commits known to descend from others; what GitHub's comparison answered. */
  type Ancestry = set<(nat, nat)>

  predicate IsDescendant(anc: Ancestry, merge: nat, sha: nat) {
    merge == sha || (merge, sha) in anc
  }

  // ---------------------------------------------------------------- the rule

  /** The job a name stands for; with repeated names the last one. */
  function JobNamed(jobs: seq<Job>, name: JobName): Option<Job> {
    if jobs == [] then None
    else if jobs[|jobs| - 1].name == name then Some(jobs[|jobs| - 1])
    else JobNamed(jobs[..|jobs| - 1], name)
  }

  predicate Ran(jobs: seq<Job>, name: JobName) {
    var j := JobNamed(jobs, name);
    j.Some? && j.value.success
  }

  /** A job that ran proves absence only on the right image, with a pinned-or-newer scanner and a
      database no older than the one that opened the finding. */
  predicate Fresh(jobs: seq<Job>, name: JobName, f: Finding) {
    var j := JobNamed(jobs, name);
    j.Some? && j.value.success && j.value.target in {None, Some(f.description.target)} &&
    j.value.version.Some? && j.value.version.value >= 0 &&
    (f.openingDb.Some? ==> j.value.db.Some? && j.value.db.value >= f.openingDb.value)
  }

  predicate NeedsJob(f: Finding, name: JobName, policy: bool) {
    name.ScannerJob? && name.scanner in f.openedBy && (name.mode == Raw || policy)
  }

  /** A valid closing run for `f`: the fork's main, a closing trigger, complete, at or after the
      merge, of the finding's platform, every job successful, every needed job fresh, and no later
      scan has spoken for the finding. */
  ghost predicate IsClosingRun(
      run: Run, f: Finding, merge: Option<nat>, anc: Ancestry, policy: bool, superseded: bool) {
    !superseded && run.repo == ForkRepo && run.branch == RemediationBranch && run.trigger != PullRequest &&
    run.status == Complete && (merge.Some? ==> IsDescendant(anc, merge.value, run.sha)) &&
    run.platform == f.description.platform &&
    (forall j :: 0 <= j < |run.jobs| ==> run.jobs[j].success) &&
    if IsConfig(f.key.family.layer) then
      Ran(run.jobs, ConfigJob(Raw)) &&
      JobNamed(run.jobs, ConfigJob(Raw)).value.target in {None, Some(f.description.target)}
    else
      run.digest.Some? && f.openedBy != {} &&
      forall d, m :: NeedsJob(f, ScannerJob(d, m), policy) ==> Fresh(run.jobs, ScannerJob(d, m), f)
  }

  /** How a needed job that ran falls short. */
  predicate FallsShort(r: Reason, job: Job, f: Finding) {
    match r
    case WrongTarget(_) => job.target !in {None, Some(f.description.target)}
    case OldScanner(_) => job.version == None || job.version.value < 0
    case NoDatabaseTime(_) => f.openingDb.Some? && job.db == None
    case OldDatabase(_) => f.openingDb.Some? && job.db.Some? && job.db.value < f.openingDb.value
    case _ => false
  }

  predicate AboutJob(r: Reason) {
    r.JobMissing? || r.WrongTarget? || r.OldScanner? || r.NoDatabaseTime? || r.OldDatabase?
  }

  /** What stands against one needed job. */
  predicate JobStands(r: Reason, jobs: seq<Job>, f: Finding)
    requires AboutJob(r)
  {
    if !Ran(jobs, r.job) then r.JobMissing? else FallsShort(r, JobNamed(jobs, r.job).value, f)
  }

  predicate ImageStands(r: Reason, run: Run, f: Finding, policy: bool) {
    if AboutJob(r) then NeedsJob(f, r.job, policy) && JobStands(r, run.jobs, f)
    else (r == NoDigest && run.digest == None) || (r == NoDetector && f.openedBy == {})
  }

  /** The reasons that do not depend on the layer. */
  predicate GeneralStands(r: Reason, run: Run, f: Finding, merge: Option<nat>, anc: Ancestry, superseded: bool) {
    match r
    case LaterEvidence => superseded
    case WrongRepo => run.repo != ForkRepo
    case WrongBranch => run.branch != RemediationBranch
    case WrongTrigger => run.trigger == PullRequest
    case NotComplete => run.status != Complete
    case NotDescendant => merge.Some? && !IsDescendant(anc, merge.value, run.sha)
    case WrongPlatform => run.platform != f.description.platform
    case _ => false
  }

  /** When a reason stands against the run. */
  ghost predicate Stands(
      r: Reason, run: Run, f: Finding, merge: Option<nat>, anc: Ancestry, policy: bool, superseded: bool) {
    var config := IsConfig(f.key.family.layer);
    GeneralStands(r, run, f, merge, anc, superseded) ||
    match r
    case ConfigJobFailed => config && !Ran(run.jobs, ConfigJob(Raw))
    case ConfigTargetMismatch =>
      config && Ran(run.jobs, ConfigJob(Raw)) &&
      JobNamed(run.jobs, ConfigJob(Raw)).value.target !in {None, Some(f.description.target)}
    case JobFailed(n) => exists j :: 0 <= j < |run.jobs| && !run.jobs[j].success && run.jobs[j].name == n
    case _ => !config && ImageStands(r, run, f, policy)
  }

  lemma NothingStandsSoFresh(jobs: seq<Job>, name: JobName, f: Finding)
    requires forall r: Reason :: AboutJob(r) && r.job == name ==> !JobStands(r, jobs, f)
    ensures Fresh(jobs, name, f)
  {
    assert !JobStands(JobMissing(name), jobs, f) && !JobStands(WrongTarget(name), jobs, f) &&
      !JobStands(OldScanner(name), jobs, f);
    assert !JobStands(NoDatabaseTime(name), jobs, f) && !JobStands(OldDatabase(name), jobs, f);
  }

  lemma NothingGeneralStands(run: Run, f: Finding, merge: Option<nat>, anc: Ancestry, superseded: bool)
    requires forall r: Reason :: !GeneralStands(r, run, f, merge, anc, superseded)
    ensures !superseded && run.repo == ForkRepo && run.branch == RemediationBranch && run.trigger != PullRequest
    ensures run.status == Complete && (merge.Some? ==> IsDescendant(anc, merge.value, run.sha))
    ensures run.platform == f.description.platform
  {
    hide IsDescendant;
    assert !GeneralStands(LaterEvidence, run, f, merge, anc, superseded);
    assert !GeneralStands(WrongRepo, run, f, merge, anc, superseded);
    assert !GeneralStands(WrongBranch, run, f, merge, anc, superseded);
    assert !GeneralStands(WrongTrigger, run, f, merge, anc, superseded);
    assert !GeneralStands(NotComplete, run, f, merge, anc, superseded);
    assert !GeneralStands(NotDescendant, run, f, merge, anc, superseded);
    assert !GeneralStands(WrongPlatform, run, f, merge, anc, superseded);
  }

  lemma NothingImageStands(run: Run, f: Finding, policy: bool)
    requires forall r: Reason :: !ImageStands(r, run, f, policy)
    ensures run.digest.Some? && f.openedBy != {}
    ensures forall d, m :: NeedsJob(f, ScannerJob(d, m), policy) ==> Fresh(run.jobs, ScannerJob(d, m), f)
  {
    hide Fresh, JobStands;
    assert !ImageStands(NoDigest, run, f, policy) && !ImageStands(NoDetector, run, f, policy);
    forall d, m | NeedsJob(f, ScannerJob(d, m), policy) ensures Fresh(run.jobs, ScannerJob(d, m), f) {
      forall r: Reason | AboutJob(r) && r.job == ScannerJob(d, m) ensures !JobStands(r, run.jobs, f) {
        assert !ImageStands(r, run, f, policy);
      }
      NothingStandsSoFresh(run.jobs, ScannerJob(d, m), f);
    }
  }

  lemma NoReasonMakesValid(run: Run, f: Finding, merge: Option<nat>, anc: Ancestry, policy: bool, superseded: bool)
    requires forall r: Reason :: !Stands(r, run, f, merge, anc, policy, superseded)
    ensures IsClosingRun(run, f, merge, anc, policy, superseded)
  {
    hide Fresh, GeneralStands, ImageStands, NeedsJob, IsDescendant, Ran;
    forall r: Reason ensures !GeneralStands(r, run, f, merge, anc, superseded) {
      assert !Stands(r, run, f, merge, anc, policy, superseded);
    }
    NothingGeneralStands(run, f, merge, anc, superseded);
    forall j | 0 <= j < |run.jobs| ensures run.jobs[j].success {
      assert !Stands(JobFailed(run.jobs[j].name), run, f, merge, anc, policy, superseded);
    }
    if IsConfig(f.key.family.layer) {
      assert !Stands(ConfigJobFailed, run, f, merge, anc, policy, superseded);
      assert !Stands(ConfigTargetMismatch, run, f, merge, anc, policy, superseded);
    } else {
      NoImageReasonStands(run, f, merge, anc, policy, superseded);
      NothingImageStands(run, f, policy);
    }
  }

  lemma NoImageReasonStands(
      run: Run, f: Finding, merge: Option<nat>, anc: Ancestry, policy: bool, superseded: bool)
    requires forall r: Reason :: !Stands(r, run, f, merge, anc, policy, superseded)
    requires !IsConfig(f.key.family.layer)
    ensures forall r: Reason :: !ImageStands(r, run, f, policy)
  {
    forall r: Reason ensures !ImageStands(r, run, f, policy) {
      assert !Stands(r, run, f, merge, anc, policy, superseded);
    }
  }

  lemma ValidLeavesNoReason(
      run: Run, f: Finding, merge: Option<nat>, anc: Ancestry, policy: bool, superseded: bool, r: Reason)
    requires IsClosingRun(run, f, merge, anc, policy, superseded)
    ensures !Stands(r, run, f, merge, anc, policy, superseded)
  {
    if AboutJob(r) && NeedsJob(f, r.job, policy) && !IsConfig(f.key.family.layer) {
      assert Fresh(run.jobs, ScannerJob(r.job.scanner, r.job.mode), f);
    }
  }

  /** A run is valid exactly when nothing stands against it. */
  lemma ValidMeansNoReason(run: Run, f: Finding, merge: Option<nat>, anc: Ancestry, policy: bool, superseded: bool)
    ensures IsClosingRun(run, f, merge, anc, policy, superseded) <==>
      forall r: Reason :: !Stands(r, run, f, merge, anc, policy, superseded)
  {
    hide IsClosingRun, Stands;
    if IsClosingRun(run, f, merge, anc, policy, superseded) {
      forall r: Reason ensures !Stands(r, run, f, merge, anc, policy, superseded) {
        ValidLeavesNoReason(run, f, merge, anc, policy, superseded, r);
      }
    }
    if forall r: Reason :: !Stands(r, run, f, merge, anc, policy, superseded) {
      NoReasonMakesValid(run, f, merge, anc, policy, superseded);
    }
  }

  // ---------------------------------------------------------------- the rule, on the run's own columns

  /** The job is the one the run lists last under the name, and it succeeded. */
  ghost predicate RanAs(jobs: seq<Job>, j: int, name: JobName) {
    0 <= j < |jobs| && jobs[j].name == name && jobs[j].success && forall l :: j < l < |jobs| ==> jobs[l].name != name
  }

  /** The job scanned the finding's image, with the pinned scanner or a newer one, on a database no older than
      the one that opened the finding. */
  ghost predicate ProvesAbsence(job: Job, f: Finding) {
    (job.target == None || job.target == Some(f.description.target)) &&
    job.version.Some? && job.version.value >= 0 &&
    (f.openingDb.Some? ==> job.db.Some? && job.db.value >= f.openingDb.value)
  }

  /** What a run must be to speak for a finding. */
  ghost predicate Qualifies(
      run: Run, f: Finding, merge: Option<nat>, anc: Ancestry, policy: bool, superseded: bool) {
    !superseded && run.repo == ForkRepo && run.branch == RemediationBranch &&
    run.trigger in {Push, Schedule, WorkflowDispatch, ReplayTrigger, Fixture} && run.status == Complete &&
    (merge.Some? ==> merge.value == run.sha || (merge.value, run.sha) in anc) &&
    run.platform == f.description.platform && (forall job :: job in run.jobs ==> job.success) &&
    if f.key.family.layer in {DockerfileLayer, HelmLayer, ComposeLayer} then
      exists j :: RanAs(run.jobs, j, ConfigJob(Raw)) && run.jobs[j].target in {None, Some(f.description.target)}
    else
      run.digest.Some? && f.openedBy != {} &&
      forall d, m :: d in f.openedBy && (m == Raw || policy) ==>
        exists j :: RanAs(run.jobs, j, ScannerJob(d, m)) && ProvesAbsence(run.jobs[j], f)
  }

  lemma {:induction false} NamedIsLast(jobs: seq<Job>, name: JobName)
    ensures forall j :: RanAs(jobs, j, name) ==> JobNamed(jobs, name) == Some(jobs[j])
    ensures Ran(jobs, name) ==> exists j :: RanAs(jobs, j, name)
  {
    if jobs != [] {
      var n := |jobs| - 1;
      NamedIsLast(jobs[..n], name);
      if jobs[n].name == name {
        assert jobs[n].success ==> RanAs(jobs, n, name);
      } else {
        forall j | RanAs(jobs, j, name) ensures JobNamed(jobs, name) == Some(jobs[j]) {
          assert RanAs(jobs[..n], j, name);
        }
        if Ran(jobs, name) {
          var j :| RanAs(jobs[..n], j, name);
          assert RanAs(jobs, j, name);
        }
      }
    }
  }

  lemma FreshMeans(jobs: seq<Job>, name: JobName, f: Finding)
    ensures Fresh(jobs, name, f) <==> exists j :: RanAs(jobs, j, name) && ProvesAbsence(jobs[j], f)
  {
    NamedIsLast(jobs, name);
    if Fresh(jobs, name, f) {
      var j :| RanAs(jobs, j, name);
      assert ProvesAbsence(jobs[j], f);
    }
  }

  lemma ClosingRunMeans(run: Run, f: Finding, merge: Option<nat>, anc: Ancestry, policy: bool, superseded: bool)
    ensures IsClosingRun(run, f, merge, anc, policy, superseded) <==>
      Qualifies(run, f, merge, anc, policy, superseded)
  {
    hide Fresh, ProvesAbsence;
    NamedIsLast(run.jobs, ConfigJob(Raw));
    forall d, m
      ensures Fresh(run.jobs, ScannerJob(d, m), f) <==>
        exists j :: RanAs(run.jobs, j, ScannerJob(d, m)) && ProvesAbsence(run.jobs[j], f)
      ensures NeedsJob(f, ScannerJob(d, m), policy) <==> d in f.openedBy && (m == Raw || policy)
    {
      FreshMeans(run.jobs, ScannerJob(d, m), f);
    }
    assert (forall job :: job in run.jobs ==> job.success) <==>
      forall j :: 0 <= j < |run.jobs| ==> run.jobs[j].success;
  }

  // ---------------------------------------------------------------- validation as it runs

  function When(holds: bool, r: Reason): (rs: seq<Reason>)
    ensures forall x :: x in rs <==> holds && x == r
  {
    if holds then [r] else []
  }

  method OriginReasons(run: Run, superseded: bool) returns (reasons: seq<Reason>)
    ensures forall r :: r in reasons <==>
      (superseded && r == LaterEvidence) || (run.repo != ForkRepo && r == WrongRepo) ||
      (run.branch != RemediationBranch && r == WrongBranch) || (run.trigger == PullRequest && r == WrongTrigger)
  {
    reasons := When(superseded, LaterEvidence);
    reasons := reasons + When(run.repo != ForkRepo, WrongRepo);
    reasons := reasons + When(run.branch != RemediationBranch, WrongBranch);
    reasons := reasons + When(run.trigger == PullRequest, WrongTrigger);
  }

  method RunReasons(run: Run, f: Finding, merge: Option<nat>, anc: Ancestry, superseded: bool)
    returns (reasons: seq<Reason>)
    ensures forall r :: r in reasons <==> GeneralStands(r, run, f, merge, anc, superseded)
  {
    hide IsDescendant;
    reasons := OriginReasons(run, superseded);
    reasons := reasons + When(run.status != Complete, NotComplete);
    reasons := reasons + When(merge.Some? && !IsDescendant(anc, merge.value, run.sha), NotDescendant);
    reasons := reasons + When(f.description.platform != run.platform, WrongPlatform);
  }

  method ConfigReasons(run: Run, f: Finding) returns (reasons: seq<Reason>)
    ensures forall r :: r in reasons ==> r in {ConfigJobFailed, ConfigTargetMismatch}
    ensures ConfigJobFailed in reasons <==> !Ran(run.jobs, ConfigJob(Raw))
    ensures ConfigTargetMismatch in reasons <==>
      Ran(run.jobs, ConfigJob(Raw)) &&
      JobNamed(run.jobs, ConfigJob(Raw)).value.target !in {None, Some(f.description.target)}
  {
    reasons := [];
    var cfg := JobNamed(run.jobs, ConfigJob(Raw));
    if cfg.None? || !cfg.value.success {
      reasons := [ConfigJobFailed];
    } else if cfg.value.target.Some? && cfg.value.target.value != f.description.target {
      reasons := [ConfigTargetMismatch];
    }
  }

  method JobReasons(name: JobName, job: Job, f: Finding) returns (reasons: seq<Reason>)
    ensures forall r: Reason :: r in reasons <==> AboutJob(r) && r.job == name && FallsShort(r, job, f)
  {
    reasons := When(job.target.Some? && job.target.value != f.description.target, WrongTarget(name));
    reasons := reasons + When(job.version.None? || job.version.value < 0, OldScanner(name));
    if f.openingDb.Some? {
      if job.db.None? {
        reasons := reasons + [NoDatabaseTime(name)];
      } else if job.db.value < f.openingDb.value {
        reasons := reasons + [OldDatabase(name)];
      }
    }
  }

  /** The jobs whose absence of a finding would be read as its fix. */
  function NeededJobs(f: Finding, policy: bool): (names: seq<JobName>)
    ensures forall n :: n in names <==> NeedsJob(f, n, policy)
  {
    JobsOf(f, Trivy, policy) + JobsOf(f, Grype, policy)
  }

  function JobsOf(f: Finding, d: Scanner, policy: bool): (names: seq<JobName>)
    ensures forall n :: n in names <==> n.ScannerJob? && n.scanner == d && NeedsJob(f, n, policy)
  {
    if d !in f.openedBy then []
    else if policy then [ScannerJob(d, Raw), ScannerJob(d, Policy)]
    else [ScannerJob(d, Raw)]
  }

  method ImageReasons(run: Run, f: Finding, policy: bool) returns (reasons: seq<Reason>)
    ensures forall r: Reason :: r in reasons <==> ImageStands(r, run, f, policy)
  {
    reasons := When(run.digest.None?, NoDigest) + When(f.openedBy == {}, NoDetector);
    var names := NeededJobs(f, policy);
    var k := 0;
    while k < |names|
      invariant 0 <= k <= |names|
      invariant forall r: Reason :: r in reasons <==>
        if AboutJob(r) then r.job in names[..k] && JobStands(r, run.jobs, f) else ImageStands(r, run, f, policy)
    {
      var more := NeededJobReasons(names[k], run, f);
      reasons := reasons + more;
      assert names[..k + 1] == names[..k] + [names[k]];
      k := k + 1;
    }
    assert names[..k] == names;
  }

  method NeededJobReasons(name: JobName, run: Run, f: Finding) returns (reasons: seq<Reason>)
    ensures forall r: Reason :: r in reasons <==> AboutJob(r) && r.job == name && JobStands(r, run.jobs, f)
  {
    var job := JobNamed(run.jobs, name);
    if job.None? || !job.value.success {
      reasons := [JobMissing(name)];
    } else {
      reasons := JobReasons(name, job.value, f);
    }
  }

  method FailedJobs(jobs: seq<Job>) returns (reasons: seq<Reason>)
    ensures forall r: Reason :: r in reasons <==>
      r.JobFailed? && exists j :: 0 <= j < |jobs| && !jobs[j].success && jobs[j].name == r.job
  {
    reasons := [];
    for k := 0 to |jobs|
      invariant forall r: Reason :: r in reasons <==>
        r.JobFailed? && exists j :: 0 <= j < k && !jobs[j].success && jobs[j].name == r.job
    {
      if !jobs[k].success {
        reasons := reasons + [JobFailed(jobs[k].name)];
      }
    }
  }

  method Unique(reasons: seq<Reason>) returns (unique: seq<Reason>)
    ensures forall r :: r in unique <==> r in reasons
    ensures forall i, j :: 0 <= i < j < |unique| ==> unique[i] != unique[j]
  {
    unique := [];
    for k := 0 to |reasons|
      invariant forall r :: r in unique <==> r in reasons[..k]
      invariant forall i, j :: 0 <= i < j < |unique| ==> unique[i] != unique[j]
    {
      assert reasons[..k + 1] == reasons[..k] + [reasons[k]];
      if reasons[k] !in unique {
        unique := unique + [reasons[k]];
      }
    }
    assert reasons[..|reasons|] == reasons;
  }

  /** Why `run` may not serve as closing evidence for `f`: every standing reason once, and none
      exactly when the run is a valid closing run. */
  method ValidateClosingRun(run: Run, f: Finding, merge: Option<nat>, anc: Ancestry, policy: bool, superseded: bool)
    returns (reasons: seq<Reason>)
    ensures forall r: Reason :: r in reasons <==> Stands(r, run, f, merge, anc, policy, superseded)
    ensures forall i, j :: 0 <= i < j < |reasons| ==> reasons[i] != reasons[j]
    ensures reasons == [] <==> IsClosingRun(run, f, merge, anc, policy, superseded)
    ensures reasons == [] <==> Qualifies(run, f, merge, anc, policy, superseded)
  {
    hide Qualifies, IsClosingRun;
    ClosingRunMeans(run, f, merge, anc, policy, superseded);
    var general := RunReasons(run, f, merge, anc, superseded);
    var layered: seq<Reason>;
    if IsConfig(f.key.family.layer) {
      layered := ConfigReasons(run, f);
    } else {
      layered := ImageReasons(run, f, policy);
    }
    var failed := FailedJobs(run.jobs);
    reasons := Unique(general + layered + failed);
    ValidMeansNoReason(run, f, merge, anc, policy, superseded);
    if reasons != [] {
      assert reasons[0] in reasons;
    }
  }

  // ---------------------------------------------------------------- sightings

  predicate RawPresent(run: Run, family: Family, d: Scanner) {
    exists k :: k in run.reports && k.family == family && d in run.reports[k].rawBy
  }

  /** A policy sighting is written for every raw one when the run has a policy scan. */
  predicate PolicySeen(run: Run, family: Family, d: Scanner) {
    run.hasPolicy && RawPresent(run, family, d)
  }

  predicate PolicyPresent(run: Run, family: Family, d: Scanner) {
    run.hasPolicy &&
    exists k :: k in run.reports && k.family == family && d in run.reports[k].rawBy && d in run.reports[k].policyBy
  }

  predicate Written(run: Run, s: Sighting) {
    s.key in run.reports && s.scanner in run.reports[s.key].rawBy &&
    if s.mode == Raw then s.present
    else run.hasPolicy && s.present == (s.scanner in run.reports[s.key].policyBy)
  }

  /** The sighting rows of one run, as intake writes them: a raw row per raw reporter and, beside it,
      a policy row when there is a policy scan. */
  method WriteSightings(run: Run, order: seq<Key>) returns (rows: seq<Sighting>)
    requires forall k :: k in order <==> k in run.reports
    ensures forall s :: s in rows <==> Written(run, s)
  {
    rows := [];
    var n := 0;
    while n < |order|
      invariant 0 <= n <= |order|
      invariant forall s :: s in rows <==> s.key in order[..n] && Written(run, s)
    {
      var k := order[n];
      var more := SightingsOf(run, k);
      rows := rows + more;
      assert order[..n + 1] == order[..n] + [k];
      n := n + 1;
    }
    assert order[..n] == order;
  }

  method SightingsOf(run: Run, k: Key) returns (rows: seq<Sighting>)
    requires k in run.reports
    ensures forall s :: s in rows <==> s.key == k && Written(run, s)
  {
    rows := [];
    var scanners := [Trivy, Grype];
    for n := 0 to 2
      invariant forall s :: s in rows <==> s.key == k && s.scanner in scanners[..n] && Written(run, s)
    {
      var d := scanners[n];
      assert scanners[..n + 1] == scanners[..n] + [d];
      if d in run.reports[k].rawBy {
        rows := rows + [Sighting(k, d, Raw, true)];
        if run.hasPolicy {
          rows := rows + [Sighting(k, d, Policy, d in run.reports[k].policyBy)];
        }
      }
    }
    assert scanners[..2] == scanners;
    forall d: Scanner ensures d in scanners {
      assert d == scanners[0] || d == scanners[1];
    }
  }

  /** Per scanner, whether it has rows for the family and whether any of them says present. */
  datatype View = View(raw: map<Scanner, bool>, policy: map<Scanner, bool>)

  predicate Shows(m: map<Scanner, bool>, d: Scanner) {
    d in m && m[d]
  }

  function Marked(m: map<Scanner, bool>, d: Scanner, present: bool): (r: map<Scanner, bool>)
    ensures forall e :: e in r <==> e in m || e == d
    ensures forall e :: Shows(r, e) <==> Shows(m, e) || (e == d && present)
  {
    m[d := Shows(m, d) || present]
  }

  /** Folds a run's rows over every version of the family. */
  method SightingsFor(family: Family, run: Run, rows: seq<Sighting>) returns (view: View)
    requires forall s :: s in rows <==> Written(run, s)
    ensures forall d :: d in view.raw <==> RawPresent(run, family, d)
    ensures forall d :: Shows(view.raw, d) <==> RawPresent(run, family, d)
    ensures forall d :: d in view.policy <==> PolicySeen(run, family, d)
    ensures forall d :: Shows(view.policy, d) <==> PolicyPresent(run, family, d)
  {
    hide RawPresent, PolicySeen, PolicyPresent, Marked, Tells;
    var raw: map<Scanner, bool>, pol: map<Scanner, bool> := map[], map[];
    TellsAtFirst(rows, family, Raw);
    TellsAtFirst(rows, family, Policy);
    for n := 0 to |rows|
      invariant Tells(raw, rows, n, family, Raw)
      invariant Tells(pol, rows, n, family, Policy)
    {
      TellsNext(raw, rows, n, family, Raw);
      TellsNext(pol, rows, n, family, Policy);
      var s := rows[n];
      if s.key.family == family {
        if s.mode == Raw {
          raw := Marked(raw, s.scanner, s.present);
        } else {
          pol := Marked(pol, s.scanner, s.present);
        }
      }
    }
    view := View(raw, pol);
    RowsDecideAll(run, rows, family, view);
  }

  /** Whether the first `n` rows show the family present. */
  predicate SeenBy(rows: seq<Sighting>, n: nat, family: Family, d: Scanner, mode: ScanMode, present: bool)
    requires n <= |rows|
  {
    exists i :: 0 <= i < n && Counts(rows[i], family, d, mode) && (present ==> rows[i].present)
  }

  /** What `m` says of each scanner is what the first `n` rows of the mode say. */
  ghost predicate Tells(m: map<Scanner, bool>, rows: seq<Sighting>, n: nat, family: Family, mode: ScanMode)
    requires n <= |rows|
  {
    (forall d :: d in m <==> SeenBy(rows, n, family, d, mode, false)) &&
    (forall d :: Shows(m, d) <==> SeenBy(rows, n, family, d, mode, true))
  }

  lemma TellsAtFirst(rows: seq<Sighting>, family: Family, mode: ScanMode)
    ensures Tells(map[], rows, 0, family, mode)
  {
  }

  lemma TellsNext(m: map<Scanner, bool>, rows: seq<Sighting>, n: nat, family: Family, mode: ScanMode)
    requires n < |rows| && Tells(m, rows, n, family, mode)
    ensures Tells(if rows[n].key.family == family && rows[n].mode == mode
                  then Marked(m, rows[n].scanner, rows[n].present) else m, rows, n + 1, family, mode)
  {
    hide SeenBy;
    var more := if rows[n].key.family == family && rows[n].mode == mode
                then Marked(m, rows[n].scanner, rows[n].present) else m;
    forall d
      ensures d in more <==> SeenBy(rows, n + 1, family, d, mode, false)
      ensures Shows(more, d) <==> SeenBy(rows, n + 1, family, d, mode, true)
    {
      SeenByNext(rows, n, family, d, mode, false);
      SeenByNext(rows, n, family, d, mode, true);
    }
  }

  lemma RowsDecideAll(run: Run, rows: seq<Sighting>, family: Family, view: View)
    requires forall s :: s in rows <==> Written(run, s)
    requires Tells(view.raw, rows, |rows|, family, Raw) && Tells(view.policy, rows, |rows|, family, Policy)
    ensures forall d :: d in view.raw <==> RawPresent(run, family, d)
    ensures forall d :: Shows(view.raw, d) <==> RawPresent(run, family, d)
    ensures forall d :: d in view.policy <==> PolicySeen(run, family, d)
    ensures forall d :: Shows(view.policy, d) <==> PolicyPresent(run, family, d)
  {
    hide RawPresent, PolicySeen, PolicyPresent, SeenBy, Shows;
    forall d
      ensures RawPresent(run, family, d) <==> d in view.raw
      ensures RawPresent(run, family, d) <==> Shows(view.raw, d)
      ensures PolicySeen(run, family, d) <==> d in view.policy
      ensures PolicyPresent(run, family, d) <==> Shows(view.policy, d)
    {
      RowsDecide(run, rows, family, d);
    }
  }

  lemma SeenByNext(rows: seq<Sighting>, n: nat, family: Family, d: Scanner, mode: ScanMode, present: bool)
    requires n < |rows|
    ensures SeenBy(rows, n + 1, family, d, mode, present) <==>
      SeenBy(rows, n, family, d, mode, present) || (Counts(rows[n], family, d, mode) && (present ==> rows[n].present))
  {
  }

  predicate Counts(s: Sighting, family: Family, d: Scanner, mode: ScanMode) {
    s.key.family == family && s.scanner == d && s.mode == mode
  }

  ghost predicate RowsTell(run: Run, rows: seq<Sighting>, family: Family, d: Scanner) {
    (RawPresent(run, family, d) <==> SeenBy(rows, |rows|, family, d, Raw, false)) &&
    (RawPresent(run, family, d) <==> SeenBy(rows, |rows|, family, d, Raw, true)) &&
    (PolicySeen(run, family, d) <==> SeenBy(rows, |rows|, family, d, Policy, false)) &&
    (PolicyPresent(run, family, d) <==> SeenBy(rows, |rows|, family, d, Policy, true))
  }

  lemma RowsDecide(run: Run, rows: seq<Sighting>, family: Family, d: Scanner)
    requires forall s :: s in rows <==> Written(run, s)
    ensures RowsTell(run, rows, family, d)
  {
    forall i | 0 <= i < |rows| ensures Written(run, rows[i]) {
      assert rows[i] in rows;
    }
    if RawPresent(run, family, d) {
      var k :| k in run.reports && k.family == family && d in run.reports[k].rawBy;
      assert Written(run, Sighting(k, d, Raw, true));
      if run.hasPolicy {
        assert Written(run, Sighting(k, d, Policy, d in run.reports[k].policyBy));
      }
    }
    if PolicyPresent(run, family, d) {
      var k :| k in run.reports && k.family == family && d in run.reports[k].rawBy && d in run.reports[k].policyBy;
      assert Written(run, Sighting(k, d, Policy, true));
    }
  }

  /** The families any row shows present, raw or policy, from any scanner. */
  method PresentFamilies(run: Run, rows: seq<Sighting>) returns (present: set<Family>)
    requires forall s :: s in rows <==> Written(run, s)
    ensures forall family :: family in present <==> SomeonePresent(run, family)
  {
    present := set s | s in rows && s.present :: s.key.family;
    forall family ensures family in present <==> SomeonePresent(run, family) {
      if SomeonePresent(run, family) {
        var d := if RawPresent(run, family, Trivy) then Trivy else Grype;
        var k :| k in run.reports && k.family == family && d in run.reports[k].rawBy;
        assert Written(run, Sighting(k, d, Raw, true));
      }
      if family in present {
        var s :| s in rows && s.present && s.key.family == family;
        assert Written(run, s) && RawPresent(run, family, s.scanner);
        assert s.scanner == Trivy || s.scanner == Grype;
      }
    }
  }

  predicate SomeonePresent(run: Run, family: Family) {
    RawPresent(run, family, Trivy) || RawPresent(run, family, Grype)
  }

  // ---------------------------------------------------------------- outcome

  /** The scanners whose raw silence closure reads as a fix: the config scanner for configuration,
      otherwise the ones that opened the finding. */
  function Watchers(f: Finding): set<Scanner> {
    if IsConfig(f.key.family.layer) then {Trivy} else f.openedBy
  }

  predicate StillReported(run: Run, f: Finding) {
    exists d :: d in Watchers(f) && RawPresent(run, f.key.family, d)
  }

  /** The policy scan saw every original detector that still reports the family and suppressed it. */
  predicate SuppressedByVex(run: Run, f: Finding, issue: Option<int>) {
    run.hasPolicy && (forall d :: d in f.openedBy ==> !PolicyPresent(run, f.key.family, d)) &&
    issue.Some? && (issue.value, f.key.family.vuln) in run.vex
  }

  predicate OneDetectorLeft(run: Run, f: Finding) {
    |set d | d in f.openedBy && RawPresent(run, f.key.family, d)| == 1
  }

  /** The outcome of a validated or rejected run. */
  function Outcome(run: Run, f: Finding, valid: bool, disagreement: bool, issue: Option<int>): ClosingOutcome {
    if !valid then NotApplicable
    else if !StillReported(run, f) then FixedOutcome
    else if IsClosed(f.state) then RegressionOutcome
    else if IsConfig(f.key.family.layer) then StillPresent
    else if SuppressedByVex(run, f, issue) then ApprovedOutcome
    else if OneDetectorLeft(run, f) && disagreement then DisagreementOutcome
    else StillPresent
  }

  // ---------------------------------------------------------------- outcome, report by report

  /** Some raw scan of one of the scanners reports some version of the finding's family. */
  ghost predicate ReportedBy(run: Run, f: Finding, scanners: set<Scanner>) {
    exists k :: k in run.reports && k.family == f.key.family && run.reports[k].rawBy * scanners != {}
  }

  /** Of the finding's openers exactly one still reports the family. */
  ghost predicate ReportedByOne(run: Run, f: Finding) {
    exists d :: d in f.openedBy && ReportedBy(run, f, {d}) && !ReportedBy(run, f, f.openedBy - {d})
  }

  /** An opener still reports the family raw, none does in the policy scan, and that scan applied an approval of
      the vulnerability that names the issue. */
  ghost predicate ApprovedFor(run: Run, f: Finding, issue: Option<int>) {
    ReportedBy(run, f, f.openedBy) && run.hasPolicy &&
    (forall k :: k in run.reports && k.family == f.key.family ==>
      run.reports[k].rawBy * run.reports[k].policyBy * f.openedBy == {}) &&
    issue.Some? && (issue.value, f.key.family.vuln) in run.vex
  }

  /** When each outcome is the answer. */
  ghost predicate Answers(
      o: ClosingOutcome, run: Run, f: Finding, valid: bool, disagreement: bool, issue: Option<int>) {
    var config := f.key.family.layer in {DockerfileLayer, HelmLayer, ComposeLayer};
    var closed := f.state in {Fixed, ApprovedDisposition, DisagreementResolved};
    var reported := ReportedBy(run, f, if config then {Trivy} else f.openedBy);
    var approved := !config && ApprovedFor(run, f, issue);
    var accepted := !config && !approved && disagreement && ReportedByOne(run, f);
    match o
    case NotApplicable => !valid
    case FixedOutcome => valid && !reported
    case RegressionOutcome => valid && reported && closed
    case ApprovedOutcome => valid && reported && !closed && approved
    case DisagreementOutcome => valid && reported && !closed && accepted
    case StillPresent => valid && reported && !closed && !approved && !accepted
  }

  lemma ReportedBySome(run: Run, f: Finding, scanners: set<Scanner>)
    ensures ReportedBy(run, f, scanners) <==> exists d :: d in scanners && RawPresent(run, f.key.family, d)
  {
    if ReportedBy(run, f, scanners) {
      var k :| k in run.reports && k.family == f.key.family && run.reports[k].rawBy * scanners != {};
      var d :| d in run.reports[k].rawBy * scanners;
      assert RawPresent(run, f.key.family, d);
    }
    if d :| d in scanners && RawPresent(run, f.key.family, d) {
      var k :| k in run.reports && k.family == f.key.family && d in run.reports[k].rawBy;
      assert d in run.reports[k].rawBy * scanners;
    }
  }

  lemma ApprovalMeans(run: Run, f: Finding, issue: Option<int>)
    ensures ApprovedFor(run, f, issue) <==> ReportedBy(run, f, f.openedBy) && SuppressedByVex(run, f, issue)
  {
    hide ReportedBy;
    if run.hasPolicy {
      var shown := set k | k in run.reports && k.family == f.key.family &&
        run.reports[k].rawBy * run.reports[k].policyBy * f.openedBy != {};
      if k :| k in shown {
        var d :| d in run.reports[k].rawBy * run.reports[k].policyBy * f.openedBy;
        assert PolicyPresent(run, f.key.family, d);
      }
      if d :| d in f.openedBy && PolicyPresent(run, f.key.family, d) {
        var k :| k in run.reports && k.family == f.key.family && d in run.reports[k].rawBy &&
          d in run.reports[k].policyBy;
        assert d in run.reports[k].rawBy * run.reports[k].policyBy * f.openedBy;
      }
    }
  }

  lemma OneMeans(run: Run, f: Finding)
    ensures ReportedByOne(run, f) <==> OneDetectorLeft(run, f)
  {
    hide ReportedBy, RawPresent;
    var left := set d | d in f.openedBy && RawPresent(run, f.key.family, d);
    forall d ensures ReportedBy(run, f, {d}) <==> RawPresent(run, f.key.family, d) {
      ReportedBySome(run, f, {d});
    }
    forall d ensures ReportedBy(run, f, f.openedBy - {d}) <==> left - {d} != {} {
      ReportedBySome(run, f, f.openedBy - {d});
      if e :| e in f.openedBy - {d} && RawPresent(run, f.key.family, e) {
        assert e in left - {d};
      }
      if e :| e in left - {d} {
        assert e in f.openedBy - {d};
      }
    }
    if |left| == 1 {
      var d :| d in left;
      assert |left - {d}| == 0;
    }
    if d :| d in left && left - {d} == {} {
      assert left == {d};
    }
  }

  /** The outcome is the one answer that fits the reports, the approval and the finding's state. */
  lemma OutcomeMeans(run: Run, f: Finding, valid: bool, disagreement: bool, issue: Option<int>)
    ensures forall o :: Answers(o, run, f, valid, disagreement, issue) <==>
      o == Outcome(run, f, valid, disagreement, issue)
  {
    hide ReportedBy, ReportedByOne, ApprovedFor, SuppressedByVex, OneDetectorLeft, RawPresent;
    ReportedBySome(run, f, Watchers(f));
    ReportedBySome(run, f, f.openedBy);
    ApprovalMeans(run, f, issue);
    OneMeans(run, f);
  }

  /** Decided from the folded view, as the evaluation does. */
  method DecideOutcome(run: Run, f: Finding, view: View, valid: bool, disagreement: bool, issue: Option<int>)
    returns (outcome: ClosingOutcome)
    requires forall d :: Shows(view.raw, d) <==> RawPresent(run, f.key.family, d)
    requires forall d :: d in view.policy <==> PolicySeen(run, f.key.family, d)
    requires forall d :: Shows(view.policy, d) <==> PolicyPresent(run, f.key.family, d)
    ensures outcome == Outcome(run, f, valid, disagreement, issue)
    ensures forall o :: o == outcome <==> Answers(o, run, f, valid, disagreement, issue)
  {
    hide Answers;
    OutcomeMeans(run, f, valid, disagreement, issue);
    if !valid {
      return NotApplicable;
    }
    if IsConfig(f.key.family.layer) {
      assert StillReported(run, f) <==> Shows(view.raw, Trivy);
      return if !Shows(view.raw, Trivy) then FixedOutcome else if IsClosed(f.state) then RegressionOutcome
        else StillPresent;
    }
    var present := set d | d in f.openedBy && Shows(view.raw, d);
    assert present == set d | d in f.openedBy && RawPresent(run, f.key.family, d);
    assert StillReported(run, f) <==> present != {};
    if present == {} {
      return FixedOutcome;
    }
    if IsClosed(f.state) {
      return RegressionOutcome;
    }
    var seen := forall d | d in present :: d in view.policy;
    var absent := forall d | d in present :: !Shows(view.policy, d);
    assert seen && absent <==> run.hasPolicy && forall d :: d in f.openedBy ==> !PolicyPresent(run, f.key.family, d);
    if seen && absent && issue.Some? && (issue.value, f.key.family.vuln) in run.vex {
      return ApprovedOutcome;
    }
    return if |present| == 1 && disagreement then DisagreementOutcome else StillPresent;
  }

  /** The presence test of drift and regression agrees with the fold of closure exactly when nobody
      but a watcher reports the family. */
  lemma PresenceTestsAgree(run: Run, f: Finding)
    requires forall d :: RawPresent(run, f.key.family, d) ==> d in Watchers(f)
    ensures SomeonePresent(run, f.key.family) <==> StillReported(run, f)
  {
    if StillReported(run, f) {
      var d :| d in Watchers(f) && RawPresent(run, f.key.family, d);
      assert d == Trivy || d == Grype;
    }
  }
}
