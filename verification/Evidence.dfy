/** Scan evidence and findings: the rows that intake writes and closure reads. */
module Evidence {
  import opened Domain

  datatype Layer = PythonLayer | OsLayer | BinaryLayer | DockerfileLayer | HelmLayer | ComposeLayer

  predicate IsConfig(layer: Layer) {
    layer in {DockerfileLayer, HelmLayer, ComposeLayer}
  }

  /** Same vulnerability of the same package in the same layer, at any version. */
  datatype Family = Family(vuln: int, ecosystem: int, pkg: Option<int>, layer: Layer)

  /** A dedupe key: the family plus what tells its members apart, the version or the resource. */
  datatype Key = Key(family: Family, detail: int)

  datatype Target = Lean | CiImage

  /** What the latest scan says about a finding; every scan that may speak replaces it whole.
      `kind` is the classification, `None` when no rule matched. */
  datatype Description = Description(platform: int, target: Target, kind: Option<int>, text: int)

  /** One normalized finding of one run: its raw reporters, and its reporters in the policy scan if
      the run has one. */
  datatype Report = Report(description: Description, rawBy: set<Scanner>, policyBy: set<Scanner>)

  datatype Repo = ForkRepo | OtherRepo(name: int)
  datatype Branch = RemediationBranch | OtherBranch(name: int)
  datatype Trigger = Push | PullRequest | Schedule | WorkflowDispatch | ReplayTrigger | Fixture
  datatype RunStatus = Complete | Incomplete | FailedRun

  datatype JobName = ScannerJob(scanner: Scanner, mode: ScanMode) | ConfigJob(mode: ScanMode) | OtherJob(other: int)

  /** `version` is the scanner's place in the version order counted from its pinned version, `None`
      when it is missing or not a version. */
  datatype Job = Job(name: JobName, success: bool, target: Option<Target>, version: Option<int>, db: Option<int>)

  datatype Run = Run(id: nat, finished: Option<int>, ingestedAt: int, repo: Repo, branch: Branch, sha: nat,
                     trigger: Trigger, status: RunStatus, platform: int, digest: Option<int>,
                     oldestDb: Option<int>, jobs: seq<Job>, hasPolicy: bool, reports: map<Key, Report>,
                     vex: set<(int, int)>)

  /** A finding row. `openedBy` and `openingDb` are fixed when it is opened. */
  datatype Finding = Finding(key: Key, openedBy: set<Scanner>, openingDb: Option<int>, description: Description,
                             state: FindingState, firstSeen: nat, lastSeen: nat,
                             owner: Option<nat>, closedBy: Option<nat>)

  /** One stored sighting row of a run. */
  datatype Sighting = Sighting(key: Key, scanner: Scanner, mode: ScanMode, present: bool)
}
