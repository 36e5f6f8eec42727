/** Vocabulary shared by every component: the enumerations of the controller's domain. */
module Domain {

  datatype Option<+T> = None | Some(value: T)

  datatype WorkItemState =
    | Queued | IssueOpen | Dispatching | SessionActive | PrOpen | ChecksRunning | ChecksFailed
    | ReviewPending | ReadyForHuman | Merged | AwaitingRescan | Verified | NeedsHuman
    | Abandoned | Failed

  datatype WorkItemEvent =
    | DispatchApproved | IssueCreated | DispatchStarted | SessionCreated | SessionAdopted
    | DispatchFailed | PrOpened | ChecksStarted | ChecksGreen | ChecksRed | RetrySent
    | RetriesExhausted | NewHeadPushed | ReviewCompleted | ReviewNotObserved | HumanMerged
    | PrClosedUnmerged | RescanStarted | RescanVerified | RescanShowsPresent | Blocked
    | HumanRetry | OperatorCancelled | HumanAbandoned | HumanResolved | Superseded

  datatype FindingState =
    | Open | Unclassified | Grouped | InRemediation | FindingAwaitingRescan | Fixed
    | ApprovedDisposition | DisagreementResolved | Regression | HumanBlocked

  datatype FindingEvent =
    | Classified | Unclassifiable | JoinGroup | RemediationStarted | PrMerged | ClosingAbsent
    | ClosingVex | ResolveDisagreement | Reappeared | BlockByHuman | HumanReopened | Reclassified

  datatype Scanner = Trivy | Grype

  datatype ScanMode = Raw | Policy

  datatype Severity = SeverityUnknown | SeverityLow | SeverityMedium | SeverityHigh | SeverityCritical

  /** The conclusions the controller tells apart; a run still going has none. */
  datatype Conclusion = NoConclusion | Success | Skipped | Neutral | Unsuccessful

  /** A check run of a commit; `completed` is the status GitHub reports as such. */
  datatype CheckRun = CheckRun(name: string, completed: bool, conclusion: Conclusion)

  function Rank(s: Severity): nat {
    match s
    case SeverityUnknown => 0
    case SeverityLow => 1
    case SeverityMedium => 2
    case SeverityHigh => 3
    case SeverityCritical => 4
  }

  /** States in which an item occupies one of the concurrent session slots. */
  predicate IsActive(s: WorkItemState) {
    s in {Dispatching, SessionActive, PrOpen, ChecksRunning, ChecksFailed, ReviewPending}
  }

  /** Finding states that count as a closing outcome. */
  predicate IsClosed(s: FindingState) {
    s in {Fixed, ApprovedDisposition, DisagreementResolved}
  }
}
