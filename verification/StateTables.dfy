/** The two lifecycle tables and the only member that may change a work item's state. */
module StateTables {
  import opened Domain

  /** The work-item table; `None` is the invalid transition. */
  function NextWorkItemState(s: WorkItemState, e: WorkItemEvent): Option<WorkItemState> {
    match s
    case Queued => (match e
      case DispatchApproved => Some(Queued)
      case IssueCreated => Some(IssueOpen)
      case HumanAbandoned => Some(Abandoned)
      case Superseded => Some(Abandoned)
      case _ => None)
    case IssueOpen => (match e
      case Superseded => Some(Abandoned)
      case DispatchStarted => Some(Dispatching)
      case HumanAbandoned => Some(Abandoned)
      case Blocked => Some(NeedsHuman)
      case _ => None)
    case Dispatching => (match e
      case SessionCreated => Some(SessionActive)
      case SessionAdopted => Some(SessionActive)
      case DispatchFailed => Some(IssueOpen)
      case Blocked => Some(NeedsHuman)
      case _ => None)
    case SessionActive => (match e
      case PrOpened => Some(PrOpen)
      case Blocked => Some(NeedsHuman)
      case OperatorCancelled => Some(NeedsHuman)
      case RetriesExhausted => Some(Failed)
      case _ => None)
    case PrOpen => (match e
      case ChecksStarted => Some(ChecksRunning)
      case Blocked => Some(NeedsHuman)
      case PrClosedUnmerged => Some(NeedsHuman)
      case _ => None)
    case ChecksRunning => (match e
      case ChecksGreen => Some(ReviewPending)
      case ChecksRed => Some(ChecksFailed)
      case Blocked => Some(NeedsHuman)
      case PrClosedUnmerged => Some(NeedsHuman)
      case _ => None)
    case ChecksFailed => (match e
      case RetrySent => Some(SessionActive)
      case RetriesExhausted => Some(Failed)
      case Blocked => Some(NeedsHuman)
      case _ => None)
    case ReviewPending => (match e
      case ReviewCompleted => Some(ReadyForHuman)
      case ReviewNotObserved => Some(NeedsHuman)
      case ChecksRed => Some(ChecksFailed)
      case Blocked => Some(NeedsHuman)
      case PrClosedUnmerged => Some(NeedsHuman)
      case NewHeadPushed => Some(ChecksRunning)
      case _ => None)
    case ReadyForHuman => (match e
      case HumanMerged => Some(Merged)
      case ChecksRed => Some(ChecksFailed)
      case PrClosedUnmerged => Some(NeedsHuman)
      case HumanAbandoned => Some(Abandoned)
      case Blocked => Some(NeedsHuman)
      case NewHeadPushed => Some(ChecksRunning)
      case _ => None)
    case Merged => (match e
      case RescanStarted => Some(AwaitingRescan)
      case _ => None)
    case AwaitingRescan => (match e
      case RescanVerified => Some(Verified)
      case RescanShowsPresent => Some(NeedsHuman)
      case RescanStarted => Some(AwaitingRescan)
      case _ => None)
    case NeedsHuman => (match e
      case HumanRetry => Some(IssueOpen)
      case HumanAbandoned => Some(Abandoned)
      case HumanResolved => Some(AwaitingRescan)
      case HumanMerged => Some(Merged)
      case _ => None)
    case Failed => (match e
      case HumanRetry => Some(IssueOpen)
      case HumanAbandoned => Some(Abandoned)
      case _ => None)
    case Verified => None
    case Abandoned => None
  }

  /** The finding table; `None` is the invalid transition. */
  function NextFindingState(s: FindingState, e: FindingEvent): Option<FindingState> {
    match s
    case Open => (match e
      case Classified => Some(Open)
      case Unclassifiable => Some(Unclassified)
      case JoinGroup => Some(Grouped)
      case ClosingAbsent => Some(Fixed)
      case _ => None)
    case Unclassified => (match e
      case Reclassified => Some(Open)
      case ClosingAbsent => Some(Fixed)
      case _ => None)
    case Grouped => (match e
      case RemediationStarted => Some(InRemediation)
      case BlockByHuman => Some(HumanBlocked)
      case ClosingAbsent => Some(Fixed)
      case _ => None)
    case InRemediation => (match e
      case PrMerged => Some(FindingAwaitingRescan)
      case BlockByHuman => Some(HumanBlocked)
      case ResolveDisagreement => Some(DisagreementResolved)
      case ClosingVex => Some(ApprovedDisposition)
      case ClosingAbsent => Some(Fixed)
      case _ => None)
    case FindingAwaitingRescan => (match e
      case ClosingAbsent => Some(Fixed)
      case ClosingVex => Some(ApprovedDisposition)
      case BlockByHuman => Some(HumanBlocked)
      case _ => None)
    case Fixed => (match e
      case Reappeared => Some(Regression)
      case _ => None)
    case ApprovedDisposition => (match e
      case HumanReopened => Some(Open)
      case _ => None)
    case DisagreementResolved => (match e
      case HumanReopened => Some(Open)
      case _ => None)
    case Regression => (match e
      case JoinGroup => Some(Grouped)
      case ClosingAbsent => Some(Fixed)
      case _ => None)
    case HumanBlocked => (match e
      case HumanReopened => Some(Open)
      case ClosingAbsent => Some(Fixed)
      case ClosingVex => Some(ApprovedDisposition)
      case ResolveDisagreement => Some(DisagreementResolved)
      case _ => None)
  }

  // ---------------------------------------------------------------- event by event

  /** Where an event takes an item, whichever state it is answered in. */
  function Destination(e: WorkItemEvent): WorkItemState {
    match e
    case DispatchApproved => Queued
    case IssueCreated | DispatchFailed | HumanRetry => IssueOpen
    case DispatchStarted => Dispatching
    case SessionCreated | SessionAdopted | RetrySent => SessionActive
    case PrOpened => PrOpen
    case ChecksStarted | NewHeadPushed => ChecksRunning
    case ChecksRed => ChecksFailed
    case ChecksGreen => ReviewPending
    case ReviewCompleted => ReadyForHuman
    case HumanMerged => Merged
    case RescanStarted | HumanResolved => AwaitingRescan
    case RescanVerified => Verified
    case HumanAbandoned | Superseded => Abandoned
    case RetriesExhausted => Failed
    case Blocked | OperatorCancelled | PrClosedUnmerged | ReviewNotObserved | RescanShowsPresent => NeedsHuman
  }

  /** The states in which an event is answered at all. */
  function AnsweredIn(e: WorkItemEvent): set<WorkItemState> {
    match e
    case DispatchApproved | IssueCreated => {Queued}
    case DispatchStarted => {IssueOpen}
    case SessionCreated | SessionAdopted | DispatchFailed => {Dispatching}
    case PrOpened | OperatorCancelled => {SessionActive}
    case ChecksStarted => {PrOpen}
    case ChecksGreen => {ChecksRunning}
    case ChecksRed => {ChecksRunning, ReviewPending, ReadyForHuman}
    case RetrySent => {ChecksFailed}
    case RetriesExhausted => {SessionActive, ChecksFailed}
    case NewHeadPushed => {ReviewPending, ReadyForHuman}
    case ReviewCompleted | ReviewNotObserved => {ReviewPending}
    case HumanMerged => {ReadyForHuman, NeedsHuman}
    case PrClosedUnmerged => {PrOpen, ChecksRunning, ReviewPending, ReadyForHuman}
    case RescanStarted => {Merged, AwaitingRescan}
    case RescanVerified | RescanShowsPresent => {AwaitingRescan}
    case HumanRetry => {NeedsHuman, Failed}
    case HumanResolved => {NeedsHuman}
    case HumanAbandoned => {Queued, IssueOpen, ReadyForHuman, NeedsHuman, Failed}
    case Superseded => {Queued, IssueOpen}
    case Blocked =>
      {IssueOpen, Dispatching, SessionActive, PrOpen, ChecksRunning, ChecksFailed, ReviewPending, ReadyForHuman}
  }

  /** The table read event by event: an event means the same state wherever it is answered. */
  lemma EventMeansOneState(s: WorkItemState, e: WorkItemEvent)
    ensures NextWorkItemState(s, e) == if s in AnsweredIn(e) then Some(Destination(e)) else None
  {
  }

  /** An item leaves for a human from everywhere work can be under way, and occupies a session slot there
      except before its reservation and once a human has it to merge. */
  lemma ActiveIsUnderWay(s: WorkItemState)
    ensures IsActive(s) <==> s in AnsweredIn(Blocked) - {IssueOpen, ReadyForHuman}
  {
  }

  function FindingDestination(e: FindingEvent): FindingState {
    match e
    case Classified | HumanReopened | Reclassified => Open
    case Unclassifiable => Unclassified
    case JoinGroup => Grouped
    case RemediationStarted => InRemediation
    case PrMerged => FindingAwaitingRescan
    case ClosingAbsent => Fixed
    case ClosingVex => ApprovedDisposition
    case ResolveDisagreement => DisagreementResolved
    case Reappeared => Regression
    case BlockByHuman => HumanBlocked
  }

  function FindingAnsweredIn(e: FindingEvent): set<FindingState> {
    match e
    case Classified | Unclassifiable => {Open}
    case Reclassified => {Unclassified}
    case JoinGroup => {Open, Regression}
    case RemediationStarted => {Grouped}
    case PrMerged => {InRemediation}
    case ClosingAbsent =>
      {Open, Unclassified, Grouped, InRemediation, FindingAwaitingRescan, Regression, HumanBlocked}
    case ClosingVex => {InRemediation, FindingAwaitingRescan, HumanBlocked}
    case ResolveDisagreement => {InRemediation, HumanBlocked}
    case Reappeared => {Fixed}
    case BlockByHuman => {Grouped, InRemediation, FindingAwaitingRescan}
    case HumanReopened => {ApprovedDisposition, DisagreementResolved, HumanBlocked}
  }

  /** The finding table read event by event. */
  lemma FindingEventMeansOneState(s: FindingState, e: FindingEvent)
    ensures NextFindingState(s, e) == if s in FindingAnsweredIn(e) then Some(FindingDestination(e)) else None
  {
  }

  /** One row of the append-only event table about a work item. */
  datatype LogEntry =
    | Transition(event: WorkItemEvent, source: WorkItemState, target: WorkItemState)
    | InvalidTransition(event: WorkItemEvent, source: WorkItemState)

  datatype Life = Life(state: WorkItemState, log: seq<LogEntry>)

  const NEW_LIFE := Life(Queued, [])

  /** Moves along the table, or records the refused event and escalates where `Blocked` is allowed. */
  function Fire(life: Life, e: WorkItemEvent): Life {
    match NextWorkItemState(life.state, e)
    case Some(after) => Life(after, life.log + [Transition(e, life.state, after)])
    case None =>
      var refused := life.log + [InvalidTransition(e, life.state)];
      if NextWorkItemState(life.state, Blocked).Some?
      then Life(NeedsHuman, refused + [Transition(Blocked, life.state, NeedsHuman)])
      else Life(life.state, refused)
  }

  /** An event that is answered is logged with where it leads; a refused one is logged as such, and takes the item to a
      human wherever `Blocked` is answered. */
  lemma FireMeans(life: Life, e: WorkItemEvent)
    ensures Fire(life, e) ==
      if life.state in AnsweredIn(e) then
        Life(Destination(e), life.log + [Transition(e, life.state, Destination(e))])
      else if life.state in AnsweredIn(Blocked) then
        Life(NeedsHuman, life.log + [InvalidTransition(e, life.state), Transition(Blocked, life.state, NeedsHuman)])
      else Life(life.state, life.log + [InvalidTransition(e, life.state)])
  {
    hide NextWorkItemState, AnsweredIn, Destination;
    EventMeansOneState(life.state, e);
    EventMeansOneState(life.state, Blocked);
    assert life.log + [InvalidTransition(e, life.state)] + [Transition(Blocked, life.state, NeedsHuman)] ==
      life.log + [InvalidTransition(e, life.state), Transition(Blocked, life.state, NeedsHuman)];
  }

  /** The state half of `Fire`. */
  function Advance(s: WorkItemState, e: WorkItemEvent): (t: WorkItemState)
    ensures forall life: Life :: life.state == s ==> Fire(life, e).state == t
  {
    match NextWorkItemState(s, e)
    case Some(after) => after
    case None => if NextWorkItemState(s, Blocked).Some? then NeedsHuman else s
  }

  function FireAll(life: Life, events: seq<WorkItemEvent>): Life {
    if events == [] then life
    else Fire(FireAll(life, events[..|events| - 1]), events[|events| - 1])
  }

  /** What the table makes of the recorded transitions, starting from `Queued`; the recorded
      source and target states are not consulted. */
  function Replay(log: seq<LogEntry>): Option<WorkItemState> {
    if log == [] then Some(Queued)
    else
      match Replay(log[..|log| - 1])
      case None => None
      case Some(s) =>
        match log[|log| - 1]
        case InvalidTransition(_, _) => Some(s)
        case Transition(e, _, _) => NextWorkItemState(s, e)
  }

  function TransitionCount(log: seq<LogEntry>): nat {
    if log == [] then 0
    else TransitionCount(log[..|log| - 1]) + if log[|log| - 1].Transition? then 1 else 0
  }

  predicate Faithful(life: Life) {
    Replay(life.log) == Some(life.state)
  }

  lemma {:induction false} ReplayAppend(log: seq<LogEntry>, entry: LogEntry)
    ensures Replay(log).Some? ==>
      Replay(log + [entry]) ==
        if entry.Transition? then NextWorkItemState(Replay(log).value, entry.event) else Replay(log)
    ensures TransitionCount(log + [entry]) == TransitionCount(log) + if entry.Transition? then 1 else 0
  {
    assert (log + [entry])[..|log|] == log;
  }

  lemma BlockingEscalates(s: WorkItemState)
    ensures NextWorkItemState(s, Blocked) in {None, Some(NeedsHuman)}
    ensures s in {Verified, Abandoned} ==> forall e :: NextWorkItemState(s, e) == None
  {
  }

  /** One event keeps the log faithful, appends at most one transition, and the terminal states
      answer no event. */
  lemma FireIsFaithful(life: Life, e: WorkItemEvent)
    requires Faithful(life)
    ensures Faithful(Fire(life, e))
    ensures TransitionCount(life.log) <= TransitionCount(Fire(life, e).log) <= TransitionCount(life.log) + 1
    ensures TransitionCount(Fire(life, e).log) == TransitionCount(life.log) ==> Fire(life, e).state == life.state
    ensures life.log <= Fire(life, e).log
    ensures life.state in {Verified, Abandoned} ==> Fire(life, e).state == life.state
  {
    BlockingEscalates(life.state);
    FireRecords(life, e, NextWorkItemState(life.state, e), NextWorkItemState(life.state, Blocked));
  }

  /** The log half of `Fire`, with the two table answers it depends on given. */
  lemma FireRecords(life: Life, e: WorkItemEvent, next: Option<WorkItemState>, block: Option<WorkItemState>)
    requires Faithful(life)
    requires next == NextWorkItemState(life.state, e) && block == NextWorkItemState(life.state, Blocked)
    requires block in {None, Some(NeedsHuman)}
    ensures Faithful(Fire(life, e)) && life.log <= Fire(life, e).log
    ensures TransitionCount(Fire(life, e).log) - TransitionCount(life.log) ==
      if next.Some? || block.Some? then 1 else 0
  {
    if next.Some? {
      ReplayAppend(life.log, Transition(e, life.state, next.value));
    } else {
      var refused := life.log + [InvalidTransition(e, life.state)];
      ReplayAppend(life.log, InvalidTransition(e, life.state));
      ReplayAppend(refused, Transition(Blocked, life.state, NeedsHuman));
    }
  }

  /** For every history of events, valid or not, replaying the logged transitions through the
      table gives the item's current state. */
  lemma {:induction false} EveryHistoryIsFaithful(events: seq<WorkItemEvent>)
    ensures Faithful(FireAll(NEW_LIFE, events))
  {
    if events != [] {
      EveryHistoryIsFaithful(events[..|events| - 1]);
      FireIsFaithful(FireAll(NEW_LIFE, events[..|events| - 1]), events[|events| - 1]);
    }
  }

  /** Nothing that happens after `Verified` or `Abandoned` changes the item. */
  lemma {:induction false} TerminalStatesAreAbsorbing(life: Life, events: seq<WorkItemEvent>)
    requires Faithful(life)
    requires life.state in {Verified, Abandoned}
    ensures FireAll(life, events).state == life.state && Faithful(FireAll(life, events))
  {
    if events != [] {
      TerminalStatesAreAbsorbing(life, events[..|events| - 1]);
      FireIsFaithful(FireAll(life, events[..|events| - 1]), events[|events| - 1]);
    }
  }

  /** The row of a work item that `_wi` writes. */
  class WorkItemRow {
    var state: WorkItemState
    var log: seq<LogEntry>

    function Current(): Life
      reads this
    {
      Life(state, log)
    }

    constructor ()
      ensures Current() == NEW_LIFE
    {
      state, log := Queued, [];
    }

    /** A refused event is logged and, unless the item already waits for a human, escalated by a
        second call with `Blocked`; that call is never refused, so the recursion has depth two. */
    method Apply(e: WorkItemEvent) returns (after: WorkItemState)
      requires Faithful(Current())
      modifies this
      ensures Current() == Fire(old(Current()), e)
      ensures after == state && Faithful(Current())
      ensures state ==
        if old(state) in AnsweredIn(e) then Destination(e)
        else if old(state) in AnsweredIn(Blocked) then NeedsHuman else old(state)
      ensures old(log) <= log
      decreases if e == Blocked then 0 else 1
    {
      FireIsFaithful(Current(), e);
      FireMeans(Current(), e);
      var before := state;
      match NextWorkItemState(before, e)
      case None =>
        log := log + [InvalidTransition(e, before)];
        if before != NeedsHuman && NextWorkItemState(before, Blocked).Some? {
          ReplayAppend(old(log), InvalidTransition(e, before));
          after := Apply(Blocked);
        } else {
          after := before;
        }
      case Some(next) =>
        state := next;
        log := log + [Transition(e, before, next)];
        after := next;
    }
  }
}
