# The hardening loop's evidence-and-dispatch controller

The controller takes security scan runs to findings, findings to work items, work items to Devin sessions, sessions to
pull requests, and human merges to a rescan that closes the findings. It is a small distributed protocol: one SQLite
database with one write lock, a second process that ingests scans, two remote services that may fail before or after a
call took effect, and a process that may die between any two commits. This project models it and proves what it keeps.

| file | what it models |
|---|---|
| `Domain.dfy`, `StateTables.dfy` | the enumerations, the two lifecycle tables, the event log of a work item |
| `Dispatch.dfy` | dispatch, launch, cancel, recovery and polling as steps between which a crash may happen, beside Devin and a concurrent `ingest` |
| `DispatchSafety.dfy`, `DispatchBudget.dfy`, `DispatchLimits.dfy`, `DispatchMeter.dfy`, `DispatchTermination.dfy`, `DispatchRecovery.dfy` | session uniqueness and launch serialization; ACU conservation and capacity; exactly which steps exceed the limits; what Devin's own meter can reach; bounded transitions; what recovery must do |
| `Orchestrator.dfy` | the same methods as code over the tables and Devin, each step of which is a step of `Dispatch` |
| `Evidence.dfy`, `Persist.dfy` | scan evidence; ingestion in any order |
| `Closer.dfy`, `Closing.dfy`, `ClosingEngine.dfy` | the rule for closing evidence, what an evaluation and a merge do, and the loops that do it |
| `EvaluationLaws.dfy` | what one evaluation does to every finding and item, by the run's reports and columns |
| `ClosingSoundness.dfy`, `ClosingWarrants.dfy` | over all histories: what closes and reopens a finding, and what a closed finding and a verified item are worth |
| `Confluence.dfy`, `MultipleScans.dfy`, `ScanRaces.dfy`, `ClosingProgress.dfy`, `ClosingHistories.dfy` | merge and scans commute, and exactly when they do not; what valid evidence must do; histories that reach the exceptions |
| `LaunchAndClosing.dfy` | dispatch and closing over one set of items and runs |
| `PrEvidence.dfy`, `PrProgress.dfy`, `PrHistories.dfy`, `PrTracker.dfy` | checks, review and approval as facts about one head; what a poll and what whole histories must do; the poll that records them |
| `Verification.dfy` | the depth ladder |
| `Lineage.dfy`, `Regression.dfy`, `Normalize.dfy`, `Sorting.dfy`, `Intake.dfy` | regression lineage and keys, normalization, intake draining |

Modelling decisions:

- The operator service serialises ticks, launches and cancels with one process-wide lock (`hardening_loop/operator.py:130-165`),
  so there is one controller position and only `ingest` runs beside it. `BEGIN IMMEDIATE` is the write lock
  (`hardening_loop/db.py:84-86`); a transaction is one step, and a rolled-back one leaves the tables as they were.
- A remote call has at most one effect and may fail before or after it. A session that stopped wakes only when it is
  messaged. Devin honours each session's cap.
- Commit ancestry is the set of comparisons that answered yes, fixed during one evaluation. Times and versions are
  integers, versions counted from the pinned one; ACUs are reals. External ids, texts, titles and severities used only
  for ordering candidates are opaque. The image a finding is expected on is always known, as every scan writes it.
- Only the rescan verifies an item (`hardening_loop/orchestrator/engine.py:2236-2240`), and findings join items that are neither
  verified nor abandoned (`hardening_loop/orchestrator/engine.py:441-455`); histories of findings and items keep to both. Nothing in
  the controller fires `human_reopened`, so no step does.
- `assess`, the dispatch labels and the diff policy decide through unconstrained inputs: every answer is allowed.
- Two history counters go beyond the tables: `debt` and `reentries` count what enters the active states without an admission
  check, which makes the exact limits of budget and capacity statable.
- GitHub keeps a merged pull request merged; only the loss conditions of levels rely on it. The pull request a verifying
  rescan raises is the first recorded of the item, which is the one an unordered query over its rows meets first.
- Where the code and its text disagree the model follows the code. Such places are stated with their exact condition and
  a reachable example:
  an evaluation reopens what it closed, and verifies its item all the same (`Confluence.ClosesAndReopensIff`, `ClosingWarrants.VerifiedOnEvidence`, `ClosingHistories.AnEvaluationReopensWhatItCloses`);
  a level stays that the recorded head never earned, after a push seen together with a close or a rescan that verifies
  the item (`PrEvidence.LevelIsLostIff`, `PrHistories.AClosingPushLosesTheLevel`, `PrHistories.AVerificationRaisesTheClosedOne`);
  a green verdict sits beside a rung in trouble (`Verification.GreenHidesTroubleIff`, `Verification.RequiredChecksCanHideAFailure`);
  the session limit and the budget are exceeded (`DispatchLimits.SessionLimitHoldsIff`, `DispatchLimits.BudgetHoldsIff`,
  `DispatchMeter.AReentryExceedsTheLimits`, `DispatchMeter.ALaunchBesideAStuckDispatchOverspends`);
  an errored review is triggered again more than once (`PrHistories.RetriggerIsRememberedIff`, `PrHistories.AnErroredHeadIsTriggeredTwice`);
  scans and a merge need not commute (`ScanRaces.ScansAndMergeAgreeIff`, `ClosingHistories.TwoScansDoNotCommute`).

`dafny verify dfyconfig.toml` checks the whole project.

## Model

| member | source | states |
|---|---|---|
| StateTables.EveryHistoryIsFaithful | hardening_loop/orchestrator/engine.py:244-290 | for every sequence of events, valid or refused, replaying the logged transitions through the table from `queued` gives the item's current state |
| StateTables.TerminalStatesAreAbsorbing | hardening_loop/orchestrator/state.py:54-103 | nothing that happens after `verified` or `abandoned` changes the state, and the log stays faithful |
| StateTables.FireIsFaithful | hardening_loop/orchestrator/engine.py:244-290 | one event extends the log, appends at most one transition, changes the state only with one, and leaves terminal items alone |
| StateTables.FireMeans | hardening_loop/orchestrator/engine.py:244-290 | an answered event is logged with where it leads, a refused one as refused; a refused one takes the item to a human wherever `blocked` is answered and leaves it alone elsewhere |
| StateTables.BlockingEscalates | hardening_loop/orchestrator/state.py:54-103 | `blocked` only ever leads to `needs_human`, and the terminal states answer no event; this bounds the escalation |
| StateTables.EventMeansOneState | hardening_loop/orchestrator/state.py:54-103 | every event leads to one state only, whatever state answers it, and which states answer it: an operator's stop parks a working session with a human, supersession and a human's abandonment end in `abandoned`, only a green or reviewed head claims so, only the rescan verifies |
| StateTables.FindingEventMeansOneState | hardening_loop/orchestrator/state.py:136-165 | the same for findings, including which states answer each of the three closing events |
| StateTables.ActiveIsUnderWay | hardening_loop/domain/enums.py:175-184 | the states that take a session slot are exactly those that answer `blocked` and have left `issue_open` but not reached the human |
| StateTables.WorkItemRow.Apply | hardening_loop/orchestrator/engine.py:244-290 | writing an event to the row, with the recursive escalation of a refused one, keeps the log faithful and does exactly what the abstract event does |
| DispatchSafety.SessionsAreNeverDuplicated | hardening_loop/orchestrator/engine.py:1072-1192 | in every reachable state an item has at most one session Devin can still work on and at most one nobody recorded, a bound item has no other of either kind, every row names the item its session is tagged with, and retries stay within their limit |
| DispatchSafety.CreationFindsNoSession | hardening_loop/orchestrator/engine.py:1082-1108 | whenever `create_session` is called, every session tagged with the item is recorded and can no longer work |
| DispatchSafety.LaunchIsSerialized | hardening_loop/orchestrator/engine.py:907-990 | when a launch commits its reservation no scan run is owed its evaluation, none was committed since the launch read its eligibility, and the room it read is still there |
| DispatchSafety.IngestWaitsForTheLaunch | hardening_loop/db.py:84-86 | between a launch's first read and its end the concurrent process can neither begin nor commit a run |
| DispatchRecovery.OrphanIsAdopted | hardening_loop/orchestrator/engine.py:575-612 | wherever the process died, an item left in `dispatching` beside a live session is bound to exactly that session, on record with its cap; nothing is created and no other item moves |
| DispatchRecovery.StrandedItemIsReleased | hardening_loop/orchestrator/engine.py:575-612 | without such a session it is released one failure nearer to the limit, or handed to a human at the limit |
| DispatchRecovery.AdmissionStartsAfresh | hardening_loop/orchestrator/engine.py:938-946 | a reserved item enters dispatch unbound with an issue, its cap and failures kept; a relaunched one has all retries back |
| DispatchRecovery.FailureMeans | hardening_loop/orchestrator/engine.py:1152-1158 | a dispatch failure is counted and changes nothing else; it releases the item until the limit is reached and then hands it to a human |
| DispatchRecovery.RedDecides | hardening_loop/orchestrator/engine.py:1695-1735 | a red head costs one retry and wakes the same session, or fails the item when retries or session are gone; a raised message call leaves the item as it was |
| DispatchRecovery.PollDecides | hardening_loop/orchestrator/engine.py:1286-1376 | a polled snapshot counts only while the item is bound to that session; the meter is written unless a message call raised, and only an escalation, a lost row or a pull request moves the item |
| DispatchSafety.NextKeeps | hardening_loop/orchestrator/engine.py:515-1192 | every step, whatever the answers of Devin and wherever the crash, keeps the invariant behind these theorems |
| DispatchSafety.LookupKeeps | hardening_loop/orchestrator/engine.py:1128-1150 | the tag lookup establishes what the next step needs: the one session to adopt is the only live one, or the item has none |
| DispatchSafety.RunKeeps | hardening_loop/orchestrator/engine.py:163-215 | the invariant holds after every run of steps |
| Dispatch.Choice | hardening_loop/orchestrator/engine.py:1144-1147 | the adopted session is adoptable and beats every other: active before inactive, then youngest; none only if nothing is adoptable |
| DispatchBudget.BudgetHolds | hardening_loop/orchestrator/engine.py:554-567 | over every run with no re-entry from `ready_for_human` and no launch beside a stuck dispatch, consumed, outstanding and reserved ACUs stay within the global budget and the active items within the session limit |
| DispatchBudget.RunIsBounded | hardening_loop/orchestrator/engine.py:2410-2438 | over every run at all, the same figures stay within the budget plus the booked debt, and the active items within the limit plus the number of re-entries |
| DispatchBudget.AdmissionIsBounded | hardening_loop/orchestrator/engine.py:541-567 | an admission leaves the active items within the limit; one by a tick also leaves the ACUs, its own reservation included, within the budget |
| DispatchBudget.OnlyAdmissionRaises | hardening_loop/orchestrator/engine.py:2410-2438 | no other step, recovery after a crash included, raises committed ACUs, reservations or active items beyond what it books |
| DispatchBudget.MeterConserves | hardening_loop/orchestrator/engine.py:2417-2438 | polling or stopping a reserved session moves ACUs from outstanding to consumed and leaves their sum as it was |
| DispatchBudget.PutCommitted | hardening_loop/orchestrator/engine.py:2417-2438 | moving an item changes the committed ACUs by exactly what it holds afterwards less what it held |
| DispatchBudget.NothingBooked | hardening_loop/orchestrator/state.py:87-92 | debt and re-entries only come from a launch beside a stuck dispatch, or from an item returning from `ready_for_human` by a push or a retried red head |
| DispatchLimits.StepExceedsSessionsIff | hardening_loop/orchestrator/engine.py:2410-2415 | a step from within the session limit leaves it exactly when an item comes back from `ready_for_human`, by a push or a retried red head, while every slot is taken |
| DispatchLimits.StepExceedsBudgetIff | hardening_loop/orchestrator/engine.py:2417-2438 | a step from within the budget leaves it exactly when a launch adds its cap to reservations that leave no room for it, or an item comes back whose session may still spend more than is left |
| DispatchLimits.SessionLimitHoldsIff | hardening_loop/orchestrator/engine.py:541-567 | a run keeps the session limit in every state exactly when no step of it overfills a full house |
| DispatchLimits.BudgetHoldsIff | hardening_loop/orchestrator/engine.py:541-567 | a run keeps the budget in every state exactly when no step of it overspends |
| DispatchMeter.DevinsMeterIsBounded | hardening_loop/orchestrator/engine.py:2417-2438 | over every history, everything Devin metered stays within what is committed and reserved plus what sessions no active item answers for spent or may spend, and so within the budget plus the booked debt plus that |
| DispatchMeter.SettledMeterIsWithinBudget | hardening_loop/orchestrator/engine.py:2417-2438 | while every session answers to an active item, belongs to one being dispatched, or stopped with its last reading on record, Devin's own meter is within the budget plus the booked debt |
| DispatchMeter.AReentryExceedsTheLimits | hardening_loop/orchestrator/state.py:87-92 | a reachable state in which an item back from `ready_for_human` makes two items active where one may be and commits twice the budget |
| DispatchMeter.ALaunchBesideAStuckDispatchOverspends | hardening_loop/orchestrator/launch.py:118-123 | a reachable state in which a launch commits while another item is stuck in `dispatching` and twice the budget is reserved |
| DispatchTermination.BoundedlyManyTransitions | hardening_loop/orchestrator/engine.py:1152-1158 | from any reachable state, a run of any length without outside input to an item adds at most a bounded number of transitions to its log |
| DispatchTermination.StepPays | hardening_loop/orchestrator/engine.py:1695-1735 | every step that is not outside input pays for the transitions it makes with remaining failures, remaining retries or state rank |
| DispatchTermination.FailurePays | hardening_loop/orchestrator/engine.py:1152-1158 | a dispatch failure is paid for by the failures left, and the last one blocks the item |
| DispatchTermination.RetryPays | hardening_loop/orchestrator/engine.py:1695-1735 | a same-session retry is paid for by the retries left |
| DispatchTermination.TerminalItemsStay | hardening_loop/orchestrator/engine.py:244-290 | over every run of the dispatch protocol, whatever else happens in it, a `verified` or `abandoned` item keeps its state and its session |
| DispatchSafety.HistoryIsARun | hardening_loop/orchestrator/engine.py:163-215 | what the controller object and Devin went through is a run of the protocol, so every theorem about runs holds of the running code |
| Orchestrator.Controller.LookUp | hardening_loop/orchestrator/engine.py:1134-1146 | asks for the tagged sessions with the lock released and picks the youngest that still works, else the youngest never recorded, else none, or reports the failed call |
| Orchestrator.Controller.AdoptTaggedSession | hardening_loop/orchestrator/engine.py:1128-1150 | binds the item to the chosen session, or takes the failure path, or finds nothing; rows already there are kept |
| Orchestrator.Controller.CreateAndRecord | hardening_loop/orchestrator/engine.py:1086-1109 | creates, then records a session that had no row with the item's cap, or takes the failure path, or dies leaving the tables alone |
| Orchestrator.Controller.RecordSession | hardening_loop/orchestrator/engine.py:1160-1192 | the item ends bound to that session in `session_active`, otherwise as it was; a session seen before keeps its row |
| Orchestrator.Controller.ReleaseAfterFailure | hardening_loop/orchestrator/engine.py:1152-1158 | one failure more, and back to `issue_open` while that is below the limit, to `needs_human` from then on |
| Orchestrator.Controller.CommitReservation | hardening_loop/orchestrator/engine.py:1072-1079 | `dispatching` is committed with the lock released before any Devin call |
| Orchestrator.Controller.DispatchOne | hardening_loop/orchestrator/engine.py:1072-1126 | one dispatch ends bound to a session, released, or in `dispatching` after a crash, and touches no other item or row |
| Orchestrator.Controller.RecoverOne | hardening_loop/orchestrator/engine.py:598-610 | a stranded item is bound, released or, after another crash, unchanged; the number of active items never rises |
| Orchestrator.Controller.RecoverDispatching | hardening_loop/orchestrator/engine.py:575-612 | unless the process dies, no item is left in `dispatching`; exactly the stranded items that end in `session_active` are listed, once and in order; the others are untouched and the active items do not increase |
| Orchestrator.Controller.DispatchCandidate | hardening_loop/orchestrator/engine.py:544-573 | a candidate is admitted exactly when it is open with an issue, fewer items than the limit are active, and what is committed leaves room for its cap, all read under the lock |
| Orchestrator.Controller.TakeTurn | hardening_loop/orchestrator/engine.py:544-573 | one candidate's turn: passed over or admitted on what was read under the lock, and left bound, released or in `dispatching` accordingly |
| Orchestrator.Controller.DispatchTargets | hardening_loop/orchestrator/engine.py:515-573 | a tick recovers what was stranded and, unless the process dies, gives every candidate its try in order: admitted exactly when approved, ready and within limit and budget as read then; the created count and adopted ids are exactly those of the tries and of recovery; it ends within the session limit or no higher than before and touches only stranded items and candidates |
| Orchestrator.Controller.AcuBudgetPosition | hardening_loop/orchestrator/engine.py:2417-2438 | the loop over session rows computes what all recorded sessions consumed and, apart from it, what those bound to active items may still consume; together they are the committed ACUs of the protocol |
| Orchestrator.Controller.ReservedIds | hardening_loop/orchestrator/engine.py:2421-2429 | the sessions of active items, each found |
| Orchestrator.Controller.ActiveSessions | hardening_loop/orchestrator/engine.py:2410-2415 | counts the items in active states |
| Orchestrator.Controller.BeginLaunch | hardening_loop/orchestrator/launch.py:80-123 | an item is eligible exactly when it is queued, open, failed or with a human, no scan run is pending, fewer items than the limit are active and what is committed leaves room for its cap |
| Orchestrator.Controller.Launch | hardening_loop/orchestrator/engine.py:907-1016 | a launch writes its item only; one is rejected only for its state, a pending run, the limit or the budget and then changes nothing; a launched one had room when it began and ends within the limit |
| Orchestrator.Controller.LaunchEligible | hardening_loop/orchestrator/engine.py:938-1016 | an eligible launch either loses what it prepared to a failed GitHub call or reserves and dispatches exactly that item within the limit |
| Orchestrator.Controller.Cancel | hardening_loop/orchestrator/engine.py:788-905 | Devin is asked to stop exactly for a working item without a pull request; once stopped that item is in `needs_human` and one slot is free, otherwise the tables are as before |
| Orchestrator.Controller.RecordStop | hardening_loop/orchestrator/engine.py:849-889 | writes the final meter reading and takes the item to `needs_human`, which frees its slot |
| Orchestrator.BestAdoptable | hardening_loop/orchestrator/engine.py:1144-1147 | the loop returns the greatest adoptable entry of the listing |
| Orchestrator.ListingDecides | hardening_loop/orchestrator/engine.py:1134-1147 | the best entry of a complete listing is the protocol's choice |
| LaunchAndClosing.LaunchMeetsNoOwedEvidence | hardening_loop/orchestrator/launch.py:80-123 | over every joint history of dispatch and closing, when a launch reserves, every ingested run carries its marker and was evaluated by an earlier move of that history |
| LaunchAndClosing.PendingRunBlocksTheLaunch | hardening_loop/orchestrator/launch.py:100-123 | while any ingested run is owed its evaluation, no launch can begin and none already begun can reserve |
| LaunchAndClosing.LaunchedItemOutlivedEveryScan | hardening_loop/orchestrator/launch.py:100-123 | every ingested run was evaluated before a launch reserves its item, and that evaluation did not leave the item retired |
| LaunchAndClosing.RetiredItemIsNeverLaunched | hardening_loop/orchestrator/engine.py:2339-2406 | an item an evaluation retired stays so, and no later launch of it begins or reserves |
| LaunchAndClosing.ReservedItemIsOutOfReach | hardening_loop/orchestrator/engine.py:2339-2406 | no evaluation of any ingested run touches an item in `dispatching` |
| LaunchAndClosing.EveryEvaluationHasItsMove | hardening_loop/orchestrator/engine.py:2044-2072 | the joint histories leave no evaluation out: whenever a tick may act, each pending run has a move that evaluates it |
| Persist.OrderDoesNotMatter | hardening_loop/ingest/persist.py:391-469 | two backlogs of the same runs with distinct known finish times, in any order, give the same findings, first and last sightings, descriptions and open or unclassified states |
| Persist.IngestIsChronological | hardening_loop/ingest/persist.py:391-469 | whatever states the controller gave the findings, ingestion keeps first sighting earliest, last sighting latest and the description that of the latest |
| Persist.RunsDecide | hardening_loop/ingest/persist.py:399-412 | a chronology is decided by the runs alone |
| Persist.FindingStore.UpsertFinding | hardening_loop/ingest/persist.py:391-458 | an unknown finding is opened with the run's raw reporters and oldest database; a known one keeps both, its item and its closing run, takes description, last sighting and state from the run unless that finished before the last sighting, and its first sighting only from an earlier run |
| Persist.FindingRow.Refresh | hardening_loop/ingest/persist.py:432-458 | overwrites what the latest scan says and leaves the state of closed findings alone |
| Persist.CheckBundle | hardening_loop/ingest/persist.py:134-159 | a bundle is refused exactly when it lacks one raw job of the run's platform, has several policy jobs or one of another subject, or a policy or foreign-platform job of a secondary target; the error names a rule it breaks |
| Persist.FindingStore.WriteFindings | hardening_loop/ingest/persist.py:236-294 | each finding is upserted once on what was there before, the others are left alone, and the counters and opening events are those of the findings written |
| Persist.FindingStore.IngestRun | hardening_loop/ingest/persist.py:118-309 | a run already present, or a bundle that breaks a rule, writes nothing; any other is ingested whole, each new finding gets its event in order, and the counters are the findings of the run, those not known before, those of each kind and those the policy suppresses |
| Closer.ValidateClosingRun | hardening_loop/orchestrator/closer.py:101-160 | lists every standing reason once, and none exactly when the run is a valid closing run |
| Closer.ValidMeansNoReason | hardening_loop/orchestrator/closer.py:101-160 | the rule for closing evidence and the absence of every listed reason are the same |
| Closer.ClosingRunMeans | hardening_loop/orchestrator/closer.py:101-160 | the rule for closing evidence on the run's own columns: repository, branch, closing trigger, completeness, ancestry, platform, no failed job, and for every opener and mode a last-listed job that ran on the image with a pinned-or-newer scanner and a database no older than the opening one |
| Closer.OutcomeMeans | hardening_loop/orchestrator/closer.py:214-254 | of the six outcomes exactly one fits any run, finding, validity, disagreement and issue |
| Closer.JobReasons | hardening_loop/orchestrator/closer.py:81-98 | what is wrong with one job that ran: image, scanner version, database time |
| Closer.ImageReasons | hardening_loop/orchestrator/closer.py:140-153 | what is wrong over all original detectors' raw and, when needed, policy jobs |
| Closer.SightingsFor | hardening_loop/orchestrator/closer.py:176-193 | folding a run's rows over every version of the family gives, per scanner, whether it spoke and whether it still reports it, raw and policy |
| Closer.DecideOutcome | hardening_loop/orchestrator/closer.py:214-254 | the outcome read off the folded rows is the one answer that fits: `fixed` when no watching scanner reports the family, `approved_disposition` exactly when an opener reports it raw, none in policy, and an approval in the run names the item's issue and the vulnerability, a resolved disagreement exactly when one opener is left and a human accepted it |
| Closer.WriteSightings | hardening_loop/ingest/persist.py:245-278 | a raw row per raw reporter and a policy row beside it, so a policy sighting is present only if the raw one is |
| Closer.PresentFamilies | hardening_loop/orchestrator/engine.py:2118-2128 | exactly the families some scanner still reports |
| Closer.PresenceTestsAgree | hardening_loop/orchestrator/engine.py:2118-2128 | the presence test of drift and regression agrees with the fold of closure whenever only scanners closure listens to report the family |
| ClosingWarrants.VerifiedOnEvidence | hardening_loop/orchestrator/engine.py:2150-2260 | at every step of every history that makes an item verified, one run evaluated by then is valid evidence for each of its members, of which there is one at least, and every member ends closed under it; the exception is a member that very run reports again, which is a regression without an item |
| ClosingWarrants.VerifiedItemsAreClosed | hardening_loop/orchestrator/closer.py:266-268 | in every reachable state every finding under a verified item is fixed, an approved disposition or a resolved disagreement |
| ClosingWarrants.OpeningsAreKept | hardening_loop/ingest/persist.py:414-431 | in every reachable state a finding's openers and opening database time are the raw reporters and the oldest database of the first ingested run that reported it |
| ClosingWarrants.EveryFixedIsBacked | hardening_loop/orchestrator/engine.py:2150-2200 | in every reachable state a `fixed` finding names a complete, closing-triggered run of the fork's main without a failed job, in which every scanner that reported it in the run that brought it in ran pinned-or-newer on a database no older than that run's, and none of them reports any version of the family |
| ClosingWarrants.ApprovedByTheIssuesApproval | hardening_loop/orchestrator/closer.py:240-247 | at every step of every history that makes a finding an approved disposition, its item has an issue and the closing run is valid, has a policy scan, applied an approval naming that issue and the vulnerability, and shows the family raw but not in policy |
| ClosingWarrants.DisagreementResolvedByAHuman | hardening_loop/orchestrator/closer.py:249-252 | at every step of every history that resolves a disagreement, a human had accepted it for the item and exactly one of the finding's openers reports the family in the valid closing run |
| ClosingSoundness.FixedOnTheLatestWord | hardening_loop/orchestrator/engine.py:2098-2116 | when a finding becomes fixed its closing run is valid for it, image and platform included, and no ingested run that reports it finished later |
| ClosingSoundness.OnlyFreshEvidenceReopens | hardening_loop/orchestrator/engine.py:2284-2337 | a fixed finding is only reopened, as a regression, by a run that finished no earlier than its closing run and every run that reports it |
| ClosingSoundness.EvaluatedExactlyOnce | hardening_loop/orchestrator/engine.py:2044-2072 | every run's closing effects are committed at most once, exactly for the runs that carry the applied marker |
| ClosingSoundness.EvaluationIsFair | hardening_loop/orchestrator/engine.py:2044-2072 | a whole evaluation closes findings only on valid current evidence that warrants the outcome, keeps owners, issues and resolutions, and touches fixed ones only to reopen them on evidence not superseded |
| ClosingSoundness.MergeSeenIsFair | hardening_loop/orchestrator/engine.py:1533-1551 | observing a merge, with its replay of earlier runs, closes findings only on valid current evidence that warrants the outcome, and leaves fixed ones alone |
| ClosingSoundness.HistoryKeeps | hardening_loop/orchestrator/engine.py:2027-2406 | the invariant holds in every state of every history of ingestion, evaluation, merges, grouping and item changes |
| EvaluationLaws.ClosingDecides | hardening_loop/orchestrator/engine.py:2225-2282 | closing a waiting item verifies it exactly when it has members, the run is valid for all and all end closed; hands it to a human exactly when the run is valid for all and still shows one; and leaves it waiting otherwise |
| EvaluationLaws.MemberEnds | hardening_loop/orchestrator/engine.py:2176-2282 | where the closing of its item leaves a member, in every case, by what the run's reports say of it and its state |
| EvaluationLaws.ClosedEvaluated | hardening_loop/orchestrator/engine.py:2284-2337 | a closed finding comes out of an evaluation as it was, except a fixed one whose family valid, current evidence descending from the closing commit reports again: a regression without an item |
| EvaluationLaws.OpenEvaluated | hardening_loop/orchestrator/engine.py:2339-2395 | a finding no merged item waits on is closed by an evaluation exactly when it is ungrouped or undispatched, the run is not its last sighting, no scanner reports its family and the run is valid evidence |
| EvaluationLaws.WaitingItemEvaluated | hardening_loop/orchestrator/engine.py:2044-2072 | a waiting item comes out of a whole evaluation as its own closing decides |
| EvaluationLaws.UndispatchedItemEvaluated | hardening_loop/orchestrator/engine.py:2396-2406 | an undispatched item is abandoned exactly when a grouped member is gone from the reports and every finding left under it ends closed |
| EvaluationLaws.OtherItemEvaluated | hardening_loop/orchestrator/engine.py:2044-2072 | no evaluation touches any other item |
| Confluence.MergeAndScanCommute | hardening_loop/orchestrator/engine.py:2074-2096 | one scan that finished at or after the merge, evaluated before or after the merge is observed, leaves the item and its members the same, owners included |
| Confluence.ClosesAndReopensIff | hardening_loop/orchestrator/engine.py:2284-2337 | an evaluation that closes a member as fixed reopens it in the same transaction, and unhomes it, exactly when a scanner closure does not listen to reports the family in that run |
| Confluence.FixesIffCloses | hardening_loop/orchestrator/engine.py:2150-2232 | the closing loop fixes exactly the members it may close for which the run is valid and silent |
| ClosingHistories.AnEvaluationReopensWhatItCloses | hardening_loop/orchestrator/engine.py:2284-2337 | a reachable state whose evaluation does both, and verifies the item whose only finding it was: Trivy opened the finding and is silent, Grype reports it |
| MultipleScans.ScansAndMergeCommuteIff | hardening_loop/orchestrator/engine.py:2074-2096 | scans and one merge, noticed in either order, leave the item the same; a member ends otherwise exactly when the decisive run fixes it and that run or a later one validly shows its family again (the runs before it valid for no member) |
| ScanRaces.ScansAndMergeAgreeIff | hardening_loop/orchestrator/engine.py:2074-2096 | any number of scans, valid for all, some or none of the members, and one merge: both orders leave the item, its members and their owners the same exactly when no replayed scan fixes a member whose family it or a later scan shows again |
| ScanRaces.FixedUntilReopened | hardening_loop/orchestrator/engine.py:2284-2337 | evaluations leave a fixed finding fixed under its item until one reopens it, whatever becomes of the item and the other findings |
| ClosingHistories.TwoScansDoNotCommute | hardening_loop/orchestrator/engine.py:2074-2096 | a reachable state in which the two orders differ: a clean scan, then one that shows another version of the package |
| Confluence.MemberConverges | hardening_loop/orchestrator/engine.py:2150-2282 | drift before the merge and closure after it settle a member alike |
| Confluence.EvaluateAt | hardening_loop/orchestrator/engine.py:2044-2072 | what a whole evaluation does to one item and its members does not depend on the other items |
| Confluence.VerdictsAgree | hardening_loop/orchestrator/engine.py:2150-2282 | worlds that weigh an item's members alike give it the same verdict |
| ClosingProgress.CleanScanVerifies | hardening_loop/orchestrator/engine.py:2150-2282 | a valid scan that shows no member of a merged item verifies it; every member ends fixed by that run and stays with the item, whatever else the evaluation does |
| ClosingProgress.PresentMemberGoesToAHuman | hardening_loop/orchestrator/engine.py:2262-2282 | a valid scan that still shows a member, unresolved by anything accepted, takes the item and that member to a human |
| ClosingProgress.InvalidScanDecidesNothing | hardening_loop/orchestrator/engine.py:2225-2235 | a scan not valid for some member leaves the item waiting |
| ClosingEngine.Engine.AddRun | hardening_loop/ingest/persist.py:226-275 | a bundle that is new and complete is ingested by the loop over its findings and its stored rows are exactly those intake writes, which is what every later evaluation reads; any other changes nothing |
| ClosingEngine.Engine.LaterRunSaw | hardening_loop/orchestrator/engine.py:2098-2116 | returns the latest of the runs that last saw or closed the finding and finished later than this one, if any; unknown times never count |
| ClosingEngine.Engine.WeighMember | hardening_loop/orchestrator/engine.py:2176-2232 | decides one member from its rows and moves it by the outcome |
| ClosingEngine.Engine.CloseWorkItem | hardening_loop/orchestrator/engine.py:2150-2282 | the two loops over members leave exactly the item and findings the rule gives, which `EvaluationLaws.ClosingDecides` and `MemberEnds` spell out |
| ClosingEngine.Engine.SettleItem | hardening_loop/orchestrator/engine.py:2233-2282 | the item's own transitions for each verdict, and the second loop that hands present members to a human |
| ClosingEngine.Engine.ReopenRegressions | hardening_loop/orchestrator/engine.py:2284-2337 | reopens exactly the closed findings whose family is present on valid, current evidence, and unhomes them |
| ClosingEngine.Engine.CloseDrifted | hardening_loop/orchestrator/engine.py:2339-2395 | closes exactly the ungrouped or undispatched findings that valid evidence no longer shows |
| ClosingEngine.Engine.ApplyDrift | hardening_loop/orchestrator/engine.py:2339-2406 | retires exactly the undispatched items whose members are all gone |
| ClosingEngine.Engine.EvaluateRun | hardening_loop/orchestrator/engine.py:2044-2072 | merged items, then regressions, then drift |
| ClosingEngine.Engine.ApplyScanRun | hardening_loop/orchestrator/engine.py:2044-2072 | commits the effects and the marker together or, when an outside call fails, nothing |
| ClosingEngine.Engine.PendingScanRuns | hardening_loop/orchestrator/engine.py:2027-2036 | every run not yet applied, oldest scan first |
| ClosingEngine.Engine.ApplyPendingScanRuns | hardening_loop/orchestrator/engine.py:2038-2042 | the runs applied in one pass are a prefix of the pending ones in scan order, each evaluated once on what the one before it committed |
| ClosingEngine.Engine.CloseFromAppliedRuns | hardening_loop/orchestrator/engine.py:2074-2096 | replays the runs that finished at or after the merge, oldest first, until one settles the item |
| ClosingEngine.Engine.ObserveMerge | hardening_loop/orchestrator/engine.py:1533-1551 | a merge is always recorded as the human's with its commit and time, its members wait for a rescan, and earlier evaluations are replayed until one settles the item |
| PrEvidence.EvidenceIsAboutTheHead | hardening_loop/orchestrator/engine.py:1502-1600 | across pushes, retries and second pull requests: in review means green was seen on the recorded head; ready for a human, that a completed review names exactly it; a recorded approver approved exactly it, no earlier than that review |
| PrEvidence.ReviewedHeadWasGreen | hardening_loop/orchestrator/engine.py:1560-1600 | in every reachable state, an item in review or ready was polled at exactly the recorded head when every required check was listed and all that count had succeeded |
| PrEvidence.ApproverApprovedTheHead | hardening_loop/orchestrator/engine.py:1834-1845 | in every reachable state, a recorded approver is the trusted author of an approval of exactly the recorded head, read no earlier than a completed review naming that head |
| PrEvidence.VerdictMeans | hardening_loop/orchestrator/engine.py:1682-1693 | green exactly when every required check is listed, one at least counts, and all that count completed with success; red exactly when every required one is listed and one that counts completed otherwise |
| PrEvidence.LevelIsEarned | hardening_loop/orchestrator/engine.py:1847-1884 | over every history, a row keeps a level earned by its recorded head through pushes, closes, reopenings, merges, retries, second pull requests and the verifying rescan, unless a closing poll gave it a head that had not earned it or the rescan raised it without its merge |
| PrEvidence.ClosingPushKeepsTheLevel | hardening_loop/orchestrator/engine.py:1515-1530 | a push first seen together with the close replaces the head and keeps the level, which the new head has earned only if what earlier polls read of it reaches it |
| PrEvidence.PollLosesTheLevelIff | hardening_loop/orchestrator/engine.py:1515-1530 | a poll of a pull request with an earned level leaves it unearned exactly when it brings another head together with the close, the level is above the first and below the merge, and what was read of that head before does not reach it |
| PrEvidence.LevelIsLostIff | hardening_loop/orchestrator/engine.py:1847-1884 | at every step of every history in which merged pull requests stay merged, an earned level is lost exactly when the step is one of these two |
| PrEvidence.VerificationEarnsIff | hardening_loop/orchestrator/engine.py:2233-2246 | the rescan that verifies an item leaves its first recorded pull request with an earned level exactly when that one is recorded as merged |
| PrEvidence.OpenRowsStayBelowMerge | hardening_loop/orchestrator/engine.py:1515-1551 | a pull request never seen closed or merged has at most the four levels below the merge, unless it is the first recorded one of a verified item, which has the last; and only then did it lose |
| PrHistories.AClosingPushLosesTheLevel | hardening_loop/orchestrator/engine.py:1515-1530 | a history from the empty start that ends with a level its recorded head never earned |
| PrHistories.AVerificationRaisesTheClosedOne | hardening_loop/orchestrator/engine.py:2239-2244 | a history in which the first pull request is closed, a second one merged, and the verifying rescan gives the last level to the closed one while the merged one stays below it |
| PrHistories.AVerificationRaisesAnOpenOne | hardening_loop/orchestrator/engine.py:2239-2244 | a history in which an accepted disposition is verified and the pull request, still open, takes the last level |
| PrEvidence.PollIsOk | hardening_loop/orchestrator/engine.py:1502-1588 | one poll, committed or rolled back, keeps what the item and the row claim about the head |
| PrEvidence.ReviewIsOk | hardening_loop/orchestrator/engine.py:1737-1807 | no answer of the review service makes an item ready except a completed review of the polled head |
| PrEvidence.ApprovalIsOk | hardening_loop/orchestrator/engine.py:1834-1845 | an approver is recorded only for an approval of the head |
| PrEvidence.FirstApproval | hardening_loop/orchestrator/engine.py:1837-1845 | the first trusted approval of the head, none only if there is none |
| PrEvidence.HistoryKeeps | hardening_loop/orchestrator/engine.py:1402-1430 | the evidence invariant holds after every history of deliveries, polls and other events |
| PrHistories.ReadyAfterAnyPushes | hardening_loop/orchestrator/engine.py:1502-1600 | from every reachable state on the way, after any number of pushes and unfinished checks, the first poll of a green head whose review, if asked for, is completed makes the item ready with evidence of exactly that head |
| PrHistories.RetriesRunOut | hardening_loop/orchestrator/engine.py:1695-1735 | a session whose every delivery is red gets exactly its remaining retries, across pushes, and the next red head fails the item |
| PrHistories.NothingSurvivesAPush | hardening_loop/orchestrator/engine.py:1590-1600 | once any of a series of polls with unfinished checks has seen another head, the item is at its checks and its pull request at the first level, without review or approver; otherwise the head is the old one |
| PrHistories.HumansItemIsOnlyFollowed | hardening_loop/orchestrator/engine.py:1558-1559 | while a human owns the item no series of polls moves it, unless one sees the merge or the close |
| PrHistories.MergeAndCloseEndTheWork | hardening_loop/orchestrator/engine.py:1535-1557 | from every reachable state a poll that sees the merge puts it on record as earned and is the last one enabled; one that sees the close leaves the item to a human |
| PrHistories.RetriggerIsRememberedIff | hardening_loop/orchestrator/engine.py:1756-1790 | a re-trigger of an errored review is remembered for the polled head exactly when its answer names that head and the poll is not rolled back |
| PrHistories.RememberedHeadIsNotTriggeredAgain | hardening_loop/orchestrator/engine.py:1809-1823 | once remembered, no later poll of that head in the history triggers its review again; the next error hands the item to a human |
| PrHistories.AnErroredHeadIsTriggeredTwice | hardening_loop/orchestrator/engine.py:1756-1790 | a history in which two polls trigger the review of the same errored head again, because the answers name another commit |
| PrTracker.ReadVerdict | hardening_loop/orchestrator/engine.py:1682-1693 | one loop over the checks: green exactly when every required check is listed, one at least counts and all that count succeeded, red exactly when all required are listed and one that counts completed otherwise |
| PrTracker.Tracker.Poll | hardening_loop/orchestrator/engine.py:1485-1494 | a poll is applied whole or, when an outside call fails, not at all; a merge, a close, a red, unfinished or green head each takes the item where the verdict, the retries, the review answer and the timeout say |
| PrTracker.Tracker.NoticeHead | hardening_loop/orchestrator/engine.py:1515-1532 | a push drops the review and approval of the old head and, unless merged or closed, takes the levels back |
| PrTracker.Tracker.ReverifyNewHead | hardening_loop/orchestrator/engine.py:1590-1600 | afterwards the row claims at most that the pull request is open and the item claims nothing about checks or review: it is in neither state, and moved only from one of them, only to its checks |
| PrTracker.Tracker.RetryOrFail | hardening_loop/orchestrator/engine.py:1695-1735 | a red head is retried while retries last, never beyond the limit, and fails otherwise |
| PrTracker.Tracker.CheckReview | hardening_loop/orchestrator/engine.py:1737-1807 | a cancelled review or a second error on the head goes to a human; else a completed review of exactly the head makes the item ready, and without one an overdue item goes to a human and any other waits |
| PrTracker.Tracker.ReviewTimeout | hardening_loop/orchestrator/engine.py:1822-1832 | an item in review whose review is overdue goes to a human, any other stays in review |
| PrTracker.Tracker.CheckApproval | hardening_loop/orchestrator/engine.py:1834-1845 | records the first approval of the head and nothing else |
| PrTracker.Tracker.Merge | hardening_loop/orchestrator/engine.py:1535-1551 | a merge before verification is escalated first and then taken as the human's |
| PrTracker.Tracker.WeighChecks | hardening_loop/orchestrator/engine.py:1560-1588 | red retries or fails, unfinished waits, green goes through the review; which outside call must answer for each |
| Verification.RungPassedIff | hardening_loop/verification.py:114-150 | a rung is passed exactly when it has components and each has matching runs that all completed successfully |
| Verification.StatusMeans | hardening_loop/verification.py:114-140 | a component's status is the one of five that fits the runs named for its check: unfinished, failed, all skipped or none, some skipped, all succeeded |
| Verification.RungMeans | hardening_loop/verification.py:142-151 | a rung's status is the one of five that fits its components' |
| Verification.EntryIff | hardening_loop/verification.py:154-176 | every component of every rung has its entry and nothing else has one |
| Verification.OrderDoesNotMatter | hardening_loop/verification.py:109-176 | neither the order of check runs nor repetitions change any rung or entry |
| Verification.MoreTroubleNeverPasses | hardening_loop/verification.py:114-150 | one more run that did not succeed, wherever listed, never turns a rung passed |
| Verification.DepthNeverRises | hardening_loop/verification.py:100-103 | nor does it raise the highest passed rung |
| Verification.UncheckedRungsNeverPass | hardening_loop/verification.py:38-82 | on the ladder in use the rungs with a component without a check are out of reach |
| Verification.GreenLeavesNoRungFailed | hardening_loop/orchestrator/engine.py:1682-1693 | with no list of required checks a green verdict leaves no rung failed or pending, and passes exactly the rungs all of whose components have a run |
| Verification.RequiredChecksCanHideAFailure | hardening_loop/orchestrator/engine.py:1682-1693 | the hiding does happen on the ladder in use: one required check green, another failed |
| Verification.GreenHidesTroubleIff | hardening_loop/orchestrator/engine.py:1682-1693 | for every list of required checks, ladder, rung and runs: a green verdict hides a failed or pending rung exactly when a run of one of its components is in trouble and not on a non-empty list |
| Verification.RungInTroubleIff | hardening_loop/verification.py:114-150 | a rung is failed or pending exactly when some run of one of its components is unfinished or did not succeed, be skipped or neutral |
| Verification.Evaluate | hardening_loop/verification.py:153-176 | the walk over the ladder gives every rung its status and every component its entry |
| Verification.MatchingRuns | hardening_loop/verification.py:109-111 | exactly the runs named like the check or an entry of its matrix |
| Verification.HighestPassed | hardening_loop/verification.py:100-103 | the highest passed rung, none only if no rung is passed |
| Lineage.RegressionDescendants | hardening_loop/models/lineage.py:23-35 | the unguarded breadth-first search terminates and lists every transitive descendant exactly once, oldest first |
| Lineage.MembersWithLineage | hardening_loop/models/lineage.py:38-55 | for any parent map, cycles included, each item lists exactly the findings whose owner chain reaches it, once each |
| Lineage.ListedUnderOwnerAndAncestors | hardening_loop/models/lineage.py:23-55 | a finding is listed under an item exactly when its owner is that item or one the search lists as its descendant |
| Lineage.FileUpwards | hardening_loop/models/lineage.py:47-54 | one walk up the parents terminates and files the finding once per item reached |
| Lineage.ChildMap | hardening_loop/models/lineage.py:25-28 | every regression filed once under the item it points back at |
| Lineage.AllTaken | hardening_loop/models/lineage.py:29-35 | when the queue is empty every descendant has been taken |
| Regression.FreeNumber | hardening_loop/orchestrator/engine.py:456-459 | the search for a free `#rN` key terminates with the least unused number |
| Regression.NumberedIsInjective | hardening_loop/orchestrator/engine.py:458-459 | different numbers give different keys |
| Regression.Registry.WorkItemForGroup | hardening_loop/orchestrator/engine.py:441-483 | an open item of the group is joined; a closed one gets a new item under a free key that points back at it; otherwise the group gets its first item |
| Regression.LinksPointBack | hardening_loop/orchestrator/engine.py:441-483 | every table built this way has what the lineage search needs to terminate |
| Normalize.Run | hardening_loop/ingest/normalize.py:52-104 | the output lists each merged finding once, configuration before vulnerabilities, each by ascending key |
| Normalize.Merge | hardening_loop/ingest/normalize.py:55-102 | the two loops build the merge, each key once |
| Normalize.VulnKeys | hardening_loop/ingest/normalize.py:55-71 | the findings of the first loop are exactly the keys of its records |
| Normalize.ConfigKeys | hardening_loop/ingest/normalize.py:84-98 | the second loop adds exactly its own keys and leaves vulnerabilities alone |
| Normalize.VulnMeaning | hardening_loop/ingest/normalize.py:76-82 | a vulnerability's severity is the highest of its records and its reporters are exactly theirs |
| Normalize.VulnColumns | hardening_loop/ingest/normalize.py:72-80 | per scanner the severity and fix versions of its last record, and the first title and package URL any record gave |
| Normalize.ConfigMeaning | hardening_loop/ingest/normalize.py:84-102 | a configuration finding keeps the severity and title of the first record of its key, per scanner the severity of the last, and names exactly its reporters |
| Normalize.PermutationChangesNothing | hardening_loop/ingest/normalize.py:52-104 | permuting the vulnerability records changes neither which findings are listed nor their order, severities or reporters |
| Normalize.ListingIsUnique | hardening_loop/ingest/normalize.py:104 | a merge has one sorted listing only |
| Sorting.SortSorts | hardening_loop/ingest/normalize.py:104 | sorting returns the same elements in ascending order |
| Intake.EveryRunIsTakenInOnce | hardening_loop/ingest/intake.py:366-488 | through any refusals, errors and crashes between the two commits, once enough polls complete every listed attempt has exactly one intake row and at most one scan run |
| Intake.RowsTellTheDecision | hardening_loop/ingest/intake.py:374-488 | over any polls, an ingested row means some poll accepted the attempt and its scan run is there, a rejected one that some poll refused it, and only an accepted attempt or one a poll died in has a scan run |
| Intake.BatchMeans | hardening_loop/ingest/intake.py:346-359 | the batch takes unseen attempts only, none before a newer one, as many as the limit allows, and lists the oldest first |
| Intake.CompletedPollDrains | hardening_loop/ingest/intake.py:346-372 | a completed poll removes exactly the newest `limit` unseen attempts and leaves the older ones in order |
| Intake.PollKeeps | hardening_loop/ingest/intake.py:366-372 | any poll keeps the two tables consistent and uncovers nothing |
| Intake.ErrorEndsThePoll | hardening_loop/ingest/intake.py:366-372 | an error or crash at one attempt leaves the attempts after it in the batch without row and run of this poll |
| Intake.TicksDrain | hardening_loop/ingest/intake.py:366-372 | every completed poll with a positive limit brings the backlog closer to empty |
| Intake.OneKeeps | hardening_loop/ingest/intake.py:374-488 | one intake, however it ends, keeps one row and one run per attempt; only a finished one makes the attempt seen |
| Intake.Service.UnseenRuns | hardening_loop/ingest/intake.py:346-359 | the newest `limit` unseen attempts, oldest first |
| Intake.Service.IngestWorkflowRun | hardening_loop/ingest/intake.py:374-474 | a refused attempt gets its row only, an accepted one its run, unless it is there, and a row that names it, one that dies between the commits its run only |
| Intake.Service.Poll | hardening_loop/ingest/intake.py:366-372 | works the batch off in order and ends at the first error or crash |

## Left out

- EveryFixedIsBacked: the image a job scanned and the platform are not part of what every later state claims, because a later scan may rewrite the description they are compared with; `FixedOnTheLatestWord` states both for the moment of closing.
- OrderDoesNotMatter: opening detectors and the opening database time are not covered in `Persist`, because they follow the first run ingested, not the first finished.
- ScansAndMergeAgreeIff: work on every member is under way when the scans arrive; members without work under way can drift before the merge, which `MergeAndScanCommute` covers for one scan.
- ScansAndMergeCommuteIff: one member at a time, with the runs before the decisive one valid for none; `ScansAndMergeAgreeIff` drops that for all members together.
- EvidenceIsAboutTheHead: holds for items that do not share a pull request.
- LevelIsEarned: speaks of the pull request's own level; the level copied to the work item is only ever raised when a retry opens a second pull request and is not modelled.
- BudgetHolds: excludes re-entries and launches beside a stuck dispatch by hypothesis; `DispatchLimits` says exactly which of them exceed a limit, and `RunIsBounded` by how much.
- IngestRun: the job rows, the counter by severity and the event that closes the ingestion are not modelled; a job's image, target, platform and layer scope are one subject.
- DispatchTargets: the tick's `break` at the session limit appears as further candidates that find no room, which leaves the same tables; the candidates' order by severity and age is given.
- LaunchEligible: the issue and label calls are one call that may fail, after which the relaunch preparation may or may not have been written.
- Retries of HTTP requests below `create_session`, which can repeat a POST.
- Opening, labelling and commenting on issues; issue closing; which open issues are found again by title.
- Rows kept for display only: check rows, session polls, claims of tests run, metrics, first-head results.
- Grouping rules, classification, report assessment, diff policy and the scan gate: branch tables used as free inputs.
- Bundle download, checksums, parsing of scanner, SBOM and VEX files, schema validation.
- Titles, texts, prompts, package-name normalization and the suffix pattern of group keys.
- An item that never gets an id, and work items on branches other than the remediation branch.
