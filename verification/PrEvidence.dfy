/** Checks, review and approval are evidence about one commit: what a tracked pull request's states
    say about the commit recorded for it. */
module PrEvidence {
  import opened Domain
  import opened StateTables

  datatype ReviewStatus = ReviewPendingAtDevin | ReviewRunning | ReviewDone | ReviewErrored | ReviewCancelled

  datatype Review = Review(status: ReviewStatus, commit: nat)

  /** An APPROVED review; `trusted` says whether its author may approve. */
  datatype Approval = Approval(author: nat, trusted: bool, commit: nat)

  /** One answer to the review lookup and, where it is used, to the trigger; `None` is a failed call. */
  datatype ReviewAnswers = ReviewAnswers(found: Option<Option<Review>>, triggered: Option<Review>)

  /** Everything one poll of a pull request reads. `messageSent` is whether the outside calls of a retry
      succeeded, `overdue` whether the review timeout has passed. */
  datatype Observation = Observation(number: nat, head: nat, merged: bool, closed: bool, checks: seq<CheckRun>,
                                     review: ReviewAnswers, approvals: Option<seq<Approval>>,
                                     messageSent: bool, overdue: bool)

  datatype PrState = OpenPr | ClosedPr | MergedPr

  /** `level` counts pr_opened, ci_green, review_completed, human_approved, merged, rescan_verified from 1. */
  datatype PrRow = PrRow(head: nat, state: PrState, reviewStatus: Option<ReviewStatus>, reviewHead: Option<nat>,
                         approvedBy: Option<nat>, retriggered: set<nat>, level: nat)

  datatype Item = Item(state: WorkItemState, pr: Option<nat>, retries: nat, hasSession: bool)

  datatype Config = Config(required: set<string>, maxRetries: nat)

  datatype Verdict = Green | Red | Running

  /** The verdict over the required checks, or over all of them when none are named. */
  ghost function ChecksVerdict(cfg: Config, checks: seq<CheckRun>): Verdict {
    if cfg.required != {} && !(forall n :: n in cfg.required ==> Reported(checks, n)) then Running
    else if !(exists i :: Relevant(cfg, checks, i)) then Running
    else if exists i :: Relevant(cfg, checks, i) && checks[i].completed && checks[i].conclusion != Success then Red
    else if forall i :: Relevant(cfg, checks, i) ==> checks[i].completed && checks[i].conclusion == Success then Green
    else Running
  }

  predicate Reported(checks: seq<CheckRun>, name: string) {
    exists i :: 0 <= i < |checks| && checks[i].name == name
  }

  predicate Relevant(cfg: Config, checks: seq<CheckRun>, i: int) {
    0 <= i < |checks| && (cfg.required == {} || checks[i].name in cfg.required)
  }

  /** The check is required, or nothing is named as required. */
  predicate Weighs(required: set<string>, c: CheckRun) {
    required == {} || c.name in required
  }

  ghost predicate AllListed(required: set<string>, checks: seq<CheckRun>) {
    forall n :: n in required ==> exists c :: c in checks && c.name == n
  }

  /** Every required check is listed, some listed check weighs, and all that weigh have completed with success. */
  ghost predicate ShowsGreen(required: set<string>, checks: seq<CheckRun>) {
    AllListed(required, checks) && (exists c :: c in checks && Weighs(required, c)) &&
    forall c :: c in checks && Weighs(required, c) ==> c.completed && c.conclusion == Success
  }

  /** Every required check is listed and one that weighs has completed otherwise. */
  ghost predicate ShowsRed(required: set<string>, checks: seq<CheckRun>) {
    AllListed(required, checks) &&
    exists c :: c in checks && Weighs(required, c) && c.completed && c.conclusion != Success
  }

  lemma ListedMeans(cfg: Config, checks: seq<CheckRun>)
    ensures AllListed(cfg.required, checks) <==>
      cfg.required == {} || forall n :: n in cfg.required ==> Reported(checks, n)
  {
    forall n ensures Reported(checks, n) <==> exists c :: c in checks && c.name == n {
      if i :| 0 <= i < |checks| && checks[i].name == n {
        assert checks[i] in checks;
      }
    }
  }

  lemma WeighingMeans(cfg: Config, checks: seq<CheckRun>)
    ensures (exists i :: Relevant(cfg, checks, i)) <==> exists c :: c in checks && Weighs(cfg.required, c)
    ensures (exists i :: Relevant(cfg, checks, i) && checks[i].completed && checks[i].conclusion != Success) <==>
      exists c :: c in checks && Weighs(cfg.required, c) && c.completed && c.conclusion != Success
    ensures (forall i :: Relevant(cfg, checks, i) ==> checks[i].completed && checks[i].conclusion == Success) <==>
      forall c :: c in checks && Weighs(cfg.required, c) ==> c.completed && c.conclusion == Success
  {
    forall c | c in checks && Weighs(cfg.required, c) ensures exists i :: Relevant(cfg, checks, i) && checks[i] == c {
      var i :| 0 <= i < |checks| && checks[i] == c;
      assert Relevant(cfg, checks, i);
    }
    forall i | Relevant(cfg, checks, i) ensures checks[i] in checks && Weighs(cfg.required, checks[i]) {
    }
  }

  lemma VerdictMeans(cfg: Config, checks: seq<CheckRun>)
    ensures ChecksVerdict(cfg, checks) == Green <==> ShowsGreen(cfg.required, checks)
    ensures ChecksVerdict(cfg, checks) == Red <==> ShowsRed(cfg.required, checks)
  {
    hide AllListed, Reported, Relevant, Weighs;
    ListedMeans(cfg, checks);
    WeighingMeans(cfg, checks);
  }

  // ---------------------------------------------------------------- one poll

  function Raise(row: PrRow, level: nat): PrRow {
    if level > row.level then row.(level := level) else row
  }

  function To(it: Item, e: WorkItemEvent): Item {
    it.(state := Advance(it.state, e))
  }

  datatype Tracked = Tracked(item: Item, row: PrRow)

  /** A push replaces the commit every piece of evidence was about. */
  function AfterHead(t: Tracked, o: Observation): Tracked {
    if o.head == t.row.head then t
    else
      var row := t.row.(head := o.head, reviewStatus := None, approvedBy := None);
      if o.merged || o.closed then Tracked(t.item, row)
      else
        Tracked(if t.item.state in {ReviewPending, ReadyForHuman} then To(t.item, NewHeadPushed) else t.item,
                row.(level := if row.level < 1 then row.level else 1))
  }

  function AfterMerge(t: Tracked): Tracked {
    var it := if t.item.state in {ReadyForHuman, NeedsHuman} then t.item else To(t.item, Blocked);
    var row := t.row.(state := MergedPr);
    if it.state in {ReadyForHuman, NeedsHuman} then Tracked(To(it, HumanMerged), Raise(row, 5)) else Tracked(it, row)
  }

  function AfterClose(t: Tracked): Tracked {
    Tracked(if t.item.state == NeedsHuman then t.item else To(t.item, PrClosedUnmerged), t.row.(state := ClosedPr))
  }

  /** `None`: the message call failed and the transaction is rolled back. */
  function AfterRed(cfg: Config, t: Tracked, o: Observation): Option<Tracked> {
    if t.item.state !in {ChecksRunning, ReviewPending, ReadyForHuman} then Some(t)
    else
      var red := To(t.item, ChecksRed);
      if red.retries >= cfg.maxRetries || !red.hasSession then Some(t.(item := To(red, RetriesExhausted)))
      else if !o.messageSent then None
      else Some(t.(item := To(red.(retries := red.retries + 1), RetrySent)))
  }

  function TimedOut(t: Tracked, o: Observation): Tracked {
    if o.overdue then t.(item := To(t.item, ReviewNotObserved)) else t
  }

  /** Files the answer of the review lookup or trigger; only a completed review of exactly the polled
      head advances the item. */
  function FileReview(t: Tracked, o: Observation, r: Review): Tracked {
    if r.commit != o.head then TimedOut(t, o)
    else
      var row := t.row.(reviewStatus := Some(r.status), reviewHead := Some(r.commit));
      if r.status == ReviewDone then Tracked(To(t.item, ReviewCompleted), Raise(row, 3))
      else TimedOut(t.(row := row), o)
  }

  function AfterReview(t: Tracked, o: Observation): Tracked {
    match o.review.found
    case None => TimedOut(t, o)
    case Some(None) =>
      (match o.review.triggered
       case None => TimedOut(t, o)
       case Some(r) => FileReview(t, o, r))
    case Some(Some(found)) =>
      if found.status == ReviewErrored then
        if o.head in t.row.retriggered then t.(item := To(t.item, ReviewNotObserved))
        else
          (match o.review.triggered
           case None => TimedOut(t, o)
           case Some(r) => FileReview(t.(row := t.row.(retriggered := t.row.retriggered + {r.commit})), o, r))
      else if found.status == ReviewCancelled then t.(item := To(t.item, ReviewNotObserved))
      else FileReview(t, o, found)
  }

  predicate ApprovesHead(o: Observation, a: Approval) {
    a.trusted && a.commit == o.head
  }

  /** The first approval of the head by somebody who may approve. */
  function FirstApproval(o: Observation, approvals: seq<Approval>): (who: Option<nat>)
    ensures who.Some? ==>
      exists i :: 0 <= i < |approvals| && ApprovesHead(o, approvals[i]) && approvals[i].author == who.value
    ensures who.None? ==> forall i :: 0 <= i < |approvals| ==> !ApprovesHead(o, approvals[i])
  {
    if approvals == [] then None
    else if ApprovesHead(o, approvals[0]) then Some(approvals[0].author)
    else
      var rest := FirstApproval(o, approvals[1..]);
      assert rest.Some? ==> forall i :: 0 <= i < |approvals[1..]| ==> approvals[1..][i] == approvals[i + 1];
      rest
  }

  function AfterApproval(t: Tracked, o: Observation): Option<Tracked> {
    match o.approvals
    case None => None
    case Some(list) =>
      var who := FirstApproval(o, list);
      if who.Some? && t.row.approvedBy != who then Some(t.(row := Raise(t.row.(approvedBy := who), 4))) else Some(t)
  }

  function Started(t: Tracked): Tracked {
    if t.item.state == PrOpen then t.(item := To(t.item, ChecksStarted)) else t
  }

  function Greened(t: Tracked): Tracked {
    if t.item.state == ChecksRunning then Tracked(To(t.item, ChecksGreen), Raise(t.row, 2)) else t
  }

  function Reviewed(t: Tracked, o: Observation): Tracked {
    if Greened(t).item.state == ReviewPending then AfterReview(Greened(t), o) else Greened(t)
  }

  function AfterGreen(t: Tracked, o: Observation): Option<Tracked> {
    var reviewed := Reviewed(t, o);
    if reviewed.item.state == ReadyForHuman then AfterApproval(reviewed, o) else Some(reviewed)
  }

  ghost function AfterChecks(cfg: Config, t: Tracked, o: Observation): Option<Tracked> {
    match ChecksVerdict(cfg, o.checks)
    case Red => AfterRed(cfg, Started(t), o)
    case Running => Some(Started(t))
    case Green => AfterGreen(Started(t), o)
  }

  /** One poll applied to the item and its pull request; a rolled-back poll leaves both alone. */
  ghost function ApplyPr(cfg: Config, t: Tracked, o: Observation): Tracked {
    var pushed := AfterHead(t, o);
    if o.merged then AfterMerge(pushed)
    else if o.closed then AfterClose(pushed)
    else if pushed.item.state == NeedsHuman then pushed
    else match AfterChecks(cfg, pushed, o)
         case Some(after) => after
         case None => t
  }

  // ---------------------------------------------------------------- histories

  /** One work item, the pull requests it recorded (shared with no other item), the first of them, and
      every poll so far. */
  datatype World = World(item: Item, rows: map<nat, PrRow>, first: Option<nat>, history: seq<Observation>)

  datatype Step =
    | Report(number: nat, head: nat)        // the session delivered a pull request
    | Poll(o: Observation)
    | Verify                                // a rescan finds every member of the item closed
    | Other(e: WorkItemEvent, it: Item)     // anything else that happens to the item

  const NEW_WORLD := World(Item(Queued, None, 0, false), map[], None, [])

  predicate Polls(s: WorkItemState) {
    s in {PrOpen, ChecksRunning, ReviewPending, ReadyForHuman, NeedsHuman}
  }

  /** Neither checks nor review nor approvals are fetched for a merged or closed pull request, nor for an
      item a human owns. */
  predicate ChecksWanted(s: WorkItemState, o: Observation) {
    !o.merged && !o.closed && s != NeedsHuman
  }

  predicate ReadsNothing(o: Observation) {
    o.checks == [] && o.review == ReviewAnswers(None, None) && o.approvals == None
  }

  ghost predicate SeesGreen(cfg: Config, t: Tracked, o: Observation) {
    ChecksWanted(t.item.state, o) && ChecksVerdict(cfg, o.checks) == Green
  }

  ghost predicate AsksReview(cfg: Config, t: Tracked, o: Observation) {
    SeesGreen(cfg, t, o) && Greened(Started(AfterHead(t, o))).item.state == ReviewPending
  }

  /** The lookup found no review, or one that errored and was not triggered again yet. */
  predicate AsksTrigger(t: Tracked, o: Observation) {
    match o.review.found
    case None => false
    case Some(None) => true
    case Some(Some(r)) => r.status == ReviewErrored && o.head !in t.row.retriggered
  }

  ghost predicate AsksApprovals(cfg: Config, t: Tracked, o: Observation) {
    SeesGreen(cfg, t, o) && Reviewed(Started(AfterHead(t, o)), o).item.state == ReadyForHuman
  }

  /** A question the code does not ask has no answer. */
  ghost predicate ReadsWhatItAsks(cfg: Config, t: Tracked, o: Observation) {
    (!ChecksWanted(t.item.state, o) ==> o.checks == []) &&
    (!AsksReview(cfg, t, o) ==> o.review == ReviewAnswers(None, None)) &&
    (!AsksTrigger(t, o) ==> o.review.triggered == None) &&
    (!AsksApprovals(cfg, t, o) ==> o.approvals == None)
  }

  ghost predicate Enabled(cfg: Config, w: World, s: Step) {
    match s
    case Report(_, _) => w.item.state == SessionActive
    case Poll(o) =>
      Polls(w.item.state) && w.item.pr == Some(o.number) && o.number in w.rows &&
      ReadsWhatItAsks(cfg, Tracked(w.item, w.rows[o.number]), o)
    case Verify => w.item.state == AwaitingRescan
    case Other(e, it) =>
      e !in {ChecksGreen, ReviewCompleted, RescanVerified} && it.pr == w.item.pr && it.state == Advance(w.item.state, e)
  }

  /** A pull request seen before keeps its row, the old head included, until the next poll. */
  function Recorded(w: World, number: nat, head: nat): map<nat, PrRow> {
    if number in w.rows then w.rows[number := Raise(w.rows[number], 1)]
    else w.rows[number := PrRow(head, OpenPr, None, None, None, {}, 1)]
  }

  /** The first pull request recorded for the item takes the last level, whatever became of it. */
  function VerifiedRows(w: World): map<nat, PrRow> {
    if w.first.Some? && w.first.value in w.rows then w.rows[w.first.value := Raise(w.rows[w.first.value], 6)]
      else w.rows
  }

  ghost function Next(cfg: Config, w: World, s: Step): World
    requires Enabled(cfg, w, s)
  {
    match s
    case Report(number, head) =>
      w.(item := To(To(w.item, PrOpened), ChecksStarted).(pr := Some(number)), rows := Recorded(w, number, head),
         first := if w.first.Some? then w.first else Some(number))
    case Poll(o) =>
      var t := ApplyPr(cfg, Tracked(w.item, w.rows[o.number]), o);
      w.(item := t.item, rows := w.rows[o.number := t.row], history := w.history + [o])
    case Verify => w.(item := To(w.item, RescanVerified), rows := VerifiedRows(w))
    case Other(_, it) => w.(item := it)
  }

  ghost predicate GreenAt(cfg: Config, o: Observation, number: nat, head: nat) {
    o.number == number && o.head == head && ChecksVerdict(cfg, o.checks) == Green
  }

  /** The poll read a completed review naming the head it polled. */
  predicate ReviewAt(o: Observation, number: nat, head: nat) {
    o.number == number && o.head == head &&
    (o.review.found == Some(Some(Review(ReviewDone, head))) || o.review.triggered == Some(Review(ReviewDone, head)))
  }

  predicate ApprovalAt(o: Observation, number: nat, head: nat, who: nat) {
    o.number == number && o.head == head && o.approvals.Some? &&
    exists i :: 0 <= i < |o.approvals.value| && ApprovesHead(o, o.approvals.value[i]) &&
      o.approvals.value[i].author == who
  }

  ghost predicate SawGreen(cfg: Config, h: seq<Observation>, number: nat, head: nat) {
    exists i :: 0 <= i < |h| && GreenAt(cfg, h[i], number, head)
  }

  ghost predicate SawReview(h: seq<Observation>, number: nat, head: nat) {
    exists i :: 0 <= i < |h| && ReviewAt(h[i], number, head)
  }

  /** An approval of the head, read no earlier than a completed review of it. */
  ghost predicate SawApproval(h: seq<Observation>, number: nat, head: nat, who: nat) {
    exists i :: 0 <= i < |h| && ApprovalAt(h[i], number, head, who) && SawReview(h[..i + 1], number, head)
  }

  ghost predicate SawSomeApproval(h: seq<Observation>, number: nat, head: nat) {
    exists who :: SawApproval(h, number, head, who)
  }

  predicate MergeAt(o: Observation, number: nat) {
    o.number == number && o.merged
  }

  ghost predicate SawMerge(h: seq<Observation>, number: nat) {
    exists i :: 0 <= i < |h| && MergeAt(h[i], number)
  }

  /** The row's level is earned: up to the approval by evidence about its recorded head, beyond it by a
      merge of that pull request. */
  ghost predicate Earned(cfg: Config, h: seq<Observation>, number: nat, row: PrRow) {
    if row.level >= 5 then SawMerge(h, number)
    else
      (row.level >= 2 ==> SawGreen(cfg, h, number, row.head)) &&
      (row.level >= 3 ==> SawReview(h, number, row.head)) &&
      (row.level >= 4 ==> SawSomeApproval(h, number, row.head))
  }

  /** A push first seen together with the close: the head is replaced, the level it had earned is not
      taken back. */
  predicate ClosingPush(row: PrRow, o: Observation) {
    o.closed && !o.merged && o.head != row.head && 2 <= row.level < 5
  }

  /** Such a push to a head whose own evidence so far does not reach the level. */
  ghost predicate Outruns(cfg: Config, h: seq<Observation>, row: PrRow, o: Observation) {
    ClosingPush(row, o) && !Earned(cfg, h, o.number, row.(head := o.head))
  }

  /** What a row may claim about its recorded head. */
  ghost predicate RowOk(h: seq<Observation>, number: nat, row: PrRow) {
    (row.approvedBy.Some? ==> SawApproval(h, number, row.head, row.approvedBy.value)) &&
    (row.reviewStatus.Some? ==> row.reviewHead == Some(row.head)) &&
    (row.reviewStatus == Some(ReviewDone) ==> SawReview(h, number, row.head)) &&
    (row.state == MergedPr ==> SawMerge(h, number)) && row.level <= 6
  }

  /** A merged pull request stays merged. */
  ghost predicate MergesStay(h: seq<Observation>) {
    forall i, j :: 0 <= i < j < |h| && h[i].number == h[j].number && h[i].merged ==> h[j].merged
  }

  /** The rescan that verified the item raised this row. */
  predicate IsVerifiedRow(w: World, n: nat) {
    w.item.state == Verified && w.first == Some(n)
  }

  /** What the recorded states of the rows say about their levels and about what was polled. */
  ghost predicate StatesTell(w: World) {
    (forall n :: n in w.rows && w.rows[n].state == OpenPr && !IsVerifiedRow(w, n) ==> w.rows[n].level <= 4) &&
    (forall n :: n in w.rows && IsVerifiedRow(w, n) ==> w.rows[n].level == 6) &&
    (MergesStay(w.history) ==> forall n :: n in w.rows && SawMerge(w.history, n) ==> w.rows[n].state == MergedPr)
  }

  ghost predicate ItemOk(cfg: Config, h: seq<Observation>, it: Item, row: PrRow)
    requires it.pr.Some?
  {
    (it.state in {ReviewPending, ReadyForHuman} ==> SawGreen(cfg, h, it.pr.value, row.head)) &&
    (it.state == ReadyForHuman ==>
      SawReview(h, it.pr.value, row.head) && row.reviewStatus == Some(ReviewDone) && row.reviewHead == Some(row.head))
  }

  ghost predicate Inv(cfg: Config, w: World) {
    (forall n :: n in w.rows ==> RowOk(w.history, n, w.rows[n])) &&
    (w.item.state in {ReviewPending, ReadyForHuman} ==> w.item.pr.Some? && w.item.pr.value in w.rows) &&
    (w.item.pr.Some? && w.item.pr.value in w.rows ==> ItemOk(cfg, w.history, w.item, w.rows[w.item.pr.value])) &&
    (w.first.Some? <==> w.rows != map[]) && (w.first.Some? ==> w.first.value in w.rows) &&
    (forall i :: 0 <= i < |w.history| ==> w.history[i].number in w.rows) && StatesTell(w)
  }

  // ---------------------------------------------------------------- facts last

  lemma FactsLast(cfg: Config, h: seq<Observation>, o: Observation, number: nat, head: nat)
    ensures SawGreen(cfg, h, number, head) ==> SawGreen(cfg, h + [o], number, head)
    ensures SawReview(h, number, head) ==> SawReview(h + [o], number, head)
    ensures GreenAt(cfg, o, number, head) ==> SawGreen(cfg, h + [o], number, head)
    ensures ReviewAt(o, number, head) ==> SawReview(h + [o], number, head)
  {
    var g := h + [o];
    assert g[|h|] == o;
    if i :| 0 <= i < |h| && GreenAt(cfg, h[i], number, head) {
      assert g[i] == h[i];
    }
    if i :| 0 <= i < |h| && ReviewAt(h[i], number, head) {
      assert g[i] == h[i];
    }
  }

  lemma MergesLast(h: seq<Observation>, o: Observation, number: nat)
    ensures SawMerge(h, number) || MergeAt(o, number) ==> SawMerge(h + [o], number)
  {
    var g := h + [o];
    assert g[|h|] == o;
    if i :| 0 <= i < |h| && MergeAt(h[i], number) {
      assert g[i] == h[i];
    }
  }

  lemma ApprovalsLast(h: seq<Observation>, o: Observation, number: nat, head: nat, who: nat)
    ensures SawApproval(h, number, head, who) ==> SawApproval(h + [o], number, head, who)
    ensures ApprovalAt(o, number, head, who) && SawReview(h + [o], number, head) ==>
      SawApproval(h + [o], number, head, who)
  {
    var g := h + [o];
    if SawApproval(h, number, head, who) {
      var i :| 0 <= i < |h| && ApprovalAt(h[i], number, head, who) && SawReview(h[..i + 1], number, head);
      assert g[i] == h[i] && g[..i + 1] == h[..i + 1];
    }
    if ApprovalAt(o, number, head, who) && SawReview(g, number, head) {
      assert g[|h|] == o && g[..|h| + 1] == g;
    }
  }

  lemma RowLasts(cfg: Config, h: seq<Observation>, o: Observation, number: nat, row: PrRow)
    ensures RowOk(h, number, row) ==> RowOk(h + [o], number, row)
    ensures Earned(cfg, h, number, row) ==> Earned(cfg, h + [o], number, row)
  {
    FactsLast(cfg, h, o, number, row.head);
    MergesLast(h, o, number);
    if row.approvedBy.Some? {
      ApprovalsLast(h, o, number, row.head, row.approvedBy.value);
    }
    if SawSomeApproval(h, number, row.head) {
      var who :| SawApproval(h, number, row.head, who);
      ApprovalsLast(h, o, number, row.head, who);
    }
  }

  // ---------------------------------------------------------------- the parts of a poll

  /** The invariant of one tracked pull request, with the poll already on record. */
  ghost predicate TrackedOk(cfg: Config, h: seq<Observation>, number: nat, t: Tracked) {
    t.item.pr == Some(number) && RowOk(h, number, t.row) && ItemOk(cfg, h, t.item, t.row)
  }

  /** Nothing done between two readings of the row makes its level unearned. */
  ghost predicate KeepsEarned(cfg: Config, h: seq<Observation>, number: nat, t: Tracked, u: Tracked) {
    Earned(cfg, h, number, t.row) ==> Earned(cfg, h, number, u.row)
  }

  lemma AwayEvents(s: WorkItemState, e: WorkItemEvent)
    requires e !in {ChecksGreen, ReviewCompleted}
    ensures Advance(s, e) == s || Advance(s, e) !in {ReviewPending, ReadyForHuman}
  {
  }

  lemma HeadIsOk(cfg: Config, h: seq<Observation>, t: Tracked, o: Observation)
    requires TrackedOk(cfg, h, o.number, t)
    ensures !o.merged && !o.closed ==>
      TrackedOk(cfg, h, o.number, AfterHead(t, o)) && AfterHead(t, o).row.head == o.head
    ensures !o.merged && !o.closed ==> KeepsEarned(cfg, h, o.number, t, AfterHead(t, o))
    ensures var p := AfterHead(t, o);
      p.item.pr == t.item.pr && p.row.head == o.head && RowOk(h, o.number, p.row.(state := ClosedPr)) &&
      (Polls(t.item.state) ==> Polls(p.item.state))
  {
    AwayEvents(t.item.state, NewHeadPushed);
  }

  lemma TimeoutIsOk(cfg: Config, h: seq<Observation>, t: Tracked, o: Observation)
    requires TrackedOk(cfg, h, o.number, t) && t.item.state == ReviewPending
    ensures TrackedOk(cfg, h, o.number, TimedOut(t, o)) && TimedOut(t, o).row == t.row
    ensures TimedOut(t, o).item.state in {ReviewPending, NeedsHuman}
    ensures TrackedOk(cfg, h, o.number, t.(item := To(t.item, ReviewNotObserved)))
    ensures To(t.item, ReviewNotObserved).state == NeedsHuman
  {
  }

  lemma FilingIsOk(cfg: Config, h: seq<Observation>, t: Tracked, o: Observation, r: Review)
    requires TrackedOk(cfg, h, o.number, t) && t.row.head == o.head && t.item.state == ReviewPending
    requires r == Review(ReviewDone, o.head) ==> SawReview(h, o.number, o.head)
    ensures TrackedOk(cfg, h, o.number, FileReview(t, o, r)) && FileReview(t, o, r).row.head == o.head
    ensures KeepsEarned(cfg, h, o.number, t, FileReview(t, o, r))
    ensures FileReview(t, o, r).item.state in {ReviewPending, ReadyForHuman, NeedsHuman}
  {
    if r.commit != o.head {
      TimeoutIsOk(cfg, h, t, o);
    } else {
      var filed := t.(row := t.row.(reviewStatus := Some(r.status), reviewHead := Some(r.commit)));
      assert TrackedOk(cfg, h, o.number, filed);
      if r.status != ReviewDone {
        TimeoutIsOk(cfg, h, filed, o);
      }
    }
  }

  lemma RetriggeredIsOk(cfg: Config, h: seq<Observation>, t: Tracked, o: Observation, commits: set<nat>)
    requires TrackedOk(cfg, h, o.number, t)
    ensures var again := t.(row := t.row.(retriggered := commits));
      TrackedOk(cfg, h, o.number, again) && KeepsEarned(cfg, h, o.number, t, again)
  {
  }

  lemma ReviewIsOk(cfg: Config, h: seq<Observation>, t: Tracked, o: Observation)
    requires TrackedOk(cfg, h, o.number, t) && t.row.head == o.head && t.item.state == ReviewPending
    requires ReviewAt(o, o.number, o.head) ==> SawReview(h, o.number, o.head)
    ensures TrackedOk(cfg, h, o.number, AfterReview(t, o)) && AfterReview(t, o).row.head == o.head
    ensures KeepsEarned(cfg, h, o.number, t, AfterReview(t, o))
    ensures AfterReview(t, o).item.state in {ReviewPending, ReadyForHuman, NeedsHuman}
  {
    hide TrackedOk, Earned, To, FileReview, TimedOut;
    TimeoutIsOk(cfg, h, t, o);
    if o.review.found.Some? && o.review.found.value.Some? {
      FilingIsOk(cfg, h, t, o, o.review.found.value.value);
    }
    if o.review.triggered.Some? {
      var again := t.(row := t.row.(retriggered := t.row.retriggered + {o.review.triggered.value.commit}));
      FilingIsOk(cfg, h, t, o, o.review.triggered.value);
      RetriggeredIsOk(cfg, h, t, o, again.row.retriggered);
      FilingIsOk(cfg, h, again, o, o.review.triggered.value);
    }
  }

  lemma ApprovalIsOk(cfg: Config, h: seq<Observation>, t: Tracked, o: Observation)
    requires TrackedOk(cfg, h, o.number, t) && t.row.head == o.head && t.item.state == ReadyForHuman
    requires forall who :: ApprovalAt(o, o.number, o.head, who) ==> SawApproval(h, o.number, o.head, who)
    ensures AfterApproval(t, o).Some? ==> TrackedOk(cfg, h, o.number, AfterApproval(t, o).value)
    ensures AfterApproval(t, o).Some? ==> KeepsEarned(cfg, h, o.number, t, AfterApproval(t, o).value)
  {
    if o.approvals.Some? {
      var who := FirstApproval(o, o.approvals.value);
      if who.Some? {
        assert ApprovalAt(o, o.number, o.head, who.value);
        assert SawSomeApproval(h, o.number, o.head);
      }
    }
  }

  lemma GreenIsOk(cfg: Config, h: seq<Observation>, t: Tracked, o: Observation)
    requires TrackedOk(cfg, h, o.number, t) && t.row.head == o.head
    requires SawGreen(cfg, h, o.number, o.head) && (ReviewAt(o, o.number, o.head) ==> SawReview(h, o.number, o.head))
    requires forall who :: SawReview(h, o.number, o.head) && ApprovalAt(o, o.number, o.head, who) ==>
      SawApproval(h, o.number, o.head, who)
    ensures AfterGreen(t, o).Some? ==> TrackedOk(cfg, h, o.number, AfterGreen(t, o).value)
    ensures AfterGreen(t, o).Some? ==> KeepsEarned(cfg, h, o.number, t, AfterGreen(t, o).value)
  {
    var green := Greened(t);
    assert TrackedOk(cfg, h, o.number, green);
    var reviewed := green;
    if green.item.state == ReviewPending {
      ReviewIsOk(cfg, h, green, o);
      reviewed := AfterReview(green, o);
    }
    if reviewed.item.state == ReadyForHuman {
      ApprovalIsOk(cfg, h, reviewed, o);
    }
  }

  lemma RedIsOk(cfg: Config, h: seq<Observation>, t: Tracked, o: Observation)
    requires TrackedOk(cfg, h, o.number, t)
    ensures AfterRed(cfg, t, o).Some? ==> TrackedOk(cfg, h, o.number, AfterRed(cfg, t, o).value)
    ensures AfterRed(cfg, t, o).Some? ==> KeepsEarned(cfg, h, o.number, t, AfterRed(cfg, t, o).value)
  {
    if t.item.state in {ChecksRunning, ReviewPending, ReadyForHuman} {
      assert To(t.item, ChecksRed).state == ChecksFailed;
    }
  }

  lemma ChecksAreOk(cfg: Config, h: seq<Observation>, t: Tracked, o: Observation)
    requires TrackedOk(cfg, h, o.number, t) && t.row.head == o.head
    requires GreenAt(cfg, o, o.number, o.head) ==> SawGreen(cfg, h, o.number, o.head)
    requires ReviewAt(o, o.number, o.head) ==> SawReview(h, o.number, o.head)
    requires forall who :: SawReview(h, o.number, o.head) && ApprovalAt(o, o.number, o.head, who) ==>
      SawApproval(h, o.number, o.head, who)
    ensures AfterChecks(cfg, t, o).Some? ==> TrackedOk(cfg, h, o.number, AfterChecks(cfg, t, o).value)
    ensures AfterChecks(cfg, t, o).Some? ==> KeepsEarned(cfg, h, o.number, t, AfterChecks(cfg, t, o).value)
  {
    var started := Started(t);
    assert TrackedOk(cfg, h, o.number, started);
    match ChecksVerdict(cfg, o.checks)
    case Red => RedIsOk(cfg, h, started, o);
    case Running =>
    case Green => GreenIsOk(cfg, h, started, o);
  }

  lemma MergedIsOk(cfg: Config, h: seq<Observation>, number: nat, t: Tracked)
    requires t.item.pr == Some(number) && RowOk(h, number, t.row.(state := ClosedPr)) && SawMerge(h, number)
    ensures TrackedOk(cfg, h, number, AfterMerge(t))
    ensures Polls(t.item.state) ==> Earned(cfg, h, number, AfterMerge(t).row)
  {
    assert AfterMerge(t).item.state !in {ReviewPending, ReadyForHuman};
  }

  lemma ClosedIsOk(cfg: Config, h: seq<Observation>, number: nat, t: Tracked)
    requires t.item.pr == Some(number) && Polls(t.item.state) && RowOk(h, number, t.row.(state := ClosedPr))
    ensures TrackedOk(cfg, h, number, AfterClose(t))
  {
    assert AfterClose(t).item.state !in {ReviewPending, ReadyForHuman};
  }

  lemma PollIsOk(cfg: Config, h: seq<Observation>, t: Tracked, o: Observation)
    requires TrackedOk(cfg, h, o.number, t) && Polls(t.item.state)
    ensures TrackedOk(cfg, h + [o], o.number, ApplyPr(cfg, t, o))
    ensures Earned(cfg, h, o.number, t.row) && !ClosingPush(t.row, o) ==>
      Earned(cfg, h + [o], o.number, ApplyPr(cfg, t, o).row)
  {
    var g := h + [o];
    RowLasts(cfg, h, o, o.number, t.row);
    FactsLast(cfg, h, o, o.number, t.row.head);
    MergesLast(h, o, o.number);
    FactsLast(cfg, h, o, o.number, o.head);
    forall who ensures SawReview(g, o.number, o.head) && ApprovalAt(o, o.number, o.head, who) ==>
      SawApproval(g, o.number, o.head, who) {
      ApprovalsLast(h, o, o.number, o.head, who);
    }
    assert TrackedOk(cfg, g, o.number, t);
    if o.merged || o.closed {
      HeadIsOk(cfg, g, t, o);
      if o.merged {
        MergedIsOk(cfg, g, o.number, AfterHead(t, o));
      }
      ClosedIsOk(cfg, g, o.number, AfterHead(t, o));
    } else {
      HeadIsOk(cfg, g, t, o);
      ChecksAreOk(cfg, g, AfterHead(t, o), o);
    }
  }

  // ---------------------------------------------------------------- what a poll writes

  lemma OnlyRescanVerifies(s: WorkItemState, e: WorkItemEvent)
    requires s != Verified && e != RescanVerified
    ensures Advance(s, e) != Verified
  {
  }

  lemma ReviewWrites(t: Tracked, o: Observation)
    ensures AfterReview(t, o).row.state == t.row.state && (t.row.level <= 4 ==> AfterReview(t, o).row.level <= 4)
    ensures t.item.state != Verified ==> AfterReview(t, o).item.state != Verified
  {
    hide NextWorkItemState;
    if t.item.state != Verified {
      OnlyRescanVerifies(t.item.state, ReviewNotObserved);
      OnlyRescanVerifies(t.item.state, ReviewCompleted);
    }
  }

  lemma RedWrites(cfg: Config, t: Tracked, o: Observation)
    requires t.item.state != Verified
    ensures AfterRed(cfg, t, o).Some? ==>
      AfterRed(cfg, t, o).value.row == t.row && AfterRed(cfg, t, o).value.item.state != Verified
  {
    hide NextWorkItemState;
    var red := To(t.item, ChecksRed);
    OnlyRescanVerifies(t.item.state, ChecksRed);
    OnlyRescanVerifies(red.state, RetriesExhausted);
    OnlyRescanVerifies(red.state, RetrySent);
  }

  lemma ChecksWrite(cfg: Config, t: Tracked, o: Observation)
    requires t.item.state != Verified
    ensures AfterChecks(cfg, t, o).Some? ==> var u := AfterChecks(cfg, t, o).value;
      u.row.state == t.row.state && (t.row.level <= 4 ==> u.row.level <= 4) && u.item.state != Verified
  {
    hide Advance, AfterReview, AfterRed;
    OnlyRescanVerifies(t.item.state, ChecksStarted);
    var started := Started(t);
    RedWrites(cfg, started, o);
    OnlyRescanVerifies(started.item.state, ChecksGreen);
    ReviewWrites(Greened(started), o);
  }

  /** A poll changes the recorded state of a pull request only to merged or closed, raises an open one to
      no more than its approval, and verifies nothing. */
  lemma PollWrites(cfg: Config, t: Tracked, o: Observation)
    requires t.item.state != Verified
    ensures var u := ApplyPr(cfg, t, o);
      u.row.state == (if o.merged then MergedPr else if o.closed then ClosedPr else t.row.state) &&
      u.item.state != Verified && (!o.merged && t.row.level <= 4 ==> u.row.level <= 4)
  {
    hide Advance, AfterChecks;
    OnlyRescanVerifies(t.item.state, NewHeadPushed);
    var p := AfterHead(t, o);
    if o.merged {
      OnlyRescanVerifies(p.item.state, Blocked);
      OnlyRescanVerifies(To(p.item, Blocked).state, HumanMerged);
      OnlyRescanVerifies(p.item.state, HumanMerged);
    } else if o.closed {
      OnlyRescanVerifies(p.item.state, PrClosedUnmerged);
    } else {
      ChecksWrite(cfg, p, o);
    }
  }

  // ---------------------------------------------------------------- steps and runs

  lemma MergesStayed(h: seq<Observation>, o: Observation)
    requires MergesStay(h + [o])
    ensures MergesStay(h)
    ensures SawMerge(h, o.number) ==> o.merged
  {
    var g := h + [o];
    forall i, j | 0 <= i < j < |h| && h[i].number == h[j].number && h[i].merged ensures h[j].merged {
      assert g[i] == h[i] && g[j] == h[j];
    }
    if i :| 0 <= i < |h| && MergeAt(h[i], o.number) {
      assert g[i] == h[i] && g[|h|] == o;
    }
  }

  lemma MergesCameBefore(h: seq<Observation>, o: Observation, n: nat)
    requires SawMerge(h + [o], n)
    ensures SawMerge(h, n) || MergeAt(o, n)
  {
    var i :| 0 <= i < |h + [o]| && MergeAt((h + [o])[i], n);
    if i < |h| {
      assert MergeAt(h[i], n);
    }
  }

  lemma PollTells(cfg: Config, w: World, o: Observation)
    requires Inv(cfg, w) && Enabled(cfg, w, Poll(o))
    ensures StatesTell(Next(cfg, w, Poll(o)))
  {
    hide ApplyPr, SawMerge, MergesStay, RowOk, ItemOk, ReadsWhatItAsks;
    var v := Next(cfg, w, Poll(o));
    PollWrites(cfg, Tracked(w.item, w.rows[o.number]), o);
    if MergesStay(v.history) {
      MergesStayed(w.history, o);
      forall n | n in v.rows && SawMerge(v.history, n) ensures v.rows[n].state == MergedPr {
        MergesCameBefore(w.history, o, n);
      }
    }
  }

  lemma PollKeeps(cfg: Config, w: World, o: Observation)
    requires Inv(cfg, w) && Enabled(cfg, w, Poll(o))
    ensures Inv(cfg, Next(cfg, w, Poll(o)))
  {
    hide RowOk, ItemOk, StatesTell, ApplyPr, ReadsWhatItAsks;
    var t := Tracked(w.item, w.rows[o.number]);
    PollIsOk(cfg, w.history, t, o);
    PollTells(cfg, w, o);
    forall n | n in w.rows ensures RowOk(w.history + [o], n, w.rows[n]) {
      RowLasts(cfg, w.history, o, n, w.rows[n]);
    }
    TrackedInReview(cfg, w.history + [o], o.number, ApplyPr(cfg, t, o));
  }

  lemma TrackedInReview(cfg: Config, h: seq<Observation>, number: nat, t: Tracked)
    requires TrackedOk(cfg, h, number, t)
    ensures t.item.pr == Some(number) && RowOk(h, number, t.row) && ItemOk(cfg, h, t.item, t.row)
  {
  }

  lemma RecordedRow(w: World, number: nat, head: nat, n: nat)
    requires n in Recorded(w, number, head) && (n in w.rows ==> RowOk(w.history, n, w.rows[n]))
    ensures RowOk(w.history, n, Recorded(w, number, head)[n])
  {
  }

  lemma ReportTells(cfg: Config, w: World, number: nat, head: nat)
    requires Inv(cfg, w) && Enabled(cfg, w, Report(number, head))
    ensures StatesTell(Next(cfg, w, Report(number, head)))
  {
    hide RowOk, ItemOk, MergesStay;
    var v := Next(cfg, w, Report(number, head));
    assert v.item.state == ChecksRunning;
    forall n | n in v.rows && SawMerge(w.history, n) ensures n in w.rows {
      var i :| 0 <= i < |w.history| && MergeAt(w.history[i], n);
    }
  }

  lemma ReportKeeps(cfg: Config, w: World, number: nat, head: nat)
    requires Inv(cfg, w) && Enabled(cfg, w, Report(number, head))
    ensures Inv(cfg, Next(cfg, w, Report(number, head)))
  {
    hide RowOk, StatesTell;
    var v := Next(cfg, w, Report(number, head));
    assert To(To(w.item, PrOpened), ChecksStarted).state == ChecksRunning;
    forall n | n in v.rows ensures RowOk(v.history, n, v.rows[n]) {
      RecordedRow(w, number, head, n);
    }
    ReportTells(cfg, w, number, head);
  }

  lemma OtherKeeps(cfg: Config, w: World, e: WorkItemEvent, it: Item)
    requires Inv(cfg, w) && Enabled(cfg, w, Other(e, it))
    ensures Inv(cfg, Next(cfg, w, Other(e, it)))
  {
    hide RowOk, Advance, NextWorkItemState;
    AwayEvents(w.item.state, e);
    if w.item.state == Verified {
      VerifiedStays(e);
    } else {
      OnlyRescanVerifies(w.item.state, e);
    }
  }

  lemma VerifiedStays(e: WorkItemEvent)
    ensures Advance(Verified, e) == Verified
  {
  }

  lemma VerifyKeeps(cfg: Config, w: World)
    requires Inv(cfg, w) && Enabled(cfg, w, Verify)
    ensures Inv(cfg, Next(cfg, w, Verify))
  {
    var v := Next(cfg, w, Verify);
    assert v.item.state == Verified;
    forall n | n in v.rows ensures RowOk(v.history, n, v.rows[n]) {
      assert RowOk(w.history, n, w.rows[n]);
    }
  }

  lemma NextKeeps(cfg: Config, w: World, s: Step)
    requires Inv(cfg, w) && Enabled(cfg, w, s)
    ensures Inv(cfg, Next(cfg, w, s))
  {
    match s
    case Report(number, head) => ReportKeeps(cfg, w, number, head);
    case Poll(o) => PollKeeps(cfg, w, o);
    case Verify => VerifyKeeps(cfg, w);
    case Other(e, it) => OtherKeeps(cfg, w, e, it);
  }

  ghost predicate Leads(cfg: Config, w: World, s: Step, v: World) {
    Enabled(cfg, w, s) && Next(cfg, w, s) == v
  }

  ghost predicate Linked(cfg: Config, w: World, v: World) {
    exists s :: Leads(cfg, w, s, v)
  }

  /** `worlds` goes step by step from the empty start. */
  ghost predicate IsHistory(cfg: Config, worlds: seq<World>) {
    |worlds| > 0 && worlds[0] == NEW_WORLD && forall n :: 0 <= n < |worlds| - 1 ==>
      Linked(cfg, worlds[n], worlds[n + 1])
  }

  lemma {:induction false} HistoryKeeps(cfg: Config, worlds: seq<World>, n: nat)
    requires IsHistory(cfg, worlds) && n < |worlds|
    ensures Inv(cfg, worlds[n])
  {
    if n > 0 {
      HistoryKeeps(cfg, worlds, n - 1);
      assert Linked(cfg, worlds[n - 1], worlds[n]);
      var s :| Leads(cfg, worlds[n - 1], s, worlds[n]);
      NextKeeps(cfg, worlds[n - 1], s);
    }
  }

  /** Across pushes, retries, red re-runs and second pull requests: an item in review was green on the
      head recorded for its pull request; one ready for a human also has a completed review that names
      exactly that head; and a recorded approver approved exactly that head, read no earlier than its
      completed review. */
  lemma EvidenceIsAboutTheHead(cfg: Config, worlds: seq<World>, n: nat)
    requires IsHistory(cfg, worlds) && n < |worlds|
    ensures var w := worlds[n];
      (w.item.state in {ReviewPending, ReadyForHuman} ==>
        w.item.pr.Some? && w.item.pr.value in w.rows &&
        SawGreen(cfg, w.history, w.item.pr.value, w.rows[w.item.pr.value].head)) &&
      (w.item.state == ReadyForHuman ==>
        var row := w.rows[w.item.pr.value];
        SawReview(w.history, w.item.pr.value, row.head) && row.reviewHead == Some(row.head) &&
        row.reviewStatus == Some(ReviewDone)) &&
      (forall k :: k in w.rows && w.rows[k].approvedBy.Some? ==>
        SawApproval(w.history, k, w.rows[k].head, w.rows[k].approvedBy.value))
  {
    HistoryKeeps(cfg, worlds, n);
  }

  /** The same on the polls' own data: an item in review, or ready, was polled at exactly the recorded head when every
      required check was listed and all that count had succeeded. */
  lemma ReviewedHeadWasGreen(cfg: Config, worlds: seq<World>, n: nat) returns (i: nat)
    requires IsHistory(cfg, worlds) && n < |worlds| && worlds[n].item.state in {ReviewPending, ReadyForHuman}
    ensures var w := worlds[n];
      w.item.pr.Some? && w.item.pr.value in w.rows && i < |w.history| &&
      w.history[i].number == w.item.pr.value && w.history[i].head == w.rows[w.item.pr.value].head &&
      ShowsGreen(cfg.required, w.history[i].checks)
  {
    hide ChecksVerdict, ShowsGreen;
    EvidenceIsAboutTheHead(cfg, worlds, n);
    var w := worlds[n];
    i :| 0 <= i < |w.history| && GreenAt(cfg, w.history[i], w.item.pr.value, w.rows[w.item.pr.value].head);
    VerdictMeans(cfg, w.history[i].checks);
  }

  /** A recorded approver is the trusted author of an approval of exactly the recorded head, read when a completed
      review naming that head had been read. */
  lemma ApproverApprovedTheHead(cfg: Config, worlds: seq<World>, n: nat, k: nat) returns (i: nat, j: nat, a: nat)
    requires IsHistory(cfg, worlds) && n < |worlds| && k in worlds[n].rows && worlds[n].rows[k].approvedBy.Some?
    ensures var w := worlds[n]; var row := w.rows[k];
      j <= i < |w.history| && w.history[i].number == k && w.history[i].head == row.head &&
      w.history[i].approvals.Some? && a < |w.history[i].approvals.value| &&
      w.history[i].approvals.value[a] == Approval(row.approvedBy.value, true, row.head) &&
      w.history[j].number == k && w.history[j].head == row.head &&
      (w.history[j].review.found == Some(Some(Review(ReviewDone, row.head))) ||
       w.history[j].review.triggered == Some(Review(ReviewDone, row.head)))
  {
    EvidenceIsAboutTheHead(cfg, worlds, n);
    var w := worlds[n];
    var row := w.rows[k];
    i :| 0 <= i < |w.history| && ApprovalAt(w.history[i], k, row.head, row.approvedBy.value) &&
      SawReview(w.history[..i + 1], k, row.head);
    a :| 0 <= a < |w.history[i].approvals.value| && ApprovesHead(w.history[i], w.history[i].approvals.value[a]) &&
      w.history[i].approvals.value[a].author == row.approvedBy.value;
    j :| 0 <= j < |w.history[..i + 1]| && ReviewAt(w.history[..i + 1][j], k, row.head);
    assert w.history[..i + 1][j] == w.history[j];
  }

  // ---------------------------------------------------------------- the level

  /** Some step of the history left the row with a level it had not earned: a poll that closed the pull
      request on a head with less evidence, or the verification of an item whose first recorded pull
      request is not the merged one. */
  ghost predicate Lost(cfg: Config, worlds: seq<World>, n: nat, k: nat)
    requires n < |worlds|
  {
    exists m :: 0 <= m < n && LostAt(cfg, worlds, m, k)
  }

  ghost predicate LostAt(cfg: Config, worlds: seq<World>, m: nat, k: nat)
    requires m + 1 < |worlds|
  {
    LostBetween(cfg, worlds[m], worlds[m + 1], k)
  }

  ghost predicate LostBetween(cfg: Config, w: World, v: World, k: nat) {
    exists s :: LosesBy(cfg, w, s, v, k)
  }

  ghost predicate LosesBy(cfg: Config, w: World, s: Step, v: World, k: nat) {
    Leads(cfg, w, s, v) && Loses(cfg, w, s, k)
  }

  /** Everything here can be read off the tables and the polls so far. */
  ghost predicate Loses(cfg: Config, w: World, s: Step, k: nat) {
    k in w.rows &&
    match s
    case Poll(o) => o.number == k && Outruns(cfg, w.history, w.rows[k], o)
    case Verify => w.first == Some(k) && w.rows[k].state != MergedPr
    case _ => false
  }

  lemma RecordedIsEarned(cfg: Config, w: World, number: nat, head: nat, k: nat)
    requires k in Recorded(w, number, head) && (k in w.rows ==> Earned(cfg, w.history, k, w.rows[k]))
    ensures Earned(cfg, w.history, k, Recorded(w, number, head)[k])
  {
  }

  lemma TracksItsPull(cfg: Config, w: World, k: nat)
    requires Inv(cfg, w) && w.item.pr == Some(k) && k in w.rows
    ensures TrackedOk(cfg, w.history, k, Tracked(w.item, w.rows[k]))
  {
  }

  lemma ClosingReadsNothing(cfg: Config, h: seq<Observation>, o: Observation, head: nat)
    requires ReadsNothing(o)
    ensures SawGreen(cfg, h + [o], o.number, head) <==> SawGreen(cfg, h, o.number, head)
    ensures SawReview(h + [o], o.number, head) <==> SawReview(h, o.number, head)
    ensures SawSomeApproval(h + [o], o.number, head) <==> SawSomeApproval(h, o.number, head)
  {
    var g := h + [o];
    FactsLast(cfg, h, o, o.number, head);
    forall i | 0 <= i < |g| ensures g[i] == (if i < |h| then h[i] else o) && (i < |h| ==> g[..i + 1] == h[..i + 1]) {
    }
    if i :| 0 <= i < |g| && GreenAt(cfg, g[i], o.number, head) {
      assert GreenAt(cfg, h[i], o.number, head);
    }
    if i :| 0 <= i < |g| && ReviewAt(g[i], o.number, head) {
      assert ReviewAt(h[i], o.number, head);
    }
    if who :| SawApproval(g, o.number, head, who) {
      var i :| 0 <= i < |g| && ApprovalAt(g[i], o.number, head, who) && SawReview(g[..i + 1], o.number, head);
      assert ApprovalAt(h[i], o.number, head, who) && SawReview(h[..i + 1], o.number, head);
      assert SawApproval(h, o.number, head, who);
    }
    if who :| SawApproval(h, o.number, head, who) {
      ApprovalsLast(h, o, o.number, head, who);
    }
  }

  /** A push seen together with the close replaces the head and keeps the level, so the new head earns it
      only by what earlier polls had read of it. */
  lemma ClosingPushKeepsTheLevel(cfg: Config, h: seq<Observation>, t: Tracked, o: Observation)
    requires ClosingPush(t.row, o) && ReadsNothing(o)
    ensures var row := ApplyPr(cfg, t, o).row;
      row.head == o.head && row.level == t.row.level &&
      (Earned(cfg, h + [o], o.number, row) <==> Earned(cfg, h, o.number, t.row.(head := o.head)))
  {
    ClosingReadsNothing(cfg, h, o, o.head);
  }

  lemma UnseenHeadIsUnproved(cfg: Config, h: seq<Observation>, row: PrRow, o: Observation)
    requires ClosingPush(row, o) && forall i :: 0 <= i < |h| && h[i].number == o.number ==> h[i].head != o.head
    ensures Outruns(cfg, h, row, o)
  {
    assert forall i :: 0 <= i < |h| ==> !GreenAt(cfg, h[i], o.number, o.head);
  }

  /** Exactly when a poll of a pull request with an earned level leaves it unearned: when it brings another
      head together with the close, the level is above the first and below the merge, and what was read
      of that head before does not reach it. */
  lemma PollLosesTheLevelIff(cfg: Config, h: seq<Observation>, t: Tracked, o: Observation)
    requires TrackedOk(cfg, h, o.number, t) && Polls(t.item.state) && Earned(cfg, h, o.number, t.row)
    requires ChecksWanted(t.item.state, o) || ReadsNothing(o)
    ensures Earned(cfg, h + [o], o.number, ApplyPr(cfg, t, o).row) <==> !Outruns(cfg, h, t.row, o)
  {
    hide Earned;
    PollIsOk(cfg, h, t, o);
    if ClosingPush(t.row, o) {
      ClosingPushKeepsTheLevel(cfg, h, t, o);
    }
  }

  lemma PollLoses(cfg: Config, w: World, o: Observation, k: nat)
    requires Inv(cfg, w) && Enabled(cfg, w, Poll(o)) && k in w.rows && Earned(cfg, w.history, k, w.rows[k])
    ensures var v := Next(cfg, w, Poll(o)); Earned(cfg, v.history, k, v.rows[k]) <==> !Loses(cfg, w, Poll(o), k)
  {
    hide Earned, Outruns, TrackedOk, ApplyPr, Inv;
    RowLasts(cfg, w.history, o, k, w.rows[k]);
    if o.number == k {
      TracksItsPull(cfg, w, k);
      PollLosesTheLevelIff(cfg, w.history, Tracked(w.item, w.rows[k]), o);
    }
  }

  /** The verification of an item leaves its first recorded pull request with an earned level exactly when
      that one was merged. */
  lemma VerificationEarnsIff(cfg: Config, w: World, k: nat)
    requires Inv(cfg, w) && Enabled(cfg, w, Verify) && k in w.rows && Earned(cfg, w.history, k, w.rows[k])
    ensures k in Next(cfg, w, Verify).rows
    ensures !Loses(cfg, w, Verify, k) ==> Earned(cfg, w.history, k, Next(cfg, w, Verify).rows[k])
    ensures MergesStay(w.history) ==>
      (Earned(cfg, w.history, k, Next(cfg, w, Verify).rows[k]) <==> !Loses(cfg, w, Verify, k))
  {
    assert RowOk(w.history, k, w.rows[k]);
  }

  lemma StepLosesIff(cfg: Config, w: World, s: Step, k: nat)
    requires Inv(cfg, w) && Enabled(cfg, w, s) && k in Next(cfg, w, s).rows
    requires k in w.rows ==> Earned(cfg, w.history, k, w.rows[k])
    ensures var v := Next(cfg, w, s);
      (!Loses(cfg, w, s, k) ==> Earned(cfg, v.history, k, v.rows[k])) &&
      (MergesStay(w.history) ==> (Earned(cfg, v.history, k, v.rows[k]) <==> !Loses(cfg, w, s, k)))
  {
    hide Earned, Outruns, Inv, ApplyPr, ReadsWhatItAsks, MergesStay;
    match s
    case Report(number, head) => RecordedIsEarned(cfg, w, number, head, k);
    case Poll(o) => PollLoses(cfg, w, o, k);
    case Verify => VerificationEarnsIff(cfg, w, k);
    case Other(_, _) =>
  }

  /** A row keeps an earned level, across every push, close, reopening, merge, retry, second pull request
      and verification, unless one of the two losing steps was taken. */
  lemma {:induction false} LevelIsEarned(cfg: Config, worlds: seq<World>, n: nat, k: nat)
    requires IsHistory(cfg, worlds) && n < |worlds| && k in worlds[n].rows && !Lost(cfg, worlds, n, k)
    ensures Earned(cfg, worlds[n].history, k, worlds[n].rows[k])
  {
    hide Earned, Loses, Inv, Next, Enabled;
    if n > 0 {
      var w, v := worlds[n - 1], worlds[n];
      assert Linked(cfg, w, v);
      var s :| Leads(cfg, w, s, v);
      HistoryKeeps(cfg, worlds, n - 1);
      if k in w.rows {
        LevelIsEarned(cfg, worlds, n - 1, k);
      }
      assert !LostAt(cfg, worlds, n - 1, k);
      assert !LosesBy(cfg, w, s, v, k);
      StepLosesIff(cfg, w, s, k);
    }
  }

  /** What was done between two worlds of a history can be told from them, as far as losing goes. */
  lemma SameLoss(cfg: Config, w: World, v: World, s: Step, z: Step, k: nat)
    requires Inv(cfg, w) && Leads(cfg, w, s, v) && Leads(cfg, w, z, v)
    ensures Loses(cfg, w, s, k) ==> Loses(cfg, w, z, k)
  {
    hide Outruns, RowOk, ItemOk, ReadsWhatItAsks, ApplyPr;
    if s.Poll? {
      assert v.history[|w.history|] == s.o;
      assert z.Poll? && v.history[|w.history|] == z.o;
    } else if s.Verify? {
      assert w.item.state == AwaitingRescan && v.item.state == Verified;
      if z.Other? {
        OnlyRescanVerifies(w.item.state, z.e);
      }
    }
  }

  /** At every step of every history the earned level is lost exactly when the step is one of the two
      losing ones, provided a merged pull request stays merged. */
  lemma LevelIsLostIff(cfg: Config, worlds: seq<World>, n: nat, k: nat)
    requires IsHistory(cfg, worlds) && n + 1 < |worlds| && k in worlds[n + 1].rows && !Lost(cfg, worlds, n, k)
    requires MergesStay(worlds[n].history)
    ensures Earned(cfg, worlds[n + 1].history, k, worlds[n + 1].rows[k]) <==> !Lost(cfg, worlds, n + 1, k)
  {
    hide Earned, Loses, Inv, Next, Enabled, MergesStay;
    var w, v := worlds[n], worlds[n + 1];
    assert Linked(cfg, w, v);
    var s :| Leads(cfg, w, s, v);
    HistoryKeeps(cfg, worlds, n);
    if k in w.rows {
      LevelIsEarned(cfg, worlds, n, k);
    }
    StepLosesIff(cfg, w, s, k);
    LostNext(cfg, worlds, n, s, k);
  }

  /** Rows are never deleted. */
  lemma {:induction false} RowsStay(cfg: Config, worlds: seq<World>, m: nat, n: nat, k: nat)
    requires IsHistory(cfg, worlds) && m <= n < |worlds| && k in worlds[m].rows
    ensures k in worlds[n].rows
  {
    if m < n {
      RowsStay(cfg, worlds, m, n - 1, k);
      assert Linked(cfg, worlds[n - 1], worlds[n]);
    }
  }

  lemma ClosingCloses(cfg: Config, w: World, o: Observation, k: nat)
    requires k in w.rows && Enabled(cfg, w, Poll(o)) && o.number == k && ClosingPush(w.rows[k], o)
    ensures Next(cfg, w, Poll(o)).rows[k].state == ClosedPr
  {
  }

  /** A step after which the pull request still counts as open loses exactly if it verifies its item. */
  lemma OpenStepLoses(cfg: Config, w: World, s: Step, k: nat)
    requires Inv(cfg, w) && Enabled(cfg, w, s) && k in Next(cfg, w, s).rows && Next(cfg, w, s).rows[k].state == OpenPr
    ensures Loses(cfg, w, s, k) <==> IsVerifiedRow(Next(cfg, w, s), k) && !IsVerifiedRow(w, k)
    ensures IsVerifiedRow(w, k) ==> IsVerifiedRow(Next(cfg, w, s), k)
  {
    hide RowOk, ItemOk, StatesTell, ApplyPr, ReadsWhatItAsks, ClosingPush, NextWorkItemState, Advance;
    match s
    case Report(number, head) =>
      assert To(To(w.item, PrOpened), ChecksStarted).state == ChecksRunning by {
        Delivers(w.item);
      }
    case Poll(o) =>
      PollWrites(cfg, Tracked(w.item, w.rows[o.number]), o);
      if Loses(cfg, w, s, k) {
        ClosingCloses(cfg, w, o, k);
      }
    case Verify => VerifiesItem(w.item);
    case Other(e, it) =>
      if w.item.state == Verified {
        VerifiedStays(e);
      } else {
        OnlyRescanVerifies(w.item.state, e);
      }
  }

  lemma Delivers(it: Item)
    requires it.state == SessionActive
    ensures To(To(it, PrOpened), ChecksStarted).state == ChecksRunning
  {
  }

  lemma VerifiesItem(it: Item)
    requires it.state == AwaitingRescan
    ensures To(it, RescanVerified).state == Verified
  {
  }

  lemma LostNext(cfg: Config, worlds: seq<World>, n: nat, s: Step, k: nat)
    requires IsHistory(cfg, worlds) && n + 1 < |worlds| && Leads(cfg, worlds[n], s, worlds[n + 1])
    ensures Lost(cfg, worlds, n + 1, k) <==> Lost(cfg, worlds, n, k) || Loses(cfg, worlds[n], s, k)
    ensures Lost(cfg, worlds, n, k) ==> k in worlds[n].rows
  {
    hide Loses, Inv, Leads;
    var w, v := worlds[n], worlds[n + 1];
    HistoryKeeps(cfg, worlds, n);
    if Loses(cfg, w, s, k) {
      assert LosesBy(cfg, w, s, v, k);
      assert LostAt(cfg, worlds, n, k);
    } else {
      forall z ensures !LosesBy(cfg, w, z, v, k) {
        if LosesBy(cfg, w, z, v, k) {
          SameLoss(cfg, w, v, z, s, k);
        }
      }
      assert !LostAt(cfg, worlds, n, k);
    }
    if Lost(cfg, worlds, n, k) {
      var m :| 0 <= m < n && LostAt(cfg, worlds, m, k);
      assert LostBetween(cfg, worlds[m], worlds[m + 1], k);
      var z :| LosesBy(cfg, worlds[m], z, worlds[m + 1], k);
      assert Loses(cfg, worlds[m], z, k);
      LosesKnown(cfg, worlds[m], z, k);
      RowsStay(cfg, worlds, m, n, k);
    }
  }

  lemma LosesKnown(cfg: Config, w: World, s: Step, k: nat)
    requires Loses(cfg, w, s, k)
    ensures k in w.rows
  {
  }

  /** A pull request never seen closed or merged has no more than the four levels below the merge, unless it
      was the first recorded one and its item was verified; nothing but that verification made it lose. */
  lemma {:induction false} OpenRowsStayBelowMerge(cfg: Config, worlds: seq<World>, n: nat, k: nat)
    requires IsHistory(cfg, worlds) && n < |worlds| && k in worlds[n].rows && worlds[n].rows[k].state == OpenPr
    ensures if IsVerifiedRow(worlds[n], k) then worlds[n].rows[k].level == 6 else worlds[n].rows[k].level <= 4
    ensures Lost(cfg, worlds, n, k) <==> IsVerifiedRow(worlds[n], k)
  {
    hide RowOk, ItemOk, Next, Enabled, Loses;
    HistoryKeeps(cfg, worlds, n);
    if n > 0 {
      var w, v := worlds[n - 1], worlds[n];
      assert Linked(cfg, w, v);
      var s :| Leads(cfg, w, s, v);
      HistoryKeeps(cfg, worlds, n - 1);
      OpenStepLoses(cfg, w, s, k);
      LostNext(cfg, worlds, n - 1, s, k);
      if k in w.rows {
        OpenStaysOpen(cfg, w, s, k);
        OpenRowsStayBelowMerge(cfg, worlds, n - 1, k);
      }
    }
  }

  lemma OpenStaysOpen(cfg: Config, w: World, s: Step, k: nat)
    requires Enabled(cfg, w, s) && k in w.rows && k in Next(cfg, w, s).rows && Next(cfg, w, s).rows[k].state == OpenPr
    ensures w.rows[k].state == OpenPr
  {
    hide ApplyPr, ReadsWhatItAsks;
    if s.Poll? && s.o.number == k {
      PollWrites(cfg, Tracked(w.item, w.rows[k]), s.o);
    }
  }
}
