/** What a poll must do, not only what it must not claim: a healthy head reaches the human in one poll,
    and trouble ends where the rules send it. */
module PrProgress {
  import opened Domain
  import opened PrEvidence

  predicate Untouched(o: Observation) {
    !o.merged && !o.closed
  }

  predicate InFlight(s: WorkItemState) {
    s in {ChecksRunning, ReviewPending, ReadyForHuman}
  }

  lemma ReviewedHeadBecomesReady(t: Tracked, o: Observation)
    requires t.item.state in {ChecksRunning, ReviewPending} && t.row.head == o.head && o.approvals.Some?
    requires o.review.found == Some(Some(Review(ReviewDone, o.head)))
    ensures AfterGreen(t, o).Some?
    ensures var u := AfterGreen(t, o).value; var who := FirstApproval(o, o.approvals.value);
      u.item == t.item.(state := ReadyForHuman) && u.row.head == o.head && u.row.level >= 3 &&
      u.row.reviewStatus == Some(ReviewDone) && u.row.reviewHead == Some(o.head) &&
      (who.Some? ==> u.row.approvedBy == who)
  {
    hide FirstApproval;
    var green := if t.item.state == ChecksRunning then Tracked(To(t.item, ChecksGreen), Raise(t.row, 2)) else t;
    assert green.item == t.item.(state := ReviewPending);
    assert AfterReview(green, o) == FileReview(green, o, Review(ReviewDone, o.head));
  }

  /** Any head that is green, reviewed to completion and readable becomes ready within the poll that sees
      it, however far an earlier head had come, with the level it earned and its first approver. */
  lemma HealthyHeadBecomesReady(cfg: Config, t: Tracked, o: Observation)
    requires t.item.state in {PrOpen, ChecksRunning, ReviewPending} && Untouched(o) && o.approvals.Some?
    requires ChecksVerdict(cfg, o.checks) == Green && o.review.found == Some(Some(Review(ReviewDone, o.head)))
    ensures var u := ApplyPr(cfg, t, o); var who := FirstApproval(o, o.approvals.value);
      u.item == t.item.(state := ReadyForHuman) && u.row.head == o.head && u.row.level >= 3 &&
      u.row.reviewStatus == Some(ReviewDone) && u.row.reviewHead == Some(o.head) &&
      (who.Some? ==> u.row.approvedBy == who)
  {
    hide ChecksVerdict, FirstApproval, AfterGreen;
    var p := AfterHead(t, o);
    assert p.item.state in {PrOpen, ChecksRunning, ReviewPending} && p.row.head == o.head;
    var started := if p.item.state == PrOpen then p.(item := To(p.item, ChecksStarted)) else p;
    ReviewedHeadBecomesReady(started, o);
  }

  /** A push takes back whatever the old head had earned: unless the new head is green in the same poll,
      the item is back at its checks or beyond them in trouble, at the first level and without approver. */
  lemma PushStartsOver(cfg: Config, t: Tracked, o: Observation)
    requires InFlight(t.item.state) && Untouched(o) && o.head != t.row.head && t.row.level >= 1
    requires ChecksVerdict(cfg, o.checks) == Running
    ensures var u := ApplyPr(cfg, t, o);
      u.item == t.item.(state := ChecksRunning) && u.row.head == o.head && u.row.level == 1 &&
      u.row.reviewStatus == None && u.row.approvedBy == None
  {
  }

  /** A red head goes back to its session while retries last, costs one of them, and fails the item
      otherwise; when the message cannot be sent nothing happens at all. */
  lemma RedHeadIsRetriedOrFails(cfg: Config, t: Tracked, o: Observation)
    requires InFlight(t.item.state) && Untouched(o) && ChecksVerdict(cfg, o.checks) == Red
    ensures var spent := t.item.retries >= cfg.maxRetries || !t.item.hasSession;
      if spent then ApplyPr(cfg, t, o).item == t.item.(state := Failed)
      else if o.messageSent
      then ApplyPr(cfg, t, o).item == t.item.(state := SessionActive, retries := t.item.retries + 1)
      else ApplyPr(cfg, t, o) == t
  {
    hide ChecksVerdict;
    var p := AfterHead(t, o);
    assert p.item == t.item.(state := p.item.state) && InFlight(p.item.state);
    var red := To(p.item, ChecksRed);
    assert red == t.item.(state := ChecksFailed);
    assert To(red, RetriesExhausted).state == Failed &&
      To(red.(retries := red.retries + 1), RetrySent).state == SessionActive;
  }

  /** The review lookup found an errored review. */
  predicate ReadsError(o: Observation) {
    o.review.found.Some? && o.review.found.value.Some? && o.review.found.value.value.status == ReviewErrored
  }

  /** An errored review of a head already triggered again hands the item to a human. */
  lemma SecondErrorGoesToAHuman(cfg: Config, t: Tracked, o: Observation)
    requires AsksReview(cfg, t, o) && ReadsError(o) && o.head in t.row.retriggered
    ensures ApplyPr(cfg, t, o).item == t.item.(state := NeedsHuman)
  {
    hide ChecksVerdict;
    var p := AfterHead(t, o);
    var green := Greened(Started(p));
    assert green.item == t.item.(state := ReviewPending) && To(green.item, ReviewNotObserved).state == NeedsHuman;
  }

  /** A merge is taken as the human's from every polled state, and a close hands the item to a human. */
  lemma MergeAndCloseAreFinal(cfg: Config, t: Tracked, o: Observation)
    requires Polls(t.item.state)
    ensures o.merged ==> ApplyPr(cfg, t, o).item == t.item.(state := Merged) && ApplyPr(cfg, t, o).row.state == MergedPr
    ensures o.closed && !o.merged ==>
      ApplyPr(cfg, t, o).item == t.item.(state := NeedsHuman) && ApplyPr(cfg, t, o).row.state == ClosedPr
  {
    var p := AfterHead(t, o);
    if o.merged || o.closed {
      assert p.item == t.item;
    }
  }

  /** An item a human owns is only followed: a poll that sees neither merge nor close leaves it alone,
      and changes its row only by a push. */
  lemma HumansItemIsLeftAlone(cfg: Config, t: Tracked, o: Observation)
    requires t.item.state == NeedsHuman && Untouched(o)
    ensures ApplyPr(cfg, t, o).item == t.item
    ensures ApplyPr(cfg, t, o).row == t.row <==> o.head == t.row.head
  {
  }
}
