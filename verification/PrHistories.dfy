/** Histories of a pull request: healthy heads always arrive, red ones run out of retries, and one history
    that loses the level it had earned. */
module PrHistories {
  import opened Domain
  import opened StateTables
  import opened PrEvidence
  import opened PrProgress

  // ---------------------------------------------------------------- healthy heads arrive

  /** `os` are polled one after the other from `w`, ending in `v`. */
  ghost predicate PolledTo(cfg: Config, w: World, os: seq<Observation>, v: World)
    decreases |os|
  {
    if os == [] then v == w
    else Enabled(cfg, w, Poll(os[0])) && PolledTo(cfg, Next(cfg, w, Poll(os[0])), os[1..], v)
  }

  predicate OnTheWay(s: WorkItemState) {
    s == PrOpen || InFlight(s)
  }

  ghost predicate Tracks(w: World, k: nat) {
    w.item.pr == Some(k) && k in w.rows && OnTheWay(w.item.state)
  }

  /** The poll reads an open pull request whose checks are still running. */
  ghost predicate Waits(cfg: Config, o: Observation, k: nat) {
    o.number == k && Untouched(o) && ChecksVerdict(cfg, o.checks) == Running && NoReview(o)
  }

  predicate NoReview(o: Observation) {
    o.review == ReviewAnswers(None, None) && o.approvals == None
  }

  /** The poll reads an open pull request whose head is green and whose approvals can be listed. */
  ghost predicate IsHealthy(cfg: Config, o: Observation, k: nat) {
    o.number == k && Untouched(o) && ChecksVerdict(cfg, o.checks) == Green && o.approvals.Some?
  }

  /** The poll with the completed review of its head, if it asks for one. */
  ghost function Answered(cfg: Config, t: Tracked, o: Observation): Observation {
    o.(review := ReviewAnswers(if AsksReview(cfg, t, o) then Some(Some(Review(ReviewDone, o.head))) else None, None))
  }

  lemma WaitingPollStays(cfg: Config, t: Tracked, o: Observation)
    requires OnTheWay(t.item.state) && Waits(cfg, o, o.number)
    ensures ReadsWhatItAsks(cfg, t, o) && OnTheWay(ApplyPr(cfg, t, o).item.state)
    ensures ApplyPr(cfg, t, o).item == t.item.(state := ApplyPr(cfg, t, o).item.state)
  {
    hide ChecksVerdict;
  }

  /** A green and reviewed head makes the item ready from every state on the way, an item already ready
      included. */
  lemma HealthyPollEndsReady(cfg: Config, t: Tracked, o: Observation)
    requires OnTheWay(t.item.state) && IsHealthy(cfg, o, o.number)
    ensures var last := Answered(cfg, t, o);
      ReadsWhatItAsks(cfg, t, last) && ApplyPr(cfg, t, last).item == t.item.(state := ReadyForHuman) &&
      ApplyPr(cfg, t, last).row.head == o.head
  {
    hide ChecksVerdict, FirstApproval;
    var last := Answered(cfg, t, o);
    var p := AfterHead(t, last);
    assert AfterHead(t, o) == p && p.item == t.item.(state := p.item.state) && OnTheWay(p.item.state) &&
      p.row.head == o.head;
    if t.item.state != ReadyForHuman {
      HealthyHeadBecomesReady(cfg, t, last);
    } else if o.head != t.row.head {
      HealthyHeadBecomesReady(cfg, p, last);
      assert AfterHead(p, last) == p;
    }
  }

  /** From every reachable state on the way, however many pushes and unfinished checks are polled first, the
      first poll of a green head whose review is completed brings the item to the human, with evidence of
      exactly that head on record and nothing of the item lost. */
  lemma {:induction false} ReadyAfterAnyPushes(
      cfg: Config, w: World, k: nat, waits: seq<Observation>, last: Observation) returns (u: World)
    requires Inv(cfg, w) && Tracks(w, k) && IsHealthy(cfg, last, k)
    requires forall o :: o in waits ==> Waits(cfg, o, k)
    ensures PolledTo(cfg, w, waits, u) && k in u.rows
    ensures var o := Answered(cfg, Tracked(u.item, u.rows[k]), last);
      Enabled(cfg, u, Poll(o)) && EndsReady(cfg, Next(cfg, u, Poll(o)), w.item, k, last.head)
    decreases |waits|
  {
    hide ApplyPr, ChecksVerdict, ReadsWhatItAsks, Answered;
    var t := Tracked(w.item, w.rows[k]);
    if waits == [] {
      u := w;
      HealthyPollEndsReady(cfg, t, last);
      AnsweredPolls(cfg, t, last);
      PollKeeps(cfg, w, Answered(cfg, t, last));
    } else {
      assert waits[0] in waits;
      WaitingPollStays(cfg, t, waits[0]);
      PollKeeps(cfg, w, waits[0]);
      u := ReadyAfterAnyPushes(cfg, Next(cfg, w, Poll(waits[0])), k, waits[1..], last);
    }
  }

  lemma AnsweredPolls(cfg: Config, t: Tracked, o: Observation)
    ensures Answered(cfg, t, o).number == o.number && Answered(cfg, t, o).head == o.head
  {
  }

  /** The item is ready for a human, otherwise as it was, on evidence about exactly this head. */
  ghost predicate EndsReady(cfg: Config, v: World, was: Item, k: nat, head: nat) {
    Inv(cfg, v) && v.item == was.(state := ReadyForHuman) && k in v.rows && v.rows[k].head == head &&
    SawGreen(cfg, v.history, k, head) && SawReview(v.history, k, head)
  }

  // ---------------------------------------------------------------- pushes and humans

  /** Once a poll has seen another head, nothing the first one earned is left, however many unfinished checks
      are polled before and after. */
  lemma {:induction false} NothingSurvivesAPush(cfg: Config, w: World, k: nat, waits: seq<Observation>, v: World)
    requires Tracks(w, k) && PolledTo(cfg, w, waits, v)
    requires forall o :: o in waits ==> Waits(cfg, o, k)
    ensures Tracks(v, k)
    ensures if exists o :: o in waits && o.head != w.rows[k].head then StartsOver(v, k)
            else v.rows[k].head == w.rows[k].head && (StartsOver(w, k) ==> StartsOver(v, k))
    decreases |waits|
  {
    hide ChecksVerdict, ReadsWhatItAsks, StartsOver;
    if waits != [] {
      var o := waits[0];
      assert o in waits;
      var u := Next(cfg, w, Poll(o));
      WaitingPollStays(cfg, Tracked(w.item, w.rows[k]), o);
      PushedWorld(cfg, w, k, o);
      NothingSurvivesAPush(cfg, u, k, waits[1..], v);
      forall q | q in waits ensures q == o || q in waits[1..] {
      }
    }
  }

  /** The item is at its checks and its pull request at the first level, without review or approver. */
  predicate StartsOver(w: World, k: nat) {
    w.item.state in {PrOpen, ChecksRunning} && k in w.rows &&
    w.rows[k].level <= 1 && w.rows[k].reviewStatus == None && w.rows[k].approvedBy == None
  }

  lemma PushedWorld(cfg: Config, w: World, k: nat, o: Observation)
    requires Tracks(w, k) && Enabled(cfg, w, Poll(o)) && Waits(cfg, o, k)
    ensures var u := Next(cfg, w, Poll(o));
      k in u.rows && u.rows[k].head == o.head &&
      (o.head != w.rows[k].head || StartsOver(w, k) ==> StartsOver(u, k))
  {
    hide ChecksVerdict;
    var t := Tracked(w.item, w.rows[k]);
    if InFlight(t.item.state) && o.head != t.row.head && t.row.level >= 1 {
      PushStartsOver(cfg, t, o);
    }
  }

  /** While a human owns the item, no number of polls moves it, unless one sees the merge or the close. */
  lemma {:induction false} HumansItemIsOnlyFollowed(cfg: Config, w: World, os: seq<Observation>, v: World)
    requires w.item.state == NeedsHuman && PolledTo(cfg, w, os, v)
    requires forall o :: o in os ==> Untouched(o)
    ensures v.item == w.item
    decreases |os|
  {
    if os != [] {
      assert os[0] in os;
      HumansItemIsLeftAlone(cfg, Tracked(w.item, w.rows[os[0].number]), os[0]);
      HumansItemIsOnlyFollowed(cfg, Next(cfg, w, Poll(os[0])), os[1..], v);
    }
  }

  /** From every reachable state, a poll that sees the merge ends the tracking with the merge on record as
      earned, and a poll that sees the close leaves the item to a human. */
  lemma MergeAndCloseEndTheWork(cfg: Config, w: World, o: Observation)
    requires Inv(cfg, w) && Enabled(cfg, w, Poll(o)) && !Untouched(o)
    ensures o.number in Next(cfg, w, Poll(o)).rows
    ensures o.merged ==> EndsMerged(cfg, Next(cfg, w, Poll(o)), w.item, o.number)
    ensures !o.merged ==>
      Next(cfg, w, Poll(o)).item == w.item.(state := NeedsHuman) &&
      Next(cfg, w, Poll(o)).rows[o.number].state == ClosedPr
  {
    hide ChecksVerdict, ReadsWhatItAsks;
    var t := Tracked(w.item, w.rows[o.number]);
    MergeAndCloseAreFinal(cfg, t, o);
    MergesLast(w.history, o, o.number);
    if o.merged {
      MergeRaises(cfg, t, o);
    }
  }

  ghost predicate EndsMerged(cfg: Config, v: World, was: Item, k: nat) {
    v.item == was.(state := Merged) && k in v.rows && v.rows[k].state == MergedPr && v.rows[k].level >= 5 &&
    Earned(cfg, v.history, k, v.rows[k]) && forall o :: !Enabled(cfg, v, Poll(o))
  }

  lemma MergeRaises(cfg: Config, t: Tracked, o: Observation)
    requires Polls(t.item.state) && o.merged
    ensures ApplyPr(cfg, t, o).row.level >= 5
  {
  }

  // ---------------------------------------------------------------- errored reviews

  /** A poll of the head found its review errored, triggered it again and got an answer about the head. */
  ghost predicate TriggersAgain(cfg: Config, t: Tracked, o: Observation) {
    AsksReview(cfg, t, o) && ReadsError(o) && AsksTrigger(t, o) &&
    o.review.triggered.Some? && o.review.triggered.value.commit == o.head
  }

  lemma ReviewRemembers(t: Tracked, o: Observation)
    requires t.item.state == ReviewPending && o.head !in t.row.retriggered
    ensures var again := ReadsError(o) && o.review.triggered.Some? && o.review.triggered.value.commit == o.head;
      (o.head in AfterReview(t, o).row.retriggered <==> again) &&
      (again ==> (AfterReview(t, o).item.state == ReadyForHuman <==> o.review.triggered.value.status == ReviewDone))
  {
  }

  lemma ApprovalKeepsTriggers(t: Tracked, o: Observation)
    ensures AfterApproval(t, o).Some? <==> o.approvals.Some?
    ensures AfterApproval(t, o).Some? ==> AfterApproval(t, o).value.row.retriggered == t.row.retriggered
  {
    hide FirstApproval;
  }

  /** A re-trigger is remembered for the polled head exactly when its answer is about that head and the poll
      is not rolled back, which happens when the review is answered as completed and the approvals cannot
      be listed. */
  lemma RetriggerIsRememberedIff(cfg: Config, t: Tracked, o: Observation)
    requires ReadsWhatItAsks(cfg, t, o) && o.head !in t.row.retriggered
    ensures o.head in ApplyPr(cfg, t, o).row.retriggered <==>
      TriggersAgain(cfg, t, o) && !(o.review.triggered.value.status == ReviewDone && o.approvals == None)
  {
    hide ChecksVerdict, AfterReview, AfterApproval, ReadsError, AsksTrigger;
    var p := AfterHead(t, o);
    var green := Greened(Started(p));
    assert p.row.retriggered == green.row.retriggered == t.row.retriggered;
    ErrorAsks(t, o);
    if green.item.state == ReviewPending {
      ReviewRemembers(green, o);
    }
    ApprovalKeepsTriggers(Reviewed(Started(p), o), o);
  }

  lemma ErrorAsks(t: Tracked, o: Observation)
    requires o.head !in t.row.retriggered
    ensures ReadsError(o) ==> AsksTrigger(t, o)
  {
  }

  lemma ReviewForgetsNothing(t: Tracked, o: Observation)
    ensures t.row.retriggered <= AfterReview(t, o).row.retriggered
  {
    hide Advance;
  }

  lemma PollForgetsNothing(cfg: Config, t: Tracked, o: Observation)
    ensures t.row.retriggered <= ApplyPr(cfg, t, o).row.retriggered
  {
    hide ChecksVerdict, AfterApproval, Advance, AfterReview;
    var started := Started(AfterHead(t, o));
    ReviewForgetsNothing(Greened(started), o);
    ApprovalKeepsTriggers(Reviewed(started, o), o);
  }

  lemma {:induction false} RetriggersStay(cfg: Config, worlds: seq<World>, m: nat, n: nat, k: nat, head: nat)
    requires IsHistory(cfg, worlds) && m <= n < |worlds|
    requires k in worlds[m].rows && head in worlds[m].rows[k].retriggered
    ensures k in worlds[n].rows && head in worlds[n].rows[k].retriggered
  {
    hide ApplyPr, ReadsWhatItAsks;
    if m < n {
      RetriggersStay(cfg, worlds, m, n - 1, k, head);
      var w := worlds[n - 1];
      assert Linked(cfg, w, worlds[n]);
      var s :| Leads(cfg, w, s, worlds[n]);
      if s.Poll? {
        PollForgetsNothing(cfg, Tracked(w.item, w.rows[s.o.number]), s.o);
      }
    }
  }

  /** Once a re-trigger of a head was remembered, no later poll of that head triggers its review again
      whatever was polled between: the next error hands the item to a human. */
  lemma RememberedHeadIsNotTriggeredAgain(cfg: Config, worlds: seq<World>, m: nat, n: nat, o: Observation)
    requires IsHistory(cfg, worlds) && m <= n < |worlds| && Enabled(cfg, worlds[n], Poll(o))
    requires o.number in worlds[m].rows && o.head in worlds[m].rows[o.number].retriggered
    requires AsksReview(cfg, Tracked(worlds[n].item, worlds[n].rows[o.number]), o) && ReadsError(o)
    ensures o.review.triggered == None
    ensures Next(cfg, worlds[n], Poll(o)).item == worlds[n].item.(state := NeedsHuman)
  {
    hide ApplyPr, AsksReview, AsksApprovals;
    RetriggersStay(cfg, worlds, m, n, o.number, o.head);
    SecondErrorGoesToAHuman(cfg, Tracked(worlds[n].item, worlds[n].rows[o.number]), o);
  }

  // ---------------------------------------------------------------- red heads run out of retries

  ghost predicate IsRed(cfg: Config, o: Observation, k: nat) {
    o.number == k && Untouched(o) && o.messageSent && NoReview(o) && ChecksVerdict(cfg, o.checks) == Red
  }

  /** Every head of `reds` is polled red, and the session answers each with a new delivery. */
  ghost predicate Rounds(cfg: Config, w: World, k: nat, reds: seq<Observation>, v: World)
    decreases |reds|
  {
    if reds == [] then v == w
    else
      Enabled(cfg, w, Poll(reds[0])) &&
      var sent := Next(cfg, w, Poll(reds[0]));
      Enabled(cfg, sent, Report(k, reds[0].head)) &&
      Rounds(cfg, Next(cfg, sent, Report(k, reds[0].head)), k, reds[1..], v)
  }

  lemma DeliveryRestarts(cfg: Config, w: World, k: nat, head: nat)
    requires w.item.state == SessionActive
    ensures Next(cfg, w, Report(k, head)).item == w.item.(state := ChecksRunning, pr := Some(k))
    ensures k in Next(cfg, w, Report(k, head)).rows
  {
    assert To(To(w.item, PrOpened), ChecksStarted).state == ChecksRunning;
  }

  /** A session whose every delivery is red gets exactly its remaining retries, on whatever heads and with
      whatever pushes between, and the next red head fails the item. */
  lemma {:induction false} RetriesRunOut(cfg: Config, w: World, k: nat, reds: seq<Observation>, last: Observation)
    returns (v: World)
    requires w.item.pr == Some(k) && k in w.rows && InFlight(w.item.state) && w.item.hasSession
    requires w.item.retries + |reds| == cfg.maxRetries && IsRed(cfg, last, k)
    requires forall o :: o in reds ==> IsRed(cfg, o, k)
    ensures Rounds(cfg, w, k, reds, v) && v.item.retries == cfg.maxRetries
    ensures Enabled(cfg, v, Poll(last)) && Next(cfg, v, Poll(last)).item.state == Failed
    decreases |reds|
  {
    if reds == [] {
      v := w;
      RedHeadIsRetriedOrFails(cfg, Tracked(w.item, w.rows[k]), last);
    } else {
      assert reds[0] in reds;
      RedHeadIsRetriedOrFails(cfg, Tracked(w.item, w.rows[k]), reds[0]);
      var sent := Next(cfg, w, Poll(reds[0]));
      DeliveryRestarts(cfg, sent, k, reds[0].head);
      v := RetriesRunOut(cfg, Next(cfg, sent, Report(k, reds[0].head)), k, reds[1..], last);
    }
  }

  // ---------------------------------------------------------------- a level that is lost

  lemma Grows(cfg: Config, worlds: seq<World>, s: Step, v: World)
    requires IsHistory(cfg, worlds) && Leads(cfg, worlds[|worlds| - 1], s, v)
    ensures IsHistory(cfg, worlds + [v])
  {
    var longer := worlds + [v];
    forall n | 0 <= n < |longer| - 1 ensures Linked(cfg, longer[n], longer[n + 1]) {
      if n < |worlds| - 1 {
        assert Linked(cfg, worlds[n], worlds[n + 1]);
      } else {
        assert Leads(cfg, longer[n], s, longer[n + 1]);
      }
    }
  }

  const ANY_CHECK := Config({}, 1)

  const GREEN_10 := Observation(1, 10, false, false, [CheckRun("unit-tests", true, Success)],
                               ReviewAnswers(None, None), None, true, false)

  const CLOSED_11 := Observation(1, 11, false, true, [], ReviewAnswers(None, None), None, true, false)

  const OPENED := PrRow(10, OpenPr, None, None, None, {}, 1)

  /** The item up to the delivery of its first pull request. */
  lemma Delivered() returns (worlds: seq<World>)
    ensures |worlds| > 0 && IsHistory(ANY_CHECK, worlds)
    ensures worlds[|worlds| - 1] == World(Item(ChecksRunning, Some(1), 0, true), map[1 := OPENED], Some(1), [])
  {
    var a, b, c := Item(IssueOpen, None, 0, false), Item(Dispatching, None, 0, false),
      Item(SessionActive, None, 0, true);
    worlds := Happened([NEW_WORLD], IssueCreated, a);
    worlds := Happened(worlds, DispatchStarted, b);
    worlds := Happened(worlds, SessionCreated, c);
    var w := worlds[|worlds| - 1];
    DeliveryRestarts(ANY_CHECK, w, 1, 10);
    worlds := Went(worlds, Report(1, 10));
  }

  /** One more step. */
  lemma Went(worlds: seq<World>, s: Step) returns (longer: seq<World>)
    requires IsHistory(ANY_CHECK, worlds) && Enabled(ANY_CHECK, worlds[|worlds| - 1], s)
    ensures IsHistory(ANY_CHECK, longer) && |longer| == |worlds| + 1 && longer[..|worlds|] == worlds
    ensures longer[|worlds|] == Next(ANY_CHECK, worlds[|worlds| - 1], s)
  {
    hide Enabled, Next;
    Grows(ANY_CHECK, worlds, s, Next(ANY_CHECK, worlds[|worlds| - 1], s));
    longer := worlds + [Next(ANY_CHECK, worlds[|worlds| - 1], s)];
  }

  /** One more event of the item, which leaves its pull requests alone. */
  lemma Happened(worlds: seq<World>, e: WorkItemEvent, it: Item) returns (longer: seq<World>)
    requires IsHistory(ANY_CHECK, worlds)
    requires var w := worlds[|worlds| - 1];
      e !in {ChecksGreen, ReviewCompleted, RescanVerified} && it.pr == w.item.pr && it.state == Advance(w.item.state, e)
    ensures IsHistory(ANY_CHECK, longer) && |longer| == |worlds| + 1 && longer[..|worlds|] == worlds
    ensures longer[|worlds|] == worlds[|worlds| - 1].(item := it)
  {
    longer := Went(worlds, Other(e, it));
  }

  lemma Green10IsGreen()
    ensures ChecksVerdict(ANY_CHECK, GREEN_10.checks) == Green
  {
    assert Relevant(ANY_CHECK, GREEN_10.checks, 0);
  }

  /** One history that ends with a level its recorded head never earned: green on the first head, then a
      second head first seen together with the close. */
  lemma AClosingPushLosesTheLevel() returns (worlds: seq<World>)
    ensures |worlds| > 1 && IsHistory(ANY_CHECK, worlds)
    ensures var before, after := worlds[|worlds| - 2], worlds[|worlds| - 1];
      1 in before.rows && 1 in after.rows &&
      Earned(ANY_CHECK, before.history, 1, before.rows[1]) && !Earned(ANY_CHECK, after.history, 1, after.rows[1])
  {
    hide IsHistory;
    worlds := Delivered();
    GreenIsPolled(worlds[|worlds| - 1]);
    worlds := Went(worlds, Poll(GREEN_10));
    var green := worlds[|worlds| - 1];
    ClosedIsPolled(green);
    worlds := Went(worlds, Poll(CLOSED_11));
    UnseenHeadIsUnproved(ANY_CHECK, [GREEN_10], green.rows[1], CLOSED_11);
    ClosingPushKeepsTheLevel(ANY_CHECK, [GREEN_10], Tracked(green.item, green.rows[1]), CLOSED_11);
  }

  lemma GreenIsPolled(w: World)
    requires w == World(Item(ChecksRunning, Some(1), 0, true), map[1 := OPENED], Some(1), [])
    ensures Enabled(ANY_CHECK, w, Poll(GREEN_10))
    ensures Next(ANY_CHECK, w, Poll(GREEN_10)) ==
      World(Item(ReviewPending, Some(1), 0, true), map[1 := OPENED.(level := 2)], Some(1), [GREEN_10])
    ensures Earned(ANY_CHECK, [GREEN_10], 1, OPENED.(level := 2))
  {
    Green10IsGreen();
    assert GreenAt(ANY_CHECK, [GREEN_10][0], 1, 10);
  }

  lemma ClosedIsPolled(w: World)
    requires w == World(Item(ReviewPending, Some(1), 0, true), map[1 := OPENED.(level := 2)], Some(1), [GREEN_10])
    ensures Enabled(ANY_CHECK, w, Poll(CLOSED_11))
    ensures Next(ANY_CHECK, w, Poll(CLOSED_11)).history == [GREEN_10] + [CLOSED_11]
    ensures 1 in Next(ANY_CHECK, w, Poll(CLOSED_11)).rows
    ensures Next(ANY_CHECK, w, Poll(CLOSED_11)).rows[1] == ApplyPr(ANY_CHECK, Tracked(w.item, w.rows[1]), CLOSED_11).row
  {
  }

  const CLOSED_10 := CLOSED_11.(head := 10)

  const MERGED_20 := Observation(2, 20, true, false, [], ReviewAnswers(None, None), None, true, false)

  const DELIVERED_2 := PrRow(20, OpenPr, None, None, None, {}, 1)

  /** The first pull request is closed and the item delivered again, as a second one. */
  lemma DeliveredAgain() returns (worlds: seq<World>)
    ensures |worlds| > 0 && IsHistory(ANY_CHECK, worlds)
    ensures worlds[|worlds| - 1] ==
      World(Item(ChecksRunning, Some(2), 0, true), map[1 := OPENED.(state := ClosedPr), 2 := DELIVERED_2], Some(1),
        [CLOSED_10])
  {
    hide IsHistory, ApplyPr, ReadsWhatItAsks;
    worlds := Delivered();
    FirstIsClosed(worlds[|worlds| - 1]);
    worlds := Went(worlds, Poll(CLOSED_10));
    worlds := Happened(worlds, HumanRetry, Item(IssueOpen, Some(1), 0, false));
    worlds := Happened(worlds, DispatchStarted, Item(Dispatching, Some(1), 0, false));
    worlds := Happened(worlds, SessionCreated, Item(SessionActive, Some(1), 0, true));
    DeliveryRestarts(ANY_CHECK, worlds[|worlds| - 1], 2, 20);
    worlds := Went(worlds, Report(2, 20));
  }

  lemma FirstIsClosed(w: World)
    requires w == World(Item(ChecksRunning, Some(1), 0, true), map[1 := OPENED], Some(1), [])
    ensures Enabled(ANY_CHECK, w, Poll(CLOSED_10))
    ensures Next(ANY_CHECK, w, Poll(CLOSED_10)) ==
      World(Item(NeedsHuman, Some(1), 0, true), map[1 := OPENED.(state := ClosedPr)], Some(1), [CLOSED_10])
  {
  }

  lemma SecondIsMerged(w: World)
    requires w == World(Item(ChecksRunning, Some(2), 0, true), map[1 := OPENED.(state := ClosedPr), 2 := DELIVERED_2],
                        Some(1), [CLOSED_10])
    ensures Enabled(ANY_CHECK, w, Poll(MERGED_20))
    ensures Next(ANY_CHECK, w, Poll(MERGED_20)) ==
      World(Item(Merged, Some(2), 0, true),
            map[1 := OPENED.(state := ClosedPr), 2 := DELIVERED_2.(state := MergedPr, level := 5)], Some(1),
              [CLOSED_10, MERGED_20])
  {
    assert [CLOSED_10] + [MERGED_20] == [CLOSED_10, MERGED_20];
  }

  /** One history in which a clean rescan verifies the item and gives the last level to the pull request that
      was closed, while the merged one stays below it. */
  lemma AVerificationRaisesTheClosedOne() returns (worlds: seq<World>)
    ensures |worlds| > 1 && IsHistory(ANY_CHECK, worlds)
    ensures var before, after := worlds[|worlds| - 2], worlds[|worlds| - 1];
      1 in before.rows && 1 in after.rows && 2 in after.rows && after.item.state == Verified &&
      Earned(ANY_CHECK, before.history, 1, before.rows[1]) && !Earned(ANY_CHECK, after.history, 1, after.rows[1]) &&
      after.rows[1].state == ClosedPr && after.rows[1].level == 6 &&
      after.rows[2].state == MergedPr && after.rows[2].level == 5
  {
    hide IsHistory, ApplyPr, ReadsWhatItAsks;
    worlds := DeliveredAgain();
    SecondIsMerged(worlds[|worlds| - 1]);
    worlds := Went(worlds, Poll(MERGED_20));
    worlds := Happened(worlds, RescanStarted, Item(AwaitingRescan, Some(2), 0, true));
    worlds := Went(worlds, Verify);
  }

  /** One history in which an accepted disposition is verified by a rescan and the pull request, still open,
      takes the last level. */
  lemma AVerificationRaisesAnOpenOne() returns (worlds: seq<World>)
    ensures |worlds| > 1 && IsHistory(ANY_CHECK, worlds)
    ensures var before, after := worlds[|worlds| - 2], worlds[|worlds| - 1];
      1 in before.rows && 1 in after.rows && after.item.state == Verified &&
      Earned(ANY_CHECK, before.history, 1, before.rows[1]) && !Earned(ANY_CHECK, after.history, 1, after.rows[1]) &&
      after.rows[1].state == OpenPr && after.rows[1].level == 6
  {
    hide IsHistory;
    worlds := Delivered();
    worlds := Happened(worlds, Blocked, Item(NeedsHuman, Some(1), 0, true));
    worlds := Happened(worlds, HumanResolved, Item(AwaitingRescan, Some(1), 0, true));
    worlds := Went(worlds, Verify);
  }

  /** The head's review errored, and the re-trigger is answered with the review of another commit. */
  const ERRORED_10 := GREEN_10.(review :=
    ReviewAnswers(Some(Some(Review(ReviewErrored, 10))), Some(Review(ReviewRunning, 11))))

  lemma ErrorIsPolled(w: World, history: seq<Observation>, s: WorkItemState, row: PrRow)
    requires s in {ChecksRunning, ReviewPending} && row.head == 10 && 10 !in row.retriggered
    requires row.level == if s == ChecksRunning then 1 else 2
    requires w == World(Item(s, Some(1), 0, true), map[1 := row], Some(1), history)
    ensures Enabled(ANY_CHECK, w, Poll(ERRORED_10))
    ensures Next(ANY_CHECK, w, Poll(ERRORED_10)) ==
      World(Item(ReviewPending, Some(1), 0, true), map[1 := row.(level := 2, retriggered := row.retriggered + {11})],
            Some(1), history + [ERRORED_10])
  {
    hide ChecksVerdict;
    Green10IsGreen();
    var t := Tracked(w.item, row);
    assert Greened(Started(AfterHead(t, ERRORED_10))) == Tracked(t.item.(state := ReviewPending), row.(level := 2));
    var after := row.(level := 2, retriggered := row.retriggered + {11});
    assert Reviewed(t, ERRORED_10) == Tracked(t.item.(state := ReviewPending), after);
  }

  /** One history in which the same errored head is triggered again by every poll: each answer names another
      commit, so nothing is remembered of the head. */
  lemma AnErroredHeadIsTriggeredTwice() returns (worlds: seq<World>)
    ensures |worlds| > 2 && IsHistory(ANY_CHECK, worlds)
    ensures worlds[|worlds| - 1].history == [ERRORED_10, ERRORED_10]
    ensures worlds[|worlds| - 1].item.state == ReviewPending
  {
    hide IsHistory, Enabled, Next;
    worlds := Delivered();
    ErrorIsPolled(worlds[|worlds| - 1], [], ChecksRunning, OPENED);
    worlds := Went(worlds, Poll(ERRORED_10));
    var w := worlds[|worlds| - 1];
    ErrorIsPolled(w, w.history, ReviewPending, w.rows[1]);
    worlds := Went(worlds, Poll(ERRORED_10));
  }
}
