/** The pull request poll as it runs: it writes the columns of one work item and its pull request in
    place, and is proved to do what `PrEvidence.ApplyPr` says. */
module PrTracker {
  import opened Domain
  import opened StateTables
  import opened PrEvidence

  /** The verdict over the checks just read. */
  method ReadVerdict(cfg: Config, checks: seq<CheckRun>) returns (verdict: Verdict)
    ensures verdict == ChecksVerdict(cfg, checks)
    ensures verdict == Green <==> ShowsGreen(cfg.required, checks)
    ensures verdict == Red <==> ShowsRed(cfg.required, checks)
  {
    hide ShowsGreen, ShowsRed, ChecksVerdict, Reported;
    var names: set<string> := {};
    var relevant, red, allGreen := false, false, true;
    var i := 0;
    while i < |checks|
      invariant 0 <= i <= |checks|
      invariant forall n :: n in names <==> n in cfg.required && exists j :: 0 <= j < i && checks[j].name == n
      invariant relevant <==> exists j :: j < i && Relevant(cfg, checks, j)
      invariant red <==>
        exists j :: j < i && Relevant(cfg, checks, j) && checks[j].completed && checks[j].conclusion != Success
      invariant allGreen <==>
        forall j :: j < i && Relevant(cfg, checks, j) ==> checks[j].completed && checks[j].conclusion == Success
    {
      var c := checks[i];
      if cfg.required == {} || c.name in cfg.required {
        assert Relevant(cfg, checks, i);
        relevant := true;
        names := names + (if c.name in cfg.required then {c.name} else {});
        red := red || (c.completed && c.conclusion != Success);
        allGreen := allGreen && c.completed && c.conclusion == Success;
      }
      i := i + 1;
    }
    NamesAreAll(cfg.required, checks, names);
    VerdictFrom(cfg, checks, names == cfg.required, relevant, red, allGreen);
    VerdictMeans(cfg, checks);
    if names != cfg.required || !relevant {
      verdict := Running;
    } else if red {
      verdict := Red;
    } else {
      verdict := if allGreen then Green else Running;
    }
  }

  /** The names met cover the required ones exactly when each of these is listed. */
  lemma NamesAreAll(required: set<string>, checks: seq<CheckRun>, names: set<string>)
    requires forall n :: n in names <==> n in required && exists j :: 0 <= j < |checks| && checks[j].name == n
    ensures names == required <==> forall n :: n in required ==> Reported(checks, n)
  {
    if names == required {
      forall n | n in required ensures Reported(checks, n) {
        assert n in names;
      }
    }
  }

  lemma VerdictFrom(cfg: Config, checks: seq<CheckRun>, listed: bool, relevant: bool, red: bool, allGreen: bool)
    requires listed <==> forall n :: n in cfg.required ==> Reported(checks, n)
    requires relevant <==> exists i :: Relevant(cfg, checks, i)
    requires red <==>
      exists i :: Relevant(cfg, checks, i) && checks[i].completed && checks[i].conclusion != Success
    requires allGreen <==>
      forall i :: Relevant(cfg, checks, i) ==> checks[i].completed && checks[i].conclusion == Success
    ensures ChecksVerdict(cfg, checks) ==
      if !listed || !relevant then Running else if red then Red else if allGreen then Green else Running
  {
    hide Relevant, Reported;
  }

  /** Nothing more is to be had from Devin's review of this head. */
  predicate GivenUp(retriggered: set<nat>, o: Observation) {
    match o.review.found
    case Some(Some(r)) => r.status == ReviewCancelled || (r.status == ReviewErrored && o.head in retriggered)
    case _ => false
  }

  /** The review that counts: the one found or, where none was found or it errored, the one asked for. */
  function Answer(retriggered: set<nat>, o: Observation): Option<Review> {
    match o.review.found
    case None => None
    case Some(None) => o.review.triggered
    case Some(Some(r)) => if r.status == ReviewErrored then o.review.triggered else Some(r)
  }

  /** Only a completed review of exactly the polled head makes the item ready. */
  function AfterAnswer(answer: Option<Review>, o: Observation): WorkItemState {
    if answer == Some(Review(ReviewDone, o.head)) then ReadyForHuman
    else if o.overdue then NeedsHuman else ReviewPending
  }

  /** The first of the approvals listed whose author may approve and which is of the polled head. */
  predicate IsFirst(o: Observation, i: int) {
    o.approvals.Some? && 0 <= i < |o.approvals.value| &&
    o.approvals.value[i].trusted && o.approvals.value[i].commit == o.head &&
    forall j :: 0 <= j < i ==> !(o.approvals.value[j].trusted && o.approvals.value[j].commit == o.head)
  }

  class Tracker {
    const cfg: Config
    // the work item
    var state: WorkItemState
    var pr: Option<nat>
    var retries: nat
    var hasSession: bool
    // its pull request
    var head: nat
    var rowState: PrState
    var reviewStatus: Option<ReviewStatus>
    var reviewHead: Option<nat>
    var approvedBy: Option<nat>
    var retriggered: set<nat>
    var level: nat

    ghost function Current(): Tracked
      reads this
    {
      Tracked(Item(state, pr, retries, hasSession),
              PrRow(head, rowState, reviewStatus, reviewHead, approvedBy, retriggered, level))
    }

    constructor (cfg: Config, t: Tracked)
      ensures this.cfg == cfg && Current() == t
    {
      this.cfg := cfg;
      state, pr, retries, hasSession := t.item.state, t.item.pr, t.item.retries, t.item.hasSession;
      head, rowState, reviewStatus, reviewHead := t.row.head, t.row.state, t.row.reviewStatus, t.row.reviewHead;
      approvedBy, retriggered, level := t.row.approvedBy, t.row.retriggered, t.row.level;
    }

    method Apply(e: WorkItemEvent)
      modifies this`state
      ensures state == Advance(old(state), e)
    {
      state := Advance(state, e);
    }

    method RaiseLevel(to: nat)
      modifies this`level
      ensures level == if to > old(level) then to else old(level)
    {
      if to > level {
        level := to;
      }
    }

    /** After a push nothing rests on the old head: the item is in no state that claims evidence, having
        moved only to its checks, and the level is the highest that claims none. */
    method ReverifyNewHead()
      modifies this`state, this`level
      ensures state !in {ReviewPending, ReadyForHuman} && state in {old(state), ChecksRunning}
      ensures state != old(state) ==> old(state) in {ReviewPending, ReadyForHuman}
      ensures level <= 1 && (level == old(level) || level == 1 < old(level))
    {
      if state in {ReviewPending, ReadyForHuman} {
        Apply(NewHeadPushed);
      }
      level := if level < 1 then level else 1;
    }

    /** Another head drops the review and the approver of the old one; while the pull request is open the level goes
        back to the first, and an item whose state rests on the old head to its checks. */
    method NoticeHead(o: Observation)
      modifies this`head, this`reviewStatus, this`approvedBy, this`state, this`level
      ensures Current() == AfterHead(old(Current()), o)
      ensures o.head == old(head) ==> Current() == old(Current())
      ensures o.head != old(head) ==>
        head == o.head && reviewStatus == None && approvedBy == None &&
        level == (if o.merged || o.closed || old(level) < 1 then old(level) else 1) &&
        state ==
          if !o.merged && !o.closed && old(state) in {ReviewPending, ReadyForHuman} then ChecksRunning else old(state)
    {
      if o.head != head {
        head, reviewStatus, approvedBy := o.head, None, None;
        if !o.merged && !o.closed {
          ReverifyNewHead();
        }
      }
    }

    method Merge()
      modifies this`rowState, this`state, this`level
      ensures Current() == AfterMerge(old(Current()))
      ensures Polls(old(state)) ==> state == Merged && level == if old(level) < 5 then 5 else old(level)
      ensures rowState == MergedPr
    {
      rowState := MergedPr;
      if state !in {ReadyForHuman, NeedsHuman} {
        Apply(Blocked);
      }
      if state in {ReadyForHuman, NeedsHuman} {
        Apply(HumanMerged);
        RaiseLevel(5);
      }
    }

    method Close()
      modifies this`rowState, this`state
      ensures Current() == AfterClose(old(Current()))
      ensures Polls(old(state)) ==> state == NeedsHuman
      ensures rowState == ClosedPr
    {
      rowState := ClosedPr;
      if state != NeedsHuman {
        Apply(PrClosedUnmerged);
      }
    }

    /** Sends the session back to a red head while retries last; `false` is a failed outside call. */
    method RetryOrFail(o: Observation) returns (ok: bool)
      modifies this`state, this`retries
      ensures var spent := old(retries) >= cfg.maxRetries || !hasSession;
        ok == (spent || o.messageSent) &&
        (spent ==> state == Advance(old(state), RetriesExhausted) && retries == old(retries)) &&
        (ok && !spent ==> state == Advance(old(state), RetrySent) && retries == old(retries) + 1)
      ensures old(retries) <= cfg.maxRetries ==> retries <= cfg.maxRetries
    {
      if retries >= cfg.maxRetries || !hasSession {
        Apply(RetriesExhausted);
        return true;
      }
      retries := retries + 1;
      if !o.messageSent {
        return false;
      }
      Apply(RetrySent);
      return true;
    }

    /** A review that is overdue goes to a human. */
    method ReviewTimeout(o: Observation)
      modifies this`state
      ensures Current() == TimedOut(old(Current()), o)
      ensures old(state) == ReviewPending ==> state == if o.overdue then NeedsHuman else ReviewPending
    {
      if o.overdue {
        Apply(ReviewNotObserved);
      }
    }

    method TakeReview(o: Observation, r: Review)
      modifies this`state, this`reviewStatus, this`reviewHead, this`level
      ensures Current() == FileReview(old(Current()), o, r)
      ensures old(state) == ReviewPending ==> state == AfterAnswer(Some(r), o)
      ensures if r.commit == o.head then reviewStatus == Some(r.status) && reviewHead == Some(o.head)
              else reviewStatus == old(reviewStatus) && reviewHead == old(reviewHead)
      ensures level == if r == Review(ReviewDone, o.head) && old(level) < 3 then 3 else old(level)
    {
      if r.commit != o.head {
        ReviewTimeout(o);
        return;
      }
      reviewHead, reviewStatus := Some(r.commit), Some(r.status);
      if r.status == ReviewDone {
        Apply(ReviewCompleted);
        RaiseLevel(3);
      } else {
        ReviewTimeout(o);
      }
    }

    /** A review Devin cancelled, or one that errored again on a head it was triggered again for, goes to a human;
        otherwise the answer decides, asked for anew where there was none or an errored one. */
    method CheckReview(o: Observation)
      modifies this`state, this`reviewStatus, this`reviewHead, this`retriggered, this`level
      ensures Current() == AfterReview(old(Current()), o)
      ensures old(state) == ReviewPending ==>
        state == if GivenUp(old(retriggered), o) then NeedsHuman else AfterAnswer(Answer(old(retriggered), o), o)
      ensures retriggered == old(retriggered) +
        (if o.review.found.Some? && o.review.found.value.Some? && o.review.found.value.value.status == ReviewErrored &&
           o.head !in old(retriggered) && o.review.triggered.Some?
         then {o.review.triggered.value.commit} else {})
      ensures level ==
        if !GivenUp(old(retriggered), o) && Answer(old(retriggered), o) == Some(Review(ReviewDone, o.head)) &&
          old(level) < 3 then 3 else old(level)
    {
      if o.review.found.None? {
        ReviewTimeout(o);
        return;
      }
      var snap := o.review.found.value;
      var errored := snap.Some? && snap.value.status == ReviewErrored;
      if snap.Some? && (snap.value.status == ReviewCancelled || (errored && o.head in retriggered)) {
        Apply(ReviewNotObserved);
        return;
      }
      if snap.None? || errored {
        if o.review.triggered.None? {
          ReviewTimeout(o);
          return;
        }
        snap := o.review.triggered;
        if errored {
          retriggered := retriggered + {snap.value.commit};
        }
      }
      TakeReview(o, snap.value);
    }

    /** Records the first approval of the head; `false` is a failed outside call. */
    method CheckApproval(o: Observation) returns (ok: bool)
      modifies this`approvedBy, this`level
      ensures ok == o.approvals.Some?
      ensures ok ==>
        (forall i :: IsFirst(o, i) ==> approvedBy == Some(o.approvals.value[i].author)) &&
        ((forall i :: !IsFirst(o, i)) ==> approvedBy == old(approvedBy))
      ensures approvedBy == old(approvedBy) ==> level == old(level)
      ensures approvedBy != old(approvedBy) ==> level == if old(level) < 4 then 4 else old(level)
      ensures level >= old(level)
      ensures ok ==> Some(Current()) == AfterApproval(old(Current()), o)
      ensures !ok ==> AfterApproval(old(Current()), o) == None
    {
      if o.approvals.None? {
        return false;
      }
      var list := o.approvals.value;
      var i := 0;
      while i < |list|
        invariant 0 <= i <= |list| && approvedBy == old(approvedBy) && level == old(level)
        invariant FirstApproval(o, list) == FirstApproval(o, list[i..])
        invariant forall j :: 0 <= j < i ==> !(list[j].trusted && list[j].commit == o.head)
      {
        if ApprovesHead(o, list[i]) {
          assert IsFirst(o, i);
          if approvedBy != Some(list[i].author) {
            approvedBy := Some(list[i].author);
            RaiseLevel(4);
          }
          return true;
        }
        i := i + 1;
      }
      return true;
    }

    method GoOnGreen(o: Observation) returns (ok: bool)
      modifies this`state, this`reviewStatus, this`reviewHead, this`retriggered, this`approvedBy, this`level
      ensures old(state) in {ChecksRunning, ReviewPending} ==>
        state == if GivenUp(old(retriggered), o) then NeedsHuman else AfterAnswer(Answer(old(retriggered), o), o)
      ensures old(state) == ReadyForHuman ==> state == ReadyForHuman
      ensures old(state) in {ChecksRunning, ReviewPending, ReadyForHuman} ==>
        ok == (state == ReadyForHuman ==> o.approvals.Some?)
      ensures old(state) == ChecksRunning ==> level >= 2
      ensures ok ==> Some(Current()) == AfterGreen(old(Current()), o)
      ensures !ok ==> AfterGreen(old(Current()), o) == None
    {
      if state == ChecksRunning {
        Apply(ChecksGreen);
        RaiseLevel(2);
      }
      if state == ReviewPending {
        CheckReview(o);
      }
      ok := true;
      if state == ReadyForHuman {
        ok := CheckApproval(o);
      }
    }

    method GoOnRed(o: Observation) returns (ok: bool)
      modifies this`state, this`retries
      ensures old(state) in {ChecksRunning, ReviewPending, ReadyForHuman} ==>
        var spent := old(retries) >= cfg.maxRetries || !hasSession;
        ok == (spent || o.messageSent) && (spent ==> state == Failed && retries == old(retries)) &&
        (ok && !spent ==> state == SessionActive && retries == old(retries) + 1)
      ensures ok ==> Some(Current()) == AfterRed(cfg, old(Current()), o)
      ensures !ok ==> AfterRed(cfg, old(Current()), o) == None
    {
      ok := true;
      if state in {ChecksRunning, ReviewPending, ReadyForHuman} {
        Apply(ChecksRed);
        ok := RetryOrFail(o);
      }
    }

    method WeighChecks(o: Observation) returns (ok: bool)
      modifies this`state, this`retries, this`reviewStatus, this`reviewHead, this`retriggered, this`approvedBy,
        this`level
      ensures Polls(old(state)) && old(state) != NeedsHuman ==>
        var begun := if old(state) == PrOpen then ChecksRunning else old(state);
        var spent := old(retries) >= cfg.maxRetries || !hasSession;
        if ShowsRed(cfg.required, o.checks) then
          ok == (spent || o.messageSent) && (ok ==> state == if spent then Failed else SessionActive) &&
          (ok && !spent ==> retries == old(retries) + 1)
        else if !ShowsGreen(cfg.required, o.checks) then ok && state == begun && level == old(level)
        else
          ok == (state == ReadyForHuman ==> o.approvals.Some?) &&
          state ==
            if begun == ReadyForHuman then ReadyForHuman
            else if GivenUp(old(retriggered), o) then NeedsHuman
            else AfterAnswer(Answer(old(retriggered), o), o)
      ensures ok ==> Some(Current()) == AfterChecks(cfg, old(Current()), o)
      ensures !ok ==> AfterChecks(cfg, old(Current()), o) == None
    {
      var verdict := ReadVerdict(cfg, o.checks);
      if state == PrOpen {
        Apply(ChecksStarted);
      }
      ok := true;
      if verdict == Red {
        ok := GoOnRed(o);
      } else if verdict == Green {
        ok := GoOnGreen(o);
      }
    }

    method Roll(back: Tracked)
      modifies this
      ensures Current() == back
    {
      state, pr, retries, hasSession := back.item.state, back.item.pr, back.item.retries, back.item.hasSession;
      head, rowState, reviewStatus, reviewHead := back.row.head, back.row.state, back.row.reviewStatus,
        back.row.reviewHead;
      approvedBy, retriggered, level := back.row.approvedBy, back.row.retriggered, back.row.level;
    }

    /** One poll in its own transaction: committed whole, or rolled back when an outside call fails. A merge ends
        the polling and a close goes to a human; an item a human owns is only followed; otherwise the checks of the
        head decide, and on a green head its review. */
    method Poll(o: Observation)
      modifies this
      ensures Current() == ApplyPr(cfg, old(Current()), o)
      ensures Polls(old(state)) && o.merged ==> state == Merged && rowState == MergedPr && head == o.head
      ensures Polls(old(state)) && !o.merged && o.closed ==>
        state == NeedsHuman && rowState == ClosedPr && head == o.head
      ensures old(state) == NeedsHuman && !o.merged && !o.closed ==> state == NeedsHuman && head == o.head
      ensures Polls(old(state)) && !o.merged && !o.closed && old(state) != NeedsHuman ==>
        var begun := if old(state) == PrOpen || o.head != old(head) then ChecksRunning else old(state);
        var spent := old(retries) >= cfg.maxRetries || !hasSession;
        if ShowsRed(cfg.required, o.checks) then
          if spent then state == Failed
          else if o.messageSent then state == SessionActive && retries == old(retries) + 1
          else Current() == old(Current())
        else if !ShowsGreen(cfg.required, o.checks) then state == begun && head == o.head
        else
          var after :=
            if begun == ReadyForHuman then ReadyForHuman
            else if GivenUp(old(retriggered), o) then NeedsHuman
            else AfterAnswer(Answer(old(retriggered), o), o);
          if after == ReadyForHuman && o.approvals == None then Current() == old(Current())
          else state == after && head == o.head
    {
      hide ShowsGreen, ShowsRed, AfterChecks, GivenUp, Answer, AfterAnswer, AfterHead, AfterMerge, AfterClose;
      var before := Tracked(Item(state, pr, retries, hasSession),
                            PrRow(head, rowState, reviewStatus, reviewHead, approvedBy, retriggered, level));
      NoticeHead(o);
      if o.merged {
        Merge();
      } else if o.closed {
        Close();
      } else if state != NeedsHuman {
        var ok := WeighChecks(o);
        if !ok {
          Roll(before);
        }
      }
    }
  }
}
