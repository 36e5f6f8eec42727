/** What recovery after a crash must do, and what an admission hands to the dispatch. */
module DispatchRecovery {
  import opened Domain
  import opened StateTables
  import opened Dispatch
  import opened DispatchSafety
  import opened DispatchTermination

  /** The three steps that resume an item left in `dispatching`, ending in `last`. */
  ghost predicate Resumes(cfg: Config, w: World, i: nat, last: Step, v: World) {
    Enabled(cfg, w, RecoverBegin(i)) &&
    var begun := Next(cfg, w, RecoverBegin(i));
    Enabled(cfg, begun, Lookup(true)) &&
    var found := Next(cfg, begun, Lookup(true));
    Enabled(cfg, found, last) && Next(cfg, found, last) == v
  }

  lemma OnlyLiveSessionIsChosen(cfg: Config, w: World, i: nat, s: nat)
    requires DataOk(cfg, w) && IsLive(w, s) && w.remote[s].tag == i
    ensures Choice(w, i, |w.remote|) == Some(s)
  {
    assert Adoptable(w, i, s);
    var best := Choice(w, i, |w.remote|).value;
    assert Adoptable(w, i, best);
    assert IsLive(w, best);
  }

  lemma NoLiveSessionNoChoice(cfg: Config, w: World, i: nat)
    requires DataOk(cfg, w) && NoLiveSession(w, i)
    ensures Choice(w, i, |w.remote|) == None
  {
    assert forall s: nat :: Adoptable(w, i, s) ==> IsLive(w, s);
  }

  /** Recovery begins and asks Devin; `begun` is the world in which it asks. */
  lemma Asks(cfg: Config, w: World, i: nat)
    requires w.pc == Idle && w.lock == Free && AtDispatch(w, i)
    ensures var begun := w.(pc := Reserved(i, true));
      Enabled(cfg, w, RecoverBegin(i)) && Next(cfg, w, RecoverBegin(i)) == begun && Enabled(cfg, begun, Lookup(true)) &&
      Next(cfg, begun, Lookup(true)) ==
        match Choice(begun, i, |begun.remote|)
        case Some(s) => begun.(pc := Found(i, SnapOf(begun, s)))
        case None => begun.(pc := Clear(i, true))
  {
    hide Move, HasRoom;
  }

  lemma Adopts(cfg: Config, w: World, i: nat, snap: Snap)
    requires w.pc == Found(i, snap) && w.lock == Free && AtDispatch(w, i)
    ensures Enabled(cfg, w, Adopt)
    ensures var v := Next(cfg, w, Adopt);
      v.remote == w.remote && |v.items| == |w.items| && v.pc == Idle &&
      v.items[i].active == Some(snap.sid) && v.items[i].life.state == SessionActive &&
      v.items[i].failures == w.items[i].failures &&
      v.rows == (if snap.sid in w.rows then w.rows else w.rows[snap.sid := Row(i, w.items[i].cap, snap.acus)]) &&
      forall j :: 0 <= j < |w.items| && j != i ==> v.items[j] == w.items[j]
  {
    hide Earlier, IsLive;
  }

  /** A dispatch failure is counted; it releases an item that is being dispatched, until there were too many. */
  lemma FailureMeans(cfg: Config, it: Item)
    ensures var after := DispatchFailure(cfg, it);
      after == it.(life := after.life, failures := it.failures + 1) &&
      (it.life.state == Dispatching ==>
        after.life.state == if after.failures < cfg.maxFailures then IssueOpen else NeedsHuman)
  {
  }

  lemma BindingMeans(it: Item, sid: nat, e: WorkItemEvent)
    requires e in {SessionCreated, SessionAdopted}
    ensures var after := Move(it.(active := Some(sid)), e);
      after == it.(life := after.life, active := Some(sid)) &&
      (it.life.state == Dispatching ==> after.life.state == SessionActive)
  {
  }

  lemma Releases(cfg: Config, w: World, i: nat)
    requires w.pc == Clear(i, true) && w.lock == Free && AtDispatch(w, i)
    ensures Enabled(cfg, w, Fail)
    ensures var v := Next(cfg, w, Fail);
      v.remote == w.remote && v.rows == w.rows && |v.items| == |w.items| && v.pc == Idle &&
      v.items[i].failures == w.items[i].failures + 1 && v.items[i].active == w.items[i].active &&
      v.items[i].life.state == (if w.items[i].failures + 1 >= cfg.maxFailures then NeedsHuman else IssueOpen) &&
      forall j :: 0 <= j < |w.items| && j != i ==> v.items[j] == w.items[j]
  {
    hide DispatchFailure;
    FailureMeans(cfg, w.items[i]);
  }

  /** Wherever the process died, an item left in `dispatching` beside a session that is live at Devin is
      bound to exactly that session, on record with the item's cap; nothing new is created and no other
      item moves. */
  lemma OrphanIsAdopted(cfg: Config, history: seq<World>, w: World, i: nat, s: nat) returns (v: World)
    requires Reached(cfg, history, w) && w.pc == Idle && w.lock == Free && AtDispatch(w, i)
    requires IsLive(w, s) && w.remote[s].tag == i
    ensures Resumes(cfg, w, i, Adopt, v)
    ensures v.remote == w.remote && |v.items| == |w.items| && v.pc == Idle
    ensures v.items[i].active == Some(s) && v.items[i].life.state == SessionActive &&
      v.items[i].failures == w.items[i].failures
    ensures s in v.rows && v.rows[s].item == i && v.rows[s].cap == w.items[i].cap
    ensures forall j :: 0 <= j < |w.items| && j != i ==> v.items[j] == w.items[j]
  {
    hide Next, Enabled, Choice;
    var steps := HistoryIsARun(cfg, history, w);
    var begun := w.(pc := Reserved(i, true));
    Asks(cfg, w, i);
    SameData(cfg, w, begun);
    OnlyLiveSessionIsChosen(cfg, begun, i, s);
    var found := begun.(pc := Found(i, SnapOf(begun, s)));
    Adopts(cfg, found, i, found.pc.snap);
    v := Next(cfg, found, Adopt);
  }

  /** Without such a session the item is released for another try, one failure nearer to the limit, or
      handed to a human at the limit. */
  lemma StrandedItemIsReleased(cfg: Config, history: seq<World>, w: World, i: nat) returns (v: World)
    requires Reached(cfg, history, w) && w.pc == Idle && w.lock == Free && AtDispatch(w, i) && NoLiveSession(w, i)
    ensures Resumes(cfg, w, i, Fail, v)
    ensures v.remote == w.remote && v.rows == w.rows && |v.items| == |w.items| && v.pc == Idle
    ensures v.items[i].failures == w.items[i].failures + 1 && v.items[i].active == None
    ensures v.items[i].life.state == if w.items[i].failures + 1 >= cfg.maxFailures then NeedsHuman else IssueOpen
    ensures forall j :: 0 <= j < |w.items| && j != i ==> v.items[j] == w.items[j]
  {
    hide Next, Enabled, Choice;
    var steps := HistoryIsARun(cfg, history, w);
    assert ItemOk(cfg, w, i);
    var begun := w.(pc := Reserved(i, true));
    Asks(cfg, w, i);
    SameData(cfg, w, begun);
    NoLiveSessionNoChoice(cfg, begun, i);
    var found := begun.(pc := Clear(i, true));
    Releases(cfg, found, i);
    v := Next(cfg, found, Fail);
  }

  /** Whatever admitted it, a reserved item enters dispatch unbound, with its cap and failures kept; a
      relaunched one has all its retries back. */
  lemma AdmissionStartsAfresh(cfg: Config, history: seq<World>, w: World, s: Step)
    requires Reached(cfg, history, w) && Enabled(cfg, w, s) && (s.Reserve? || s.LaunchReserve?)
    ensures var i := if s.Reserve? then s.i else w.pc.item; var v := Next(cfg, w, s);
      AtDispatch(v, i) && v.pc == Reserved(i, false) && v.lock == Free && v.items[i].active == None &&
      v.items[i].cap == w.items[i].cap && v.items[i].failures == w.items[i].failures && v.items[i].issue &&
      v.items[i].retries == if w.items[i].life.state in {NeedsHuman, Failed} then 0 else w.items[i].retries
  {
    var steps := HistoryIsARun(cfg, history, w);
    var i := if s.Reserve? then s.i else w.pc.item;
    assert ItemOk(cfg, w, i);
    NextKeeps(cfg, w, s);
  }

  // ---------------------------------------------------------------- what a red head and a poll do to the item

  /** A red head costs a retry and sends the same session back to work, unless the retries are used up or there is no
      session; then the item fails. A message call that raises leaves the item as it was. */
  lemma RedDecides(cfg: Config, w: World, i: nat, delivered: bool, ok: bool)
    requires Enabled(cfg, w, Red(i, delivered, ok))
    ensures var it, v := w.items[i], Next(cfg, w, Red(i, delivered, ok));
      var spent := it.retries >= cfg.maxRetries || it.active == None;
      v.rows == w.rows && WritesOnly(w.items, v.items, i) &&
      (spent ==> v.items[i] == it.(life := v.items[i].life) && v.items[i].life.state == Failed) &&
      (!spent && ok ==>
        v.items[i] == it.(life := v.items[i].life, retries := it.retries + 1) &&
        v.items[i].life.state == SessionActive) &&
      (!spent && !ok ==> v.items[i] == it) &&
      v.remote ==
        if !spent && delivered && it.active.value < |w.remote|
        then w.remote[it.active.value := w.remote[it.active.value].(active := true)] else w.remote
  {
    hide Move, Commit, Next, Enabled;
    RedStep(cfg, w, i, delivered, ok);
    var it := w.items[i];
    RedEnds(it, RetriesExhausted);
    RedEnds(it.(retries := it.retries + 1), RetrySent);
    CommitPuts(w, i, Move(Move(it, ChecksRed), RetriesExhausted));
    CommitPuts(w, i, Move(Move(it.(retries := it.retries + 1), ChecksRed), RetrySent));
    if it.active.Some? {
      CommitPuts(Wake(w, it.active.value), i, Move(Move(it.(retries := it.retries + 1), ChecksRed), RetrySent));
    }
  }

  lemma RedStep(cfg: Config, w: World, i: nat, delivered: bool, ok: bool)
    requires Enabled(cfg, w, Red(i, delivered, ok))
    ensures i < |w.items| && w.items[i].life.state in {ChecksRunning, ReviewPending, ReadyForHuman}
    ensures Next(cfg, w, Red(i, delivered, ok)) == AfterRed(cfg, w, i, delivered, ok)
  {
    hide AfterRed;
  }

  lemma CommitPuts(w: World, i: nat, it: Item)
    requires i < |w.items|
    ensures var v := Commit(w, i, it); v.items == w.items[i := it] && v.rows == w.rows && v.remote == w.remote
  {
  }

  lemma RedEnds(it: Item, e: WorkItemEvent)
    requires it.life.state in {ChecksRunning, ReviewPending, ReadyForHuman} && e in {RetriesExhausted, RetrySent}
    ensures var after := Move(Move(it, ChecksRed), e);
      after == it.(life := after.life) && after.life.state == if e == RetrySent then SessionActive else Failed
  {
  }

  /** A polled snapshot counts only while the item is bound to that session; a session without a row goes to a human.
      Otherwise the meter is written, unless a message call raised, and only an escalation or a pull request
      moves the item. */
  lemma PollDecides(cfg: Config, w: World, d: Decision)
    requires Enabled(cfg, w, PollApply(d))
    ensures var i, snap, v := w.pc.item, w.pc.snap, Next(cfg, w, PollApply(d));
      var owned := i < |w.items| && w.items[i].life.state == SessionActive && w.items[i].active == Some(snap.sid);
      v.pc == Idle && (!owned ==> v == w.(pc := Idle)) &&
      (owned ==>
        WritesOnly(w.items, v.items, i) &&
        (snap.sid !in w.rows || d == Escalate ==>
          v.items[i] == w.items[i].(life := v.items[i].life) && v.items[i].life.state == NeedsHuman) &&
        (snap.sid in w.rows && d == PrReady ==>
          v.items[i] == w.items[i].(life := v.items[i].life, pr := true) &&
          v.items[i].life.state == ChecksRunning) &&
        (snap.sid in w.rows && d !in {Escalate, PrReady} ==> v.items[i] == w.items[i]) &&
        v.rows ==
          if snap.sid in w.rows && !(d.SendMessage? && !d.ok)
          then w.rows[snap.sid := w.rows[snap.sid].(acus := snap.acus)] else w.rows)
  {
    hide Fire;
    if w.pc.item < |w.items| && w.items[w.pc.item].life.state == SessionActive {
      PollMovesItem(w.items[w.pc.item].life);
    }
  }

  lemma PollMovesItem(life: Life)
    requires life.state == SessionActive
    ensures Fire(life, Blocked).state == NeedsHuman
    ensures Fire(Fire(life, PrOpened), ChecksStarted).state == ChecksRunning
  {
  }
}
