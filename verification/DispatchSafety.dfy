/** What every reachable state of the dispatch protocol keeps: at most one session per work item is
    unrecorded or able to work, and a session is created only when there is none. */
module DispatchSafety {
  import opened Domain
  import opened StateTables
  import opened Dispatch

  /** A session that must not be duplicated: Devin can still work on it, or nobody recorded it. */
  predicate IsLive(w: World, s: nat) {
    s < |w.remote| && (w.remote[s].active || s !in w.rows)
  }

  ghost predicate RowsMatch(w: World) {
    forall s :: s in w.rows ==>
      s < |w.remote| && w.rows[s].item == w.remote[s].tag && w.rows[s].cap == w.remote[s].cap &&
      0.0 <= w.rows[s].acus <= w.remote[s].acus
  }

  /** Devin honours each session's cap. */
  ghost predicate CapsHonoured(w: World) {
    forall s :: 0 <= s < |w.remote| ==>
      w.remote[s].tag < |w.items| && w.remote[s].cap == w.items[w.remote[s].tag].cap &&
      0.0 <= w.remote[s].acus <= w.remote[s].cap
  }

  ghost predicate ItemOk(cfg: Config, w: World, i: nat)
    requires i < |w.items|
  {
    var it := w.items[i];
    Faithful(it.life) && it.retries <= cfg.maxRetries && it.cap > 0.0 &&
    (it.active.Some? ==> it.active.value in w.rows && w.rows[it.active.value].item == i) &&
    (it.life.state in {Queued, IssueOpen, Dispatching} ==> it.active == None)
  }

  ghost predicate ItemsOk(cfg: Config, w: World) {
    forall i :: 0 <= i < |w.items| ==> ItemOk(cfg, w, i)
  }

  ghost predicate OneLiveSession(w: World) {
    forall s: nat, t: nat :: IsLive(w, s) && IsLive(w, t) && w.remote[s].tag == w.remote[t].tag ==> s == t
  }

  ghost predicate OnlyTheBoundSessionIsLive(w: World) {
    forall s: nat :: IsLive(w, s) && w.remote[s].tag < |w.items| && w.items[w.remote[s].tag].active.Some? ==>
      w.items[w.remote[s].tag].active == Some(s)
  }

  ghost predicate NoLiveSession(w: World, i: nat) {
    forall s: nat :: IsLive(w, s) ==> w.remote[s].tag != i
  }

  ghost predicate DataOk(cfg: Config, w: World) {
    RowsMatch(w) && CapsHonoured(w) && ItemsOk(cfg, w) && OneLiveSession(w) && OnlyTheBoundSessionIsLive(w)
  }

  /** A response of Devin, read back later: the meter only moves on. */
  ghost predicate Earlier(w: World, snap: Snap, i: nat) {
    snap.sid < |w.remote| && w.remote[snap.sid].tag == i && 0.0 <= snap.acus <= w.remote[snap.sid].acus &&
    (snap.sid in w.rows ==> w.rows[snap.sid].acus <= snap.acus)
  }

  ghost predicate AtDispatch(w: World, i: nat) {
    i < |w.items| && w.items[i].life.state == Dispatching
  }

  ghost predicate PcOk(cfg: Config, w: World) {
    (w.lock == HeldByController <==> w.pc.Launching?) &&
    match w.pc
    case Idle => true
    case Launching(i, seen) =>
      i < |w.items| && w.items[i].life.state in {Queued, IssueOpen, NeedsHuman, Failed} &&
      w.pending == 0 && w.runs == seen && HasRoom(cfg, w, i)
    case Reserved(i, _) => AtDispatch(w, i)
    case LookupFailed(i) => AtDispatch(w, i)
    case CreateFailed(i) => AtDispatch(w, i)
    case Found(i, snap) =>
      AtDispatch(w, i) && Earlier(w, snap, i) &&
      (forall s: nat :: IsLive(w, s) && w.remote[s].tag == i ==> s == snap.sid)
    case Clear(i, _) => AtDispatch(w, i) && NoLiveSession(w, i)
    case Created(i, snap) => AtDispatch(w, i) && Earlier(w, snap, i) && IsLive(w, snap.sid) && snap.sid !in w.rows
    case Polled(i, snap) => i < |w.items| && Earlier(w, snap, i)
    case Stopped(i, snap) =>
      i < |w.items| && w.items[i].life.state == SessionActive && w.items[i].active == Some(snap.sid) &&
      Earlier(w, snap, i)
  }

  ghost predicate Inv(cfg: Config, w: World) {
    DataOk(cfg, w) && PcOk(cfg, w)
  }

  // ---------------------------------------------------------------- item moves

  lemma MoveStaysBound(it: Item, e: WorkItemEvent)
    requires Faithful(it.life)
    ensures Faithful(Move(it, e).life)
    ensures Move(it, e).life.state in {Queued, IssueOpen, Dispatching} ==>
      it.life.state in {Queued, IssueOpen, Dispatching} || e == HumanRetry
    ensures Move(it, e) == it.(life := Move(it, e).life, issue := Move(it, e).issue)
  {
    hide Replay, TransitionCount;
    FireIsFaithful(it.life, e);
    BlockingEscalates(it.life.state);
  }

  /** Replacing one item by one that is sound for the same sessions. */
  lemma PutKeepsData(cfg: Config, w: World, i: nat, it: Item)
    requires DataOk(cfg, w) && i < |w.items|
    requires it.cap == w.items[i].cap && it.active in {None, w.items[i].active}
    requires Faithful(it.life) && it.retries <= cfg.maxRetries
    requires it.life.state in {Queued, IssueOpen, Dispatching} ==> it.active == None
    ensures DataOk(cfg, Put(w, i, it)) && DataOk(cfg, Commit(w, i, it))
  {
    var v := Put(w, i, it);
    forall j | 0 <= j < |v.items| ensures ItemOk(cfg, v, j) {
      assert ItemOk(cfg, w, j);
    }
    assert forall s: nat :: IsLive(v, s) <==> IsLive(w, s);
    SameData(cfg, v, Commit(w, i, it));
  }

  /** A message can only wake the session its item is bound to. */
  lemma WakeKeepsData(cfg: Config, w: World, i: nat)
    requires DataOk(cfg, w) && i < |w.items| && w.items[i].active.Some?
    ensures DataOk(cfg, Wake(w, w.items[i].active.value))
  {
    var sid := w.items[i].active.value;
    var v := Wake(w, sid);
    assert ItemOk(cfg, w, i);
    assert forall s: nat :: IsLive(v, s) ==> IsLive(w, s) || s == sid;
    assert forall j :: 0 <= j < |v.items| ==> ItemOk(cfg, w, j) ==> ItemOk(cfg, v, j);
  }

  /** The meter moving on, and a session that stops working. */
  lemma RemoteUpdateKeepsData(cfg: Config, w: World, sid: nat, r: Remote)
    requires DataOk(cfg, w) && sid < |w.remote|
    requires r.tag == w.remote[sid].tag && r.cap == w.remote[sid].cap && (r.active ==> w.remote[sid].active)
    requires w.remote[sid].acus <= r.acus <= r.cap
    ensures DataOk(cfg, w.(remote := w.remote[sid := r]))
  {
    var v := w.(remote := w.remote[sid := r]);
    assert forall s: nat :: IsLive(v, s) ==> IsLive(w, s);
    assert forall j :: 0 <= j < |v.items| ==> ItemOk(cfg, w, j) ==> ItemOk(cfg, v, j);
  }

  lemma RemoteUpdateKeepsPc(cfg: Config, w: World, sid: nat, r: Remote)
    requires Inv(cfg, w) && sid < |w.remote|
    requires r.tag == w.remote[sid].tag && r.cap == w.remote[sid].cap && (r.active ==> w.remote[sid].active)
    requires w.remote[sid].acus <= r.acus <= r.cap
    ensures PcOk(cfg, w.(remote := w.remote[sid := r]))
  {
    var v := w.(remote := w.remote[sid := r]);
    assert forall s: nat :: IsLive(v, s) ==> IsLive(w, s);
  }

  /** A poll or a stop writes a newer meter reading into the session's row. */
  lemma MeterKeepsData(cfg: Config, w: World, snap: Snap)
    requires DataOk(cfg, w) && snap.sid in w.rows && Earlier(w, snap, w.rows[snap.sid].item)
    ensures DataOk(cfg, w.(rows := w.rows[snap.sid := w.rows[snap.sid].(acus := snap.acus)]))
  {
    var v := w.(rows := w.rows[snap.sid := w.rows[snap.sid].(acus := snap.acus)]);
    assert forall s: nat :: IsLive(v, s) <==> IsLive(w, s);
    assert forall j :: 0 <= j < |v.items| ==> ItemOk(cfg, w, j) ==> ItemOk(cfg, v, j);
  }

  /** Binding the only session of the item that may be live. */
  lemma RecordKeepsData(cfg: Config, w: World, i: nat, snap: Snap, e: WorkItemEvent)
    requires DataOk(cfg, w) && AtDispatch(w, i) && Earlier(w, snap, i)
    requires forall s: nat :: IsLive(w, s) && w.remote[s].tag == i ==> s == snap.sid
    requires e in {SessionCreated, SessionAdopted}
    ensures DataOk(cfg, Record(w, i, snap, e))
    ensures Record(w, i, snap, e).items[i].life.state == SessionActive
  {
    var v := Record(w, i, snap, e);
    assert ItemOk(cfg, w, i);
    FireIsFaithful(w.items[i].life, e);
    assert v.items[i].life.state == SessionActive;
    assert forall s: nat :: IsLive(v, s) ==> IsLive(w, s);
    assert RowsMatch(v);
    forall j | 0 <= j < |v.items| ensures ItemOk(cfg, v, j) {
      assert ItemOk(cfg, w, j);
    }
  }

  /** Creating a session for an item none of whose sessions is live. */
  lemma CreateKeepsData(cfg: Config, w: World, i: nat)
    requires DataOk(cfg, w) && AtDispatch(w, i) && NoLiveSession(w, i)
    ensures DataOk(cfg, w.(remote := w.remote + [Remote(i, true, 0.0, w.items[i].cap)]))
  {
    var v := w.(remote := w.remote + [Remote(i, true, 0.0, w.items[i].cap)]);
    assert ItemOk(cfg, w, i);
    assert forall s: nat :: IsLive(v, s) ==> IsLive(w, s) || s == |w.remote|;
    assert forall j :: 0 <= j < |v.items| ==> ItemOk(cfg, w, j) ==> ItemOk(cfg, v, j);
  }

  lemma NewItemKeepsData(cfg: Config, w: World, cap: real)
    requires DataOk(cfg, w) && cap > 0.0
    ensures DataOk(cfg, w.(items := w.items + [Item(NEW_LIFE, None, 0, 0, cap, false, false)]))
  {
    var v := w.(items := w.items + [Item(NEW_LIFE, None, 0, 0, cap, false, false)]);
    assert forall s: nat :: IsLive(v, s) <==> IsLive(w, s);
    forall j | 0 <= j < |v.items| ensures ItemOk(cfg, v, j) {
      if j < |w.items| { assert ItemOk(cfg, w, j); }
    }
  }

  // ---------------------------------------------------------------- steps

  lemma ObserveKeeps(cfg: Config, w: World, i: nat, e: WorkItemEvent)
    requires Inv(cfg, w) && Enabled(cfg, w, Observe(i, e))
    ensures Inv(cfg, Next(cfg, w, Observe(i, e)))
  {
    assert ItemOk(cfg, w, i);
    MoveStaysBound(w.items[i], e);
    PutKeepsData(cfg, w, i, Move(w.items[i], e));
  }

  lemma RetriedKeeps(cfg: Config, w: World, i: nat)
    requires DataOk(cfg, w) && i < |w.items|
    ensures Faithful(Retried(w.items[i]).life) && Retried(w.items[i]).active == None
    ensures DataOk(cfg, Put(w, i, Retried(w.items[i]))) && DataOk(cfg, Commit(w, i, Retried(w.items[i])))
  {
    assert ItemOk(cfg, w, i);
    MoveStaysBound(w.items[i].(retries := 0, active := None), HumanRetry);
    PutKeepsData(cfg, w, i, Retried(w.items[i]));
  }

  /** Two moves of an item that is past its dispatch. */
  lemma TwoMovesStayBound(it: Item, first: WorkItemEvent, second: WorkItemEvent)
    requires Faithful(it.life) && it.life.state !in {Queued, IssueOpen, Dispatching}
    requires first != HumanRetry && second != HumanRetry
    ensures var after := Move(Move(it, first), second);
      Faithful(after.life) && after.life.state !in {Queued, IssueOpen, Dispatching} &&
      after.active == it.active && after.cap == it.cap && after.retries == it.retries
  {
    MoveStaysBound(it, first);
    MoveStaysBound(Move(it, first), second);
  }

  /** The retry message may wake the session whether or not the retry is committed. */
  lemma WokenKeeps(cfg: Config, w: World, i: nat, delivered: bool, after: Item)
    requires Inv(cfg, w) && w.pc == Idle && w.lock == Free && i < |w.items|
    requires delivered ==> w.items[i].active.Some?
    requires after.active == w.items[i].active && after.cap == w.items[i].cap && after.retries <= cfg.maxRetries
    requires Faithful(after.life) && after.life.state !in {Queued, IssueOpen, Dispatching}
    ensures var woken := if delivered then Wake(w, w.items[i].active.value) else w;
      Inv(cfg, woken) && Inv(cfg, Commit(woken, i, after)) && Inv(cfg, Commit(w, i, after))
  {
    var woken := if delivered then Wake(w, w.items[i].active.value) else w;
    if delivered { WakeKeepsData(cfg, w, i); }
    PutKeepsData(cfg, woken, i, after);
    PutKeepsData(cfg, w, i, after);
  }

  /** The worlds a red verdict can lead to. */
  lemma RedLeads(cfg: Config, w: World, i: nat, delivered: bool, ok: bool)
    requires i < |w.items|
    ensures var it := w.items[i];
      AfterRed(cfg, w, i, delivered, ok) ==
        if it.retries >= cfg.maxRetries || it.active == None
          then Commit(w, i, Move(Move(it, ChecksRed), RetriesExhausted))
        else
          var woken := if delivered then Wake(w, it.active.value) else w;
          if ok then Commit(woken, i, Move(Move(it.(retries := it.retries + 1), ChecksRed), RetrySent)) else woken
  {
  }

  lemma RedKeeps(cfg: Config, w: World, i: nat, delivered: bool, ok: bool)
    requires Inv(cfg, w) && Enabled(cfg, w, Red(i, delivered, ok))
    ensures Inv(cfg, AfterRed(cfg, w, i, delivered, ok))
  {
    hide AfterRed, Move, Commit;
    var it := w.items[i];
    assert ItemOk(cfg, w, i);
    RedLeads(cfg, w, i, delivered, ok);
    if it.retries >= cfg.maxRetries || it.active == None {
      TwoMovesStayBound(it, ChecksRed, RetriesExhausted);
      WokenKeeps(cfg, w, i, false, Move(Move(it, ChecksRed), RetriesExhausted));
    } else {
      var counted := it.(retries := it.retries + 1);
      TwoMovesStayBound(counted, ChecksRed, RetrySent);
      WokenKeeps(cfg, w, i, delivered, Move(Move(counted, ChecksRed), RetrySent));
    }
  }

  lemma PollKeeps(cfg: Config, w: World, d: Decision)
    requires Inv(cfg, w) && Enabled(cfg, w, PollApply(d))
    ensures Inv(cfg, AfterPoll(w, d))
  {
    hide Fire;
    var i, snap := w.pc.item, w.pc.snap;
    var idle := w.(pc := Idle);
    assert DataOk(cfg, idle) by { SameData(cfg, w, idle); }
    assert ItemOk(cfg, w, i);
    if w.items[i].life.state == SessionActive && w.items[i].active == Some(snap.sid) {
      assert snap.sid in w.rows;
      var seen := idle.(rows := w.rows[snap.sid := w.rows[snap.sid].(acus := snap.acus)]);
      MeterKeepsData(cfg, idle, snap);
      match d
      case KeepPolling =>
      case SendMessage(delivered, ok) =>
        var kept := if ok then seen else idle;
        WakeKeepsData(cfg, kept, i);
      case Escalate =>
        MoveStaysBound(w.items[i], Blocked);
        PutKeepsData(cfg, seen, i, Move(w.items[i], Blocked));
      case PrReady =>
        MoveStaysBound(w.items[i].(pr := true), PrOpened);
        MoveStaysBound(Move(w.items[i].(pr := true), PrOpened), ChecksStarted);
        PutKeepsData(cfg, seen, i, Move(Move(w.items[i].(pr := true), PrOpened), ChecksStarted));
    }
  }

  /** The data invariant looks at the tables and Devin's sessions only. */
  lemma SameData(cfg: Config, w: World, v: World)
    requires DataOk(cfg, w) && v.items == w.items && v.rows == w.rows && v.remote == w.remote
    ensures DataOk(cfg, v)
  {
    assert forall s: nat :: IsLive(v, s) <==> IsLive(w, s);
    assert forall j :: 0 <= j < |v.items| ==> ItemOk(cfg, w, j) ==> ItemOk(cfg, v, j);
  }

  lemma StopCallKeeps(cfg: Config, w: World, i: nat, effect: bool, ok: bool)
    requires Inv(cfg, w) && Enabled(cfg, w, StopCall(i, effect, ok))
    ensures Inv(cfg, Next(cfg, w, StopCall(i, effect, ok)))
  {
    var sid := w.items[i].active.value;
    assert ItemOk(cfg, w, i);
    if effect {
      RemoteUpdateKeepsData(cfg, w, sid, w.remote[sid].(active := false));
      var after := w.(remote := w.remote[sid := w.remote[sid].(active := false)]);
      SameData(cfg, after, Next(cfg, w, StopCall(i, effect, ok)));
    }
  }

  lemma StopRecordKeeps(cfg: Config, w: World)
    requires Inv(cfg, w) && Enabled(cfg, w, StopRecord)
    ensures Inv(cfg, Next(cfg, w, StopRecord))
  {
    hide Fire, Committed, ActiveCount;
    var i, snap := w.pc.item, w.pc.snap;
    assert ItemOk(cfg, w, i);
    var idle := w.(pc := Idle);
    SameData(cfg, w, idle);
    MeterKeepsData(cfg, idle, snap);
    MoveStaysBound(w.items[i], OperatorCancelled);
    var seen := idle.(rows := w.rows[snap.sid := w.rows[snap.sid].(acus := snap.acus)]);
    PutKeepsData(cfg, seen, i, Move(w.items[i], OperatorCancelled));
  }

  lemma ReserveKeeps(cfg: Config, w: World, i: nat)
    requires Inv(cfg, w) && Enabled(cfg, w, Reserve(i))
    ensures Inv(cfg, Next(cfg, w, Reserve(i)))
  {
    assert ItemOk(cfg, w, i);
    MoveStaysBound(w.items[i], DispatchStarted);
    var v := Put(w, i, Move(w.items[i], DispatchStarted));
    PutKeepsData(cfg, w, i, Move(w.items[i], DispatchStarted));
    SameData(cfg, v, Next(cfg, w, Reserve(i)));
  }

  lemma MadeReadyKeeps(cfg: Config, w: World, i: nat)
    requires DataOk(cfg, w) && i < |w.items| && w.items[i].life.state in {Queued, IssueOpen, NeedsHuman, Failed}
    ensures var it := MadeReady(w.items[i]);
      it.life.state == IssueOpen && it.active == None && it.cap == w.items[i].cap && Faithful(it.life) &&
      it.retries <= cfg.maxRetries
  {
    assert ItemOk(cfg, w, i);
    MoveStaysBound(w.items[i], IssueCreated);
    MoveStaysBound(w.items[i].(retries := 0, active := None), HumanRetry);
  }

  lemma LaunchReserveKeeps(cfg: Config, w: World)
    requires Inv(cfg, w) && Enabled(cfg, w, LaunchReserve)
    ensures Inv(cfg, Next(cfg, w, LaunchReserve))
  {
    var i := w.pc.item;
    MadeReadyKeeps(cfg, w, i);
    var it := Move(MadeReady(w.items[i]), DispatchStarted);
    MoveStaysBound(MadeReady(w.items[i]), DispatchStarted);
    ReservedKeeps(cfg, w, i, it, w.debt + ReservedCaps(w.items));
  }

  /** Reserving an item that was brought to `issue_open`. */
  lemma ReservedKeeps(cfg: Config, w: World, i: nat, it: Item, debt: real)
    requires DataOk(cfg, w) && i < |w.items| && it.life.state == Dispatching && it.active == None
    requires it.cap == w.items[i].cap && Faithful(it.life) && it.retries <= cfg.maxRetries
    ensures Inv(cfg, Put(w, i, it).(pc := Reserved(i, false), lock := Free, debt := debt))
  {
    PutKeepsData(cfg, w, i, it);
    SameData(cfg, Put(w, i, it), Put(w, i, it).(pc := Reserved(i, false), lock := Free, debt := debt));
  }

  lemma LaunchGiveUpKeeps(cfg: Config, w: World, prepared: bool)
    requires Inv(cfg, w) && Enabled(cfg, w, LaunchGiveUp(prepared))
    ensures Inv(cfg, Next(cfg, w, LaunchGiveUp(prepared)))
  {
    var i := w.pc.item;
    MadeReadyKeeps(cfg, w, i);
    assert ItemOk(cfg, w, i);
    var it := if prepared then MadeReady(w.items[i]) else w.items[i];
    PutKeepsData(cfg, w, i, it);
    SameData(cfg, Put(w, i, it), Next(cfg, w, LaunchGiveUp(prepared)));
  }

  /** The lookup proves what the next step needs: either exactly the live session is to be adopted
      or the item has none. */
  lemma LookupKeeps(cfg: Config, w: World, ok: bool)
    requires Inv(cfg, w) && Enabled(cfg, w, Lookup(ok))
    ensures Inv(cfg, Next(cfg, w, Lookup(ok)))
  {
    var i := w.pc.item;
    var v := Next(cfg, w, Lookup(ok));
    SameData(cfg, w, v);
    if ok {
      forall s: nat | IsLive(w, s) && w.remote[s].tag == i ensures Adoptable(w, i, s) {
      }
      if v.pc.Found? {
        var sid := v.pc.snap.sid;
        assert Adoptable(w, i, sid);
        assert IsLive(w, sid);
        assert forall s: nat :: IsLive(v, s) && v.remote[s].tag == i ==> s == sid;
      } else {
        assert NoLiveSession(v, i);
      }
    }
  }

  lemma AdoptOrRecordKeeps(cfg: Config, w: World, s: Step)
    requires Inv(cfg, w) && Enabled(cfg, w, s) && (s.Adopt? || s.RecordCreated?)
    ensures Inv(cfg, Next(cfg, w, s))
  {
    RecordKeepsData(cfg, w, w.pc.item, w.pc.snap, if s.Adopt? then SessionAdopted else SessionCreated);
  }

  lemma FailKeeps(cfg: Config, w: World)
    requires Inv(cfg, w) && Enabled(cfg, w, Fail)
    ensures Inv(cfg, Next(cfg, w, Fail))
  {
    var i := w.pc.item;
    assert ItemOk(cfg, w, i);
    var counted := w.items[i].(failures := w.items[i].failures + 1);
    MoveStaysBound(counted, Blocked);
    MoveStaysBound(counted, DispatchFailed);
    PutKeepsData(cfg, w, i, DispatchFailure(cfg, w.items[i]));
    SameData(cfg, Put(w, i, DispatchFailure(cfg, w.items[i])), Next(cfg, w, Fail));
  }

  lemma CreateCallKeeps(cfg: Config, w: World, effect: bool, ok: bool)
    requires Inv(cfg, w) && Enabled(cfg, w, CreateCall(effect, ok))
    ensures Inv(cfg, Next(cfg, w, CreateCall(effect, ok)))
  {
    var v := Next(cfg, w, CreateCall(effect, ok));
    if effect {
      CreateKeepsData(cfg, w, w.pc.item);
      SameData(cfg, w.(remote := w.remote + [Remote(w.pc.item, true, 0.0, w.items[w.pc.item].cap)]), v);
    } else {
      SameData(cfg, w, v);
    }
  }

  lemma EnvironmentKeeps(cfg: Config, w: World, s: Step)
    requires Inv(cfg, w) && Enabled(cfg, w, s) && (s.Consume? || s.GoInactive?)
    ensures Inv(cfg, Next(cfg, w, s))
  {
    var r := if s.Consume? then w.remote[s.sid].(acus := s.acus) else w.remote[s.sid].(active := false);
    RemoteUpdateKeepsData(cfg, w, s.sid, r);
    RemoteUpdateKeepsPc(cfg, w, s.sid, r);
  }

  /** Steps that only move the controller, the lock or the count of pending runs. */
  lemma ControlKeeps(cfg: Config, w: World, s: Step)
    requires Inv(cfg, w) && Enabled(cfg, w, s)
    requires s.IngestBegin? || s.IngestCommit? || s.IngestAbort? || s.ApplyScans? || s.LaunchBegin? ||
      s.RecoverBegin? || s.Crash?
    ensures Inv(cfg, Next(cfg, w, s))
  {
    hide DataOk, Committed, ActiveCount;
    SameData(cfg, w, Next(cfg, w, s));
  }

  lemma PollReadKeeps(cfg: Config, w: World, i: nat)
    requires Inv(cfg, w) && Enabled(cfg, w, PollRead(i))
    ensures Inv(cfg, Next(cfg, w, PollRead(i)))
  {
    assert ItemOk(cfg, w, i);
    SameData(cfg, w, Next(cfg, w, PollRead(i)));
  }

  lemma SmallStepKeeps(cfg: Config, w: World, s: Step)
    requires Inv(cfg, w) && Enabled(cfg, w, s) && (s.NewItem? || s.RetryByLabel? || s.Nudge?)
    ensures Inv(cfg, Next(cfg, w, s))
  {
    match s
    case NewItem(cap) => NewItemKeepsData(cfg, w, cap);
    case RetryByLabel(i) => RetriedKeeps(cfg, w, i);
    case Nudge(i, _) => WakeKeepsData(cfg, w, i);
  }

  /** Steps of the world around the controller and of its polls and evaluations. */
  lemma ItemStepKeeps(cfg: Config, w: World, s: Step)
    requires Inv(cfg, w) && Enabled(cfg, w, s)
    requires s.Observe? || s.Red? || s.PollRead? || s.PollApply? || s.StopCall? || s.StopRecord?
    ensures Inv(cfg, Next(cfg, w, s))
  {
    hide DataOk, PcOk, AfterRed, AfterPoll, Move, HasRoom;
    match s
    case Observe(i, e) => ObserveKeeps(cfg, w, i, e);
    case Red(i, delivered, ok) => RedKeeps(cfg, w, i, delivered, ok);
    case PollRead(i) => PollReadKeeps(cfg, w, i);
    case PollApply(d) => PollKeeps(cfg, w, d);
    case StopCall(i, effect, ok) => StopCallKeeps(cfg, w, i, effect, ok);
    case StopRecord => StopRecordKeeps(cfg, w);
  }

  /** Steps of a dispatch, from its admission to its end. */
  lemma DispatchStepKeeps(cfg: Config, w: World, s: Step)
    requires Inv(cfg, w) && Enabled(cfg, w, s)
    requires s.Reserve? || s.LaunchReserve? || s.LaunchGiveUp? || s.Lookup? || s.Adopt? || s.RecordCreated? ||
      s.Fail? || s.CreateCall?
    ensures Inv(cfg, Next(cfg, w, s))
  {
    hide Inv, Next, Enabled;
    match s
    case Reserve(i) => ReserveKeeps(cfg, w, i);
    case LaunchReserve => LaunchReserveKeeps(cfg, w);
    case LaunchGiveUp(prepared) => LaunchGiveUpKeeps(cfg, w, prepared);
    case Lookup(ok) => LookupKeeps(cfg, w, ok);
    case Adopt => AdoptOrRecordKeeps(cfg, w, s);
    case RecordCreated => AdoptOrRecordKeeps(cfg, w, s);
    case Fail => FailKeeps(cfg, w);
    case CreateCall(effect, ok) => CreateCallKeeps(cfg, w, effect, ok);
  }

  lemma NextKeeps(cfg: Config, w: World, s: Step)
    requires Inv(cfg, w) && Enabled(cfg, w, s)
    ensures Inv(cfg, Next(cfg, w, s))
  {
    hide Inv, Next, Enabled;
    if s.Consume? || s.GoInactive? {
      EnvironmentKeeps(cfg, w, s);
    } else if s.NewItem? || s.RetryByLabel? || s.Nudge? {
      SmallStepKeeps(cfg, w, s);
    } else if s.Observe? || s.Red? || s.PollRead? || s.PollApply? || s.StopCall? || s.StopRecord? {
      ItemStepKeeps(cfg, w, s);
    } else if s.IngestBegin? || s.IngestCommit? || s.IngestAbort? || s.ApplyScans? || s.LaunchBegin? ||
      s.RecoverBegin? || s.Crash? {
      ControlKeeps(cfg, w, s);
    } else {
      DispatchStepKeeps(cfg, w, s);
    }
  }

  lemma {:induction false} RunKeeps(cfg: Config, w: World, steps: seq<Step>)
    requires Inv(cfg, w) && IsRun(cfg, w, steps)
    ensures Inv(cfg, After(cfg, w, steps))
  {
    if steps != [] {
      RunKeeps(cfg, w, steps[..|steps| - 1]);
      NextKeeps(cfg, After(cfg, w, steps[..|steps| - 1]), steps[|steps| - 1]);
    }
  }

  // ---------------------------------------------------------------- histories

  predicate Leads(cfg: Config, w: World, s: Step, v: World) {
    Enabled(cfg, w, s) && Next(cfg, w, s) == v
  }

  ghost predicate OneStep(cfg: Config, w: World, v: World) {
    exists s :: Leads(cfg, w, s, v)
  }

  ghost predicate Linked(cfg: Config, history: seq<World>, k: nat)
    requires k + 1 < |history|
  {
    OneStep(cfg, history[k], history[k + 1])
  }

  /** `history` goes step by step from the empty start to `w`. */
  ghost predicate Reached(cfg: Config, history: seq<World>, w: World) {
    |history| > 0 && history[0] == START && history[|history| - 1] == w &&
    forall k :: 0 <= k < |history| - 1 ==> Linked(cfg, history, k)
  }

  lemma Took(cfg: Config, history: seq<World>, w: World, s: Step)
    requires Reached(cfg, history, w) && Enabled(cfg, w, s)
    ensures Reached(cfg, history + [Next(cfg, w, s)], Next(cfg, w, s))
  {
    var longer := history + [Next(cfg, w, s)];
    forall k | 0 <= k < |longer| - 1 ensures Linked(cfg, longer, k) {
      if k == |history| - 1 {
        assert Leads(cfg, longer[k], s, longer[k + 1]);
      } else {
        assert Linked(cfg, history, k);
      }
    }
  }

  /** A history is a run of the protocol, so everything proved of runs holds of its end. */
  lemma {:induction false} HistoryIsARun(cfg: Config, history: seq<World>, w: World) returns (steps: seq<Step>)
    requires Reached(cfg, history, w)
    ensures IsRun(cfg, START, steps) && After(cfg, START, steps) == w && Inv(cfg, w)
    decreases |history|
  {
    if |history| == 1 {
      steps := [];
    } else {
      var n := |history| - 2;
      var earlier := history[..n + 1];
      forall k | 0 <= k < |earlier| - 1 ensures Linked(cfg, earlier, k) {
        assert Linked(cfg, history, k);
      }
      var prefix := HistoryIsARun(cfg, earlier, history[n]);
      assert Linked(cfg, history, n);
      var s :| Leads(cfg, history[n], s, history[n + 1]);
      steps := prefix + [s];
      assert steps[..|steps| - 1] == prefix;
    }
    RunKeeps(cfg, START, steps);
  }

  // ---------------------------------------------------------------- theorems over every history

  /** Through any interleaving of ticks, launches, stops, retries, lost or duplicated answers and
      crashes, a work item has at most one session nobody recorded and at most one session Devin
      can still work on, an item bound to a session has no other of either kind, and every row
      names the item its session is tagged with. */
  lemma SessionsAreNeverDuplicated(cfg: Config, history: seq<World>, w: World)
    requires Reached(cfg, history, w)
    ensures forall s, t :: 0 <= s < t < |w.remote| && w.remote[s].tag == w.remote[t].tag ==>
      !(w.remote[s].active && w.remote[t].active) && (s in w.rows || t in w.rows)
    ensures forall s | 0 <= s < |w.remote| && w.remote[s].tag < |w.items| ::
      w.items[w.remote[s].tag].active in {None, Some(s)} || (!w.remote[s].active && s in w.rows)
    ensures forall s :: s in w.rows ==> s < |w.remote| && w.rows[s].item == w.remote[s].tag
    ensures forall i :: 0 <= i < |w.items| ==> Faithful(w.items[i].life) && w.items[i].retries <= cfg.maxRetries
  {
    var steps := HistoryIsARun(cfg, history, w);
    forall s: nat, t: nat | 0 <= s < t < |w.remote| && w.remote[s].tag == w.remote[t].tag
      ensures !(IsLive(w, s) && IsLive(w, t))
    {
    }
    forall s: nat | s < |w.remote| && w.remote[s].tag < |w.items| && w.items[w.remote[s].tag].active.Some? &&
      w.items[w.remote[s].tag].active != Some(s)
      ensures !IsLive(w, s)
    {
    }
    forall i | 0 <= i < |w.items| ensures Faithful(w.items[i].life) && w.items[i].retries <= cfg.maxRetries {
      assert ItemOk(cfg, w, i);
    }
  }

  /** Whenever the controller calls `create_session`, every session tagged with the item is recorded
      and can no longer work. */
  lemma CreationFindsNoSession(cfg: Config, history: seq<World>, w: World, effect: bool, ok: bool)
    requires Reached(cfg, history, w) && Enabled(cfg, w, CreateCall(effect, ok))
    ensures forall s :: 0 <= s < |w.remote| && w.remote[s].tag == w.pc.item ==> s in w.rows && !w.remote[s].active
  {
    var steps := HistoryIsARun(cfg, history, w);
    forall s | 0 <= s < |w.remote| && w.remote[s].tag == w.pc.item ensures !IsLive(w, s) {
    }
  }

  /** Whenever an operator launch commits its reservation, no ingested scan run is owed its closing
      evaluation, none was committed since the launch read its eligibility, and the room it read is
      still there. */
  lemma LaunchIsSerialized(cfg: Config, history: seq<World>, w: World)
    requires Reached(cfg, history, w) && Enabled(cfg, w, LaunchReserve)
    ensures w.lock == HeldByController && w.pending == 0 && w.runs == w.pc.seenRuns && HasRoom(cfg, w, w.pc.item)
    ensures Next(cfg, w, LaunchReserve).pending == 0 && AtDispatch(Next(cfg, w, LaunchReserve), w.pc.item)
  {
    var steps := HistoryIsARun(cfg, history, w);
    NextKeeps(cfg, w, LaunchReserve);
  }

  /** The other half of the serialization: from the launch's first read to its end the concurrent
      process cannot commit a run. */
  lemma IngestWaitsForTheLaunch(cfg: Config, history: seq<World>, w: World)
    requires Reached(cfg, history, w) && w.pc.Launching?
    ensures !Enabled(cfg, w, IngestBegin) && !Enabled(cfg, w, IngestCommit)
  {
    var steps := HistoryIsARun(cfg, history, w);
  }
}
