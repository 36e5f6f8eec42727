/** The dispatch half of the orchestrator as it runs: methods over the tables and Devin, whose every
    committed transaction and remote call is a step of `Dispatch`. */
module Orchestrator {
  import opened Domain
  import opened Dispatch
  import opened DispatchSafety
  import opened DispatchBudget
  import opened DispatchRecovery
  import opened DispatchTermination

  /** The sessions tagged with `tag` among the first `n`, oldest first. */
  function Tagged(sessions: seq<Remote>, tag: nat, n: nat): (r: seq<Snap>)
    requires n <= |sessions|
    ensures forall k :: 0 <= k < |r| ==>
      r[k].sid < n && sessions[r[k].sid].tag == tag &&
      r[k] == Snap(r[k].sid, sessions[r[k].sid].active, sessions[r[k].sid].acus)
    ensures forall s :: 0 <= s < n && sessions[s].tag == tag ==> exists k :: 0 <= k < |r| && r[k].sid == s
  {
    if n == 0 then []
    else
      var older := Tagged(sessions, tag, n - 1);
      if sessions[n - 1].tag != tag then older
      else
        var all := older + [Snap(n - 1, sessions[n - 1].active, sessions[n - 1].acus)];
        assert forall k :: 0 <= k < |older| ==> all[k] == older[k];
        assert all[|older|].sid == n - 1;
        all
  }

  /** Devin's session API. A call may fail before or after it took effect. */
  class DevinApi {
    var sessions: seq<Remote>

    constructor ()
      ensures sessions == []
    {
      sessions := [];
    }

    method ListSessions(tag: nat) returns (answer: Option<seq<Snap>>)
      ensures answer.Some? ==> answer.value == Tagged(sessions, tag, |sessions|)
    {
      var fails: bool := *;
      answer := if fails then None else Some(Tagged(sessions, tag, |sessions|));
    }

    method CreateSession(tag: nat, cap: real) returns (answer: Option<Snap>, ghost effect: bool)
      modifies this
      ensures sessions == if effect then old(sessions) + [Remote(tag, true, 0.0, cap)] else old(sessions)
      ensures answer.Some? ==> effect && answer.value == Snap(|old(sessions)|, true, 0.0)
    {
      var reached: bool, answered: bool := *, *;
      answer, effect := None, reached;
      if reached {
        sessions := sessions + [Remote(tag, true, 0.0, cap)];
        if answered {
          answer := Some(Snap(|sessions| - 1, true, 0.0));
        }
      }
    }

    method TerminateSession(sid: nat) returns (answer: Option<Snap>, ghost effect: bool)
      requires sid < |sessions|
      modifies this
      ensures sessions == if effect then old(sessions)[sid := old(sessions)[sid].(active := false)] else old(sessions)
      ensures answer.Some? ==> effect && answer.value == Snap(sid, false, sessions[sid].acus)
    {
      var reached: bool, answered: bool := *, *;
      answer, effect := None, reached;
      if reached {
        sessions := sessions[sid := sessions[sid].(active := false)];
        if answered {
          answer := Some(Snap(sid, false, sessions[sid].acus));
        }
      }
    }
  }

  datatype Outcome = CreatedSession | AdoptedSession | FailedDispatch | Crashed

  datatype LaunchOutcome = Rejected | LaunchFailed | Launched(outcome: Outcome)

  class Controller {
    const cfg: Config
    const devin: DevinApi
    var items: seq<Item>
    var rows: map<nat, Row>
    var runs: nat
    var pending: nat
    ghost var pc: Pc
    var lock: Lock
    ghost var debt: real
    ghost var reentries: nat
    ghost var history: seq<World>

    ghost function Abs(): World
      reads this, devin
    {
      World(items, rows, devin.sessions, runs, pending, pc, lock, debt, reentries)
    }

    /** Everything this object and Devin went through is a run of the protocol. */
    ghost predicate Valid()
      reads this, devin
    {
      Reached(cfg, history, Abs())
    }

    constructor (cfg: Config, devin: DevinApi)
      requires devin.sessions == []
      ensures Valid() && this.cfg == cfg && this.devin == devin && pc == Idle && items == []
    {
      this.cfg, this.devin := cfg, devin;
      items, rows, runs, pending := [], map[], 0, 0;
      pc, lock, debt, reentries, history := Idle, Free, 0.0, 0, [START];
    }

    /** Sessions work and stop while the controller waits. */
    method SessionsMove()
      requires Valid()
      modifies this`history, devin
      ensures Valid() && |devin.sessions| == |old(devin.sessions)| && old(history) <= history
    {
      var rounds: int := *;
      while rounds > 0
        invariant Valid() && |devin.sessions| == |old(devin.sessions)| && old(history) <= history
      {
        var sid: nat, working: bool, acus: real := *, *, *;
        if sid < |devin.sessions| {
          ghost var step;
          if !working {
            step := GoInactive(sid);
          } else if devin.sessions[sid].active && devin.sessions[sid].acus <= acus <= devin.sessions[sid].cap {
            step := Consume(sid, acus);
          } else {
            return;
          }
          Took(cfg, history, Abs(), step);
          history := history + [Next(cfg, Abs(), step)];
          devin.sessions := devin.sessions[sid := if working then devin.sessions[sid].(acus := acus)
                                                  else devin.sessions[sid].(active := false)];
        }
        rounds := rounds - 1;
      }
    }

    /** The `ingest` process may take the lock; it ends its transaction before the controller's next. */
    method IngestPasses()
      requires Valid() && lock != HeldByController
      modifies this`history, this`lock, this`runs, this`pending
      ensures Valid() && lock == Free && old(history) <= history
    {
      var begins: bool, commits: bool := *, *;
      if lock == Free && begins {
        Took(cfg, history, Abs(), IngestBegin);
        history, lock := history + [Next(cfg, Abs(), IngestBegin)], HeldByIngest;
      }
      if lock == HeldByIngest {
        ghost var step := if commits then IngestCommit else IngestAbort;
        Took(cfg, history, Abs(), step);
        history := history + [Next(cfg, Abs(), step)];
        lock := Free;
        if commits {
          runs, pending := runs + 1, pending + 1;
        }
      }
    }

    /** What happens elsewhere while the controller waits for an answer and then for the lock. */
    method Elsewhere()
      requires Valid() && lock != HeldByController
      modifies this`history, this`lock, this`runs, this`pending, devin
      ensures Valid() && lock == Free && |devin.sessions| == |old(devin.sessions)| && old(history) <= history
    {
      SessionsMove();
      IngestPasses();
    }

    /** The process dies: the database and Devin stay, the controller starts over. */
    method Die()
      requires Valid()
      modifies this`history, this`pc, this`lock
      ensures Valid() && pc == Idle && lock == if old(lock) == HeldByController then Free else old(lock)
      ensures old(history) <= history
    {
      Took(cfg, history, Abs(), Crash);
      history := history + [Next(cfg, Abs(), Crash)];
      pc, lock := Idle, if lock == HeldByController then Free else lock;
    }

    /** Counts the failure and releases the item, or blocks it once there were too many. */
    method ReleaseAfterFailure(i: nat)
      requires Valid() && lock == Free && i < |items|
      requires pc in {LookupFailed(i), CreateFailed(i), Clear(i, true)}
      modifies this`history, this`items, this`pc
      ensures Valid() && pc == Idle
      ensures items == old(items)[i := DispatchFailure(cfg, old(items[i]))]
      ensures items[i] == old(items)[i].(life := items[i].life, failures := old(items)[i].failures + 1)
      ensures old(items)[i].life.state == Dispatching ==>
        items[i].life.state == if items[i].failures < cfg.maxFailures then IssueOpen else NeedsHuman
    {
      hide Reached, Move;
      FailureMeans(cfg, items[i]);
      Took(cfg, history, Abs(), Fail);
      history := history + [Next(cfg, Abs(), Fail)];
      var counted := items[i].(failures := items[i].failures + 1);
      if counted.failures >= cfg.maxFailures {
        items := items[i := Move(counted, Blocked)];
      } else {
        items := items[i := Move(counted, DispatchFailed)];
      }
      pc := Idle;
    }

    /** Binds the item to a session; a session seen before keeps its row. */
    method RecordSession(i: nat, snap: Snap, adopted: bool)
      requires Valid() && lock == Free && i < |items|
      requires pc == if adopted then Found(i, snap) else Created(i, snap)
      modifies this`history, this`items, this`rows, this`pc
      ensures Valid() && pc == Idle
      ensures items == old(items)[i := Move(old(items[i]).(active := Some(snap.sid)),
                                            if adopted then SessionAdopted else SessionCreated)]
      ensures items[i] == old(items)[i].(life := items[i].life, active := Some(snap.sid))
      ensures old(items)[i].life.state == Dispatching ==> items[i].life.state == SessionActive
      ensures rows == if snap.sid in old(rows) then old(rows)
                      else old(rows)[snap.sid := Row(i, old(items[i].cap), snap.acus)]
    {
      hide Reached, Move;
      BindingMeans(items[i], snap.sid, if adopted then SessionAdopted else SessionCreated);
      ghost var step := if adopted then Adopt else RecordCreated;
      Took(cfg, history, Abs(), step);
      history := history + [Next(cfg, Abs(), step)];
      if snap.sid !in rows {
        rows := rows[snap.sid := Row(i, items[i].cap, snap.acus)];
      }
      items :=
        items[i := Move(items[i].(active := Some(snap.sid)), if adopted then SessionAdopted else SessionCreated)];
      pc := Idle;
    }

    /** Asks Devin for the item's tagged sessions and picks the one to adopt. */
    method LookUp(i: nat, ghost recovering: bool) returns (listed: bool, best: Option<Snap>)
      requires Valid() && lock == Free && pc == Reserved(i, recovering) && i < |items|
      modifies this`history, this`lock, this`runs, this`pending, this`pc, devin
      ensures Valid() && lock == Free && |devin.sessions| == |old(devin.sessions)|
      ensures pc ==
        if !listed then LookupFailed(i) else if best.Some? then Found(i, best.value) else Clear(i, recovering)
      ensures listed ==> PicksBest(devin.sessions, i, rows, best)
    {
      hide Reached, Tagged, Choice, IsBest, PicksBest;
      var known := set s | s in rows && rows[s].item == i;
      Elsewhere();
      var answer := devin.ListSessions(i);
      listed, best := answer.Some?, None;
      if listed {
        best := BestAdoptable(answer.value, known);
        ListingDecides(Abs(), i, answer.value, known, best);
        BestMeans(devin.sessions, i, rows, answer.value, known, best);
      }
      Took(cfg, history, Abs(), Lookup(listed));
      history := history + [Next(cfg, Abs(), Lookup(listed))];
      pc := if !listed then LookupFailed(i) else if best.Some? then Found(i, best.value) else Clear(i, recovering);
    }

    /** Binds the item to the best session Devin holds for its tag. `None` when there is nothing to
        adopt. */
    method AdoptTaggedSession(i: nat, ghost recovering: bool) returns (outcome: Option<Outcome>)
      requires Valid() && lock == Free && pc == Reserved(i, recovering) && i < |items|
      modifies this`history, this`lock, this`runs, this`pending, this`items, this`rows, this`pc, devin
      ensures Valid() && lock == Free && |devin.sessions| == |old(devin.sessions)|
      ensures outcome in {None, Some(AdoptedSession), Some(FailedDispatch), Some(Crashed)}
      ensures outcome == None ==> pc == Clear(i, recovering) && items == old(items) && rows == old(rows)
      ensures outcome == Some(AdoptedSession) ==>
        pc == Idle && (forall s :: s in old(rows) ==> s in rows && rows[s] == old(rows)[s]) &&
        exists sid: nat :: sid in rows &&
          items == old(items)[i := Move(old(items[i]).(active := Some(sid)), SessionAdopted)]
      ensures outcome == Some(FailedDispatch) ==>
        pc == Idle && rows == old(rows) && items == old(items)[i := DispatchFailure(cfg, old(items[i]))]
      ensures outcome == Some(Crashed) ==> pc == Idle && items == old(items) && rows == old(rows)
    {
      var listed, best := LookUp(i, recovering);
      Elsewhere();
      var dies: bool := *;
      if dies {
        Die();
        outcome := Some(Crashed);
      } else if !listed {
        ReleaseAfterFailure(i);
        outcome := Some(FailedDispatch);
      } else if best.Some? {
        RecordSession(i, best.value, true);
        outcome := Some(AdoptedSession);
      } else {
        outcome := None;
      }
    }

    /** Asks Devin for a new session. */
    method CreateAtDevin(i: nat) returns (answer: Option<Snap>)
      requires Valid() && pc == Clear(i, false) && i < |items|
      modifies this`history, this`pc, devin
      ensures Valid() && pc == if answer.Some? then Created(i, answer.value) else CreateFailed(i)
      ensures answer.Some? ==>
        |devin.sessions| == |old(devin.sessions)| + 1 && answer.value == Snap(|old(devin.sessions)|, true, 0.0)
    {
      ghost var before := Abs();
      var created, effect := devin.CreateSession(i, items[i].cap);
      ghost var step := CreateCall(effect, created.Some?);
      Took(cfg, history, before, step);
      history := history + [Next(cfg, before, step)];
      pc := if created.Some? then Created(i, created.value) else CreateFailed(i);
      answer := created;
    }

    /** Uploads the findings and creates the session, with the lock released. */
    method CreateAndRecord(i: nat) returns (outcome: Outcome)
      requires Valid() && lock == Free && pc == Clear(i, false) && i < |items|
      modifies this`history, this`lock, this`runs, this`pending, this`items, this`rows, this`pc, devin
      ensures Valid() && lock == Free && pc == Idle
      ensures outcome in {CreatedSession, FailedDispatch, Crashed}
      ensures outcome == CreatedSession ==>
        var sid := |old(devin.sessions)|;
        sid < |devin.sessions| && sid !in old(rows) && rows == old(rows)[sid := Row(i, old(items[i]).cap, 0.0)] &&
        items == old(items)[i := Move(old(items[i]).(active := Some(sid)), SessionCreated)]
      ensures outcome == FailedDispatch ==>
        rows == old(rows) && items == old(items)[i := DispatchFailure(cfg, old(items[i]))]
      ensures outcome == Crashed ==> items == old(items) && rows == old(rows)
    {
      hide Reached, Move, DispatchFailure;
      NextIdIsNew(cfg, history, Abs());
      var answer := CreateAtDevin(i);
      Elsewhere();
      var dies: bool := *;
      if dies {
        Die();
        outcome := Crashed;
      } else if answer.None? {
        ReleaseAfterFailure(i);
        outcome := FailedDispatch;
      } else {
        RecordSession(i, answer.value, false);
        outcome := CreatedSession;
      }
    }

    /** Commits `dispatching` for an item brought to `issue_open`, on whichever path admitted it. */
    method CommitReservation(i: nat, ready: Item, ghost admission: Step)
      requires Valid() && i < |items| && Enabled(cfg, Abs(), admission)
      requires (admission == Reserve(i) && ready == items[i]) ||
        (admission == LaunchReserve && pc.item == i && ready == MadeReady(items[i]))
      modifies this`history, this`lock, this`items, this`pc, this`debt
      ensures Valid() && lock == Free && pc == Reserved(i, false)
      ensures items == old(items)[i := Move(ready, DispatchStarted)]
    {
      hide Reached, Move, MadeReady, ReservedCaps, HasRoom;
      Took(cfg, history, Abs(), admission);
      history := history + [Next(cfg, Abs(), admission)];
      debt := if admission.LaunchReserve? then debt + ReservedCaps(items) else debt;
      items, pc, lock := items[i := Move(ready, DispatchStarted)], Reserved(i, false), Free;
    }

    /** Reserve, reconcile, create: the item ends bound to a session, released, or, after a crash,
        in `dispatching`. No other item is touched. */
    method DispatchOne(i: nat, ready: Item, ghost admission: Step) returns (outcome: Outcome)
      requires Valid() && i < |items| && Enabled(cfg, Abs(), admission)
      requires (admission == Reserve(i) && ready == items[i]) ||
        (admission == LaunchReserve && pc.item == i && ready == MadeReady(items[i]))
      modifies this`history, this`lock, this`runs, this`pending, this`items, this`rows, this`pc, this`debt, devin
      ensures Valid() && lock == Free && pc == Idle && |items| == |old(items)|
      ensures WritesOnly(old(items), items, i)
      ensures forall s :: s in old(rows) ==> s in rows && rows[s] == old(rows)[s]
      ensures outcome in {CreatedSession, AdoptedSession} ==>
        exists sid: nat :: sid in rows && (outcome == CreatedSession ==> sid !in old(rows)) &&
          items[i] == Move(Move(ready, DispatchStarted).(active := Some(sid)),
                           if outcome == CreatedSession then SessionCreated else SessionAdopted)
      ensures outcome == FailedDispatch ==>
        rows == old(rows) && items[i] == DispatchFailure(cfg, Move(ready, DispatchStarted))
      ensures outcome == Crashed ==> rows == old(rows) && items[i] == Move(ready, DispatchStarted)
    {
      hide Reached, Move, MadeReady, DispatchFailure, Enabled;
      CommitReservation(i, ready, admission);
      var found := AdoptTaggedSession(i, false);
      if found.Some? {
        outcome := found.value;
      } else {
        outcome := CreateAndRecord(i);
      }
    }

    method BeginRecovery(i: nat)
      requires Valid() && lock == Free && pc == Idle && i < |items| && items[i].life.state == Dispatching
      modifies this`history, this`pc
      ensures Valid() && pc == Reserved(i, true)
    {
      hide Reached, HasRoom;
      Took(cfg, history, Abs(), RecoverBegin(i));
      history := history + [Next(cfg, Abs(), RecoverBegin(i))];
      pc := Reserved(i, true);
    }

    /** Resumes one item a crashed dispatch left in `dispatching`. */
    method RecoverOne(i: nat) returns (outcome: Outcome)
      requires Valid() && lock == Free && pc == Idle && i < |items| && items[i].life.state == Dispatching
      modifies this`history, this`lock, this`runs, this`pending, this`items, this`rows, this`pc, devin
      ensures Valid() && lock == Free && pc == Idle && WritesOnly(old(items), items, i)
      ensures outcome in {AdoptedSession, FailedDispatch, Crashed}
      ensures outcome == AdoptedSession ==> items[i].life.state == SessionActive && items[i].active.Some?
      ensures outcome == FailedDispatch ==>
        items[i] == DispatchFailure(cfg, old(items[i])) && rows == old(rows) &&
        items[i].life.state in {IssueOpen, NeedsHuman}
      ensures outcome == Crashed ==> items == old(items) && rows == old(rows)
      ensures ActiveCount(items) <= ActiveCount(old(items))
    {
      hide Reached, Move, DispatchFailure, ActiveCount;
      BeginRecovery(i);
      var found := AdoptTaggedSession(i, true);
      if found.Some? {
        outcome := found.value;
      } else {
        ReleaseAfterFailure(i);
        outcome := FailedDispatch;
      }
      RecoveryFrees(cfg, old(items), items, i, outcome);
    }

    /** Takes every item out of `dispatching`, unless the process dies on the way. */
    method RecoverDispatching() returns (adopted: seq<nat>, died: bool)
      requires Valid() && lock == Free && pc == Idle
      modifies this`history, this`lock, this`runs, this`pending, this`items, this`rows, this`pc, devin
      ensures Valid() && lock == Free && pc == Idle && |items| == |old(items)|
      ensures forall j :: 0 <= j < |items| && old(items)[j].life.state != Dispatching ==> items[j] == old(items)[j]
      ensures !died ==> NoneDispatching(items)
      ensures Recovers(old(items), items, adopted)
      ensures ActiveCount(items) <= ActiveCount(old(items))
    {
      hide Reached, ActiveCount, Move, DispatchFailure;
      adopted, died := [], false;
      var i := 0;
      while i < |items|
        invariant 0 <= i <= |items| == |old(items)|
        invariant Valid() && lock == Free && pc == Idle
        invariant forall j :: 0 <= j < |items| && old(items)[j].life.state != Dispatching ==> items[j] == old(items)[j]
        invariant forall j :: i <= j < |items| ==> items[j] == old(items)[j]
        invariant forall j :: 0 <= j < i ==> items[j].life.state != Dispatching
        invariant forall k :: 0 <= k < |adopted| ==> adopted[k] < i
        invariant forall j, k :: 0 <= j < k < |adopted| ==> adopted[j] < adopted[k]
        invariant forall j: nat :: j in adopted <==>
          j < i && old(items)[j].life.state == Dispatching && items[j].life.state == SessionActive
        invariant ActiveCount(items) <= ActiveCount(old(items))
      {
        if items[i].life.state == Dispatching {
          var outcome := RecoverOne(i);
          if outcome == Crashed {
            return adopted, true;
          }
          if outcome == AdoptedSession {
            adopted := adopted + [i];
          }
        }
        i := i + 1;
      }
    }

    /** ACUs consumed by every session ever recorded, and the unconsumed caps of the sessions bound
        to active items. */
    method AcuBudgetPosition() returns (consumed: real, outstanding: real)
      requires Valid()
      ensures consumed == Spent(rows, |devin.sessions|) && outstanding == Owed(items, rows, |devin.sessions|)
      ensures consumed + outstanding == CommittedIn(Abs())
    {
      hide Reached, Inv, Committed, Spent, Owed, BoundToActive, IsReserved;
      ReachedIsInv(cfg, history, Abs());
      ghost var w := Abs();
      var reserved := ReservedIds();
      consumed, outstanding := 0.0, 0.0;
      var rest := rows;
      while rest != map[]
        invariant forall s :: s in rest ==> s in rows && rest[s] == rows[s]
        invariant consumed + Spent(rest, |w.remote|) == Spent(rows, |w.remote|)
        invariant outstanding + Owed(items, rest, |w.remote|) == Owed(items, rows, |w.remote|)
        decreases |rest.Keys|
      {
        var sid :| sid in rest;
        var fewer := rest - {sid};
        OneSessionLess(cfg, w, reserved, rest, sid, fewer);
        consumed := consumed + rows[sid].acus;
        if sid in reserved {
          outstanding := outstanding + Positive(rows[sid].cap - rows[sid].acus);
        }
        rest := fewer;
      }
      NothingSpent(items, rest, |w.remote|);
      SpentAndOwed(cfg, w, |w.remote|);
    }

    method ReservedIds() returns (reserved: set<nat>)
      ensures IsReserved(items, reserved)
    {
      reserved := {};
      var i := 0;
      while i < |items|
        invariant 0 <= i <= |items| && IsReserved(items[..i], reserved)
      {
        assert items[..i + 1] == items[..i] + [items[i]];
        ReservedNext(items[..i], reserved, items[i]);
        if items[i].active.Some? && IsActive(items[i].life.state) {
          reserved := reserved + {items[i].active.value};
        }
        i := i + 1;
      }
      assert items[..i] == items;
    }

    method ActiveSessions() returns (n: nat)
      ensures n == ActiveCount(items)
    {
      n := 0;
      var i := 0;
      while i < |items|
        invariant 0 <= i <= |items| && n == ActiveCount(items[..i])
      {
        assert items[..i + 1][..i] == items[..i];
        n := n + if IsActive(items[i].life.state) then 1 else 0;
        i := i + 1;
      }
      assert items[..i] == items;
    }

    /** One candidate of a tick's dispatch: capacity, budget and its state are read again under the
        lock that reserves it. */
    method DispatchCandidate(i: nat) returns (outcome: Option<Outcome>)
      requires Valid() && lock == Free && pc == Idle && i < |items| && NoneDispatching(items)
      modifies this`history, this`lock, this`runs, this`pending, this`items, this`rows, this`pc, this`debt, devin
      ensures Valid() && lock == Free && pc == Idle && WritesOnly(old(items), items, i)
      ensures outcome != Some(Crashed) ==> NoneDispatching(items)
      ensures outcome == None ==> items == old(items) && rows == old(rows) && history == old(history)
      ensures outcome == None <==>
        !(old(items)[i].life.state == IssueOpen && old(items)[i].issue &&
          ActiveCount(old(items)) < cfg.maxSessions &&
          CommittedIn(old(Abs())) + old(items)[i].cap <= cfg.budget)
      ensures ActiveCount(items) <= cfg.maxSessions || items == old(items)
      ensures outcome.Some? ==> LeftBy(items[i], outcome.value)
    {
      hide Reached, Move, DispatchFailure, ActiveCount, Committed, Next;
      var active := ActiveSessions();
      var consumed, outstanding := AcuBudgetPosition();
      if active >= cfg.maxSessions || items[i].life.state != IssueOpen || !items[i].issue ||
        consumed + outstanding + items[i].cap > cfg.budget {
        return None;
      }
      var started := DispatchOne(i, items[i], Reserve(i));
      DispatchLeaves(cfg, old(items), items, i, old(items[i]), started);
      outcome := Some(started);
    }

    /** One candidate's turn: its labels are read with no lock held, then it is admitted or passed over. */
    method TakeTurn(i: nat) returns (outcome: Option<Outcome>, ghost attempt: Try)
      requires Valid() && lock == Free && pc == Idle && i < |items| && NoneDispatching(items)
      modifies this`history, this`lock, this`runs, this`pending, this`items, this`rows, this`pc, this`debt, devin
      ensures Valid() && lock == Free && pc == Idle && WritesOnly(old(items), items, i)
      ensures outcome != Some(Crashed) ==> NoneDispatching(items)
      ensures ActiveCount(items) <= cfg.maxSessions || items == old(items)
      ensures TryOk(cfg, attempt) && attempt.target == i && attempt.outcome == outcome
      ensures attempt.before.items == old(items) && attempt.after == items
    {
      hide Reached, ActiveCount, HasRoom, IsActive;
      ghost var before := Abs();
      outcome := None;
      var approved: bool := *;
      if approved {
        outcome := DispatchCandidate(i);
      }
      attempt := Try(i, approved, before, outcome, items);
    }

    /** A tick's dispatch: recover what a crash left, then admit the candidates in the given order
        while there is a slot. Unless the process dies every candidate gets its try; `tries` tells what
        each try read and left, and what is returned is exactly what they did. Never more items are
        active afterwards than the limit, or than before. */
    method DispatchTargets(targets: seq<nat>)
      returns (created: nat, adopted: seq<nat>, died: bool, ghost recovered: seq<nat>, ghost start: seq<Item>,
        ghost tries: seq<Try>)
      requires Valid() && lock == Free && pc == Idle && forall k :: 0 <= k < |targets| ==> targets[k] < |items|
      modifies this`history, this`lock, this`runs, this`pending, this`items, this`rows, this`pc, this`debt, devin
      ensures Valid() && lock == Free && pc == Idle && |items| == |old(items)|
      ensures ActiveCount(items) <= cfg.maxSessions || ActiveCount(items) <= ActiveCount(old(items))
      ensures !died ==> NoneDispatching(items) && |tries| == |targets|
      ensures forall j :: 0 <= j < |items| && old(items)[j].life.state != Dispatching && j !in targets ==>
        items[j] == old(items)[j]
      ensures Recovers(old(items), start, recovered)
      ensures |tries| <= |targets| && TriesOk(cfg, tries, targets[..|tries|]) && Chained(tries, start, items)
      ensures created == CreatedBy(tries) && adopted == recovered + AdoptedBy(tries)
    {
      hide Reached, ActiveCount, TryOk, TriesOk, Chained, CreatedBy, AdoptedBy;
      created := 0;
      adopted, died := RecoverDispatching();
      recovered, start, tries := adopted, items, [];
      NoTries(cfg, targets, start);
      var k := 0;
      while k < |targets| && !died
        invariant 0 <= k <= |targets| && |items| == |old(items)| == |start| && |tries| == k
        invariant Valid() && lock == Free && pc == Idle && (!died ==> NoneDispatching(items))
        invariant ActiveCount(items) <= cfg.maxSessions || ActiveCount(items) <= ActiveCount(old(items))
        invariant forall j :: 0 <= j < |items| && old(items)[j].life.state != Dispatching && j !in targets ==>
          items[j] == old(items)[j]
        invariant TriesOk(cfg, tries, targets[..k]) && Chained(tries, start, items)
        invariant created == CreatedBy(tries) && adopted == recovered + AdoptedBy(tries)
      {
        var outcome, attempt := TakeTurn(targets[k]);
        TryCounts(cfg, tries, attempt, start, targets, k);
        tries := tries + [attempt];
        match outcome {
          case Some(CreatedSession) => created := created + 1;
          case Some(AdoptedSession) => adopted := adopted + [targets[k]];
          case Some(Crashed) => died := true;
          case _ =>
        }
        k := k + 1;
      }
    }

    /** Takes the write lock and reads whether the item may be launched; the lock stays taken if so. */
    method BeginLaunch(i: nat) returns (eligible: bool)
      requires Valid() && lock != HeldByController && pc == Idle && i < |items|
      modifies this`history, this`lock, this`runs, this`pending, this`pc
      ensures Valid()
      ensures eligible ==> pc == Launching(i, runs) && lock == HeldByController && pending == 0
      ensures !eligible ==> pc == Idle && lock == Free
      ensures eligible <==>
        items[i].life.state in {Queued, IssueOpen, NeedsHuman, Failed} && pending == 0 &&
        ActiveCount(items) < cfg.maxSessions && CommittedIn(Abs()) + items[i].cap <= cfg.budget
    {
      hide Reached, Committed, ActiveCount;
      IngestPasses();
      var active := ActiveSessions();
      var consumed, outstanding := AcuBudgetPosition();
      eligible := items[i].life.state in {Queued, IssueOpen, NeedsHuman, Failed} && pending == 0 &&
        active < cfg.maxSessions && consumed + outstanding + items[i].cap <= cfg.budget;
      if eligible {
        Took(cfg, history, Abs(), LaunchBegin(i));
        history := history + [Next(cfg, Abs(), LaunchBegin(i))];
        pc, lock := Launching(i, runs), HeldByController;
      }
    }

    method GiveUpLaunch(i: nat, prepared: bool)
      requires Valid() && i < |items| && pc == Launching(i, runs)
      modifies this`history, this`lock, this`items, this`pc
      ensures Valid() && pc == Idle && lock == Free
      ensures items == old(items)[i := if prepared then MadeReady(old(items)[i]) else old(items)[i]]
    {
      Took(cfg, history, Abs(), LaunchGiveUp(prepared));
      history := history + [Next(cfg, Abs(), LaunchGiveUp(prepared))];
      items, pc, lock := items[i := if prepared then MadeReady(items[i]) else items[i]], Idle, Free;
    }

    /** The rest of an eligible launch: what it prepares may be lost with a failed GitHub call;
        otherwise it reserves and dispatches. */
    method LaunchEligible(i: nat) returns (result: LaunchOutcome)
      requires Valid() && i < |items| && pc == Launching(i, runs)
      requires items[i].life.state in {Queued, IssueOpen, NeedsHuman, Failed} && ActiveCount(items) < cfg.maxSessions
      modifies this`history, this`lock, this`runs, this`pending, this`items, this`rows, this`pc, this`debt, devin
      ensures Valid() && pc == Idle && lock == Free && WritesOnly(old(items), items, i)
      ensures result != Rejected
      ensures result == LaunchFailed ==> items[i] in {old(items)[i], MadeReady(old(items)[i])} && rows == old(rows)
      ensures result.Launched? ==> MadeReady(old(items)[i]).issue && ActiveCount(items) <= cfg.maxSessions
    {
      hide MadeReady, IsActive, ActiveCount, Reached, Move, DispatchFailure;
      SessionsMove();
      var ready := MadeReady(items[i]);
      var githubFails: bool, prepared: bool := *, *;
      if githubFails || !ready.issue {
        GiveUpLaunch(i, prepared);
        return LaunchFailed;
      }
      MayReserve(cfg, Abs(), i);
      var outcome := DispatchOne(i, ready, LaunchReserve);
      ReadyIsInactive(old(items)[i]);
      DispatchLeaves(cfg, old(items), items, i, ready, outcome);
      result := Launched(outcome);
    }

    /** Explicit operator dispatch of one item, in one write transaction up to its reservation. */
    method Launch(i: nat) returns (result: LaunchOutcome)
      requires Valid() && lock != HeldByController && pc == Idle && i < |items|
      modifies this`history, this`lock, this`runs, this`pending, this`items, this`rows, this`pc, this`debt, devin
      ensures Valid() && pc == Idle && lock == Free && WritesOnly(old(items), items, i)
      ensures result == Rejected ==>
        items == old(items) && rows == old(rows) &&
        (items[i].life.state !in {Queued, IssueOpen, NeedsHuman, Failed} || pending > 0 ||
         ActiveCount(items) >= cfg.maxSessions || CommittedIn(old(Abs())) + items[i].cap > cfg.budget)
      ensures result == LaunchFailed ==> items[i] in {old(items)[i], MadeReady(old(items)[i])} && rows == old(rows)
      ensures result.Launched? ==>
        old(items)[i].life.state in {Queued, IssueOpen, NeedsHuman, Failed} && MadeReady(old(items)[i]).issue &&
        ActiveCount(old(items)) < cfg.maxSessions && CommittedIn(old(Abs())) + old(items)[i].cap <= cfg.budget &&
        ActiveCount(items) <= cfg.maxSessions
    {
      hide MadeReady, ActiveCount, Committed, Reached;
      var eligible := BeginLaunch(i);
      if !eligible {
        return Rejected;
      }
      result := LaunchEligible(i);
    }

    /** Asks Devin to end the session of an item that is still working. */
    method StopAtDevin(i: nat) returns (answer: Option<Snap>)
      requires Valid() && lock == Free && pc == Idle && i < |items|
      requires Enabled(cfg, Abs(), StopCall(i, true, true))
      modifies this`history, this`pc, devin
      ensures Valid() && |devin.sessions| == |old(devin.sessions)|
      ensures pc == if answer.Some? then Stopped(i, answer.value) else Idle
      ensures answer.Some? ==> Some(answer.value.sid) == items[i].active
      ensures old(history) <= history && |history| == |old(history)| + 1 &&
        AsksToStop(cfg, old(Abs()), i, history[|old(history)|])
    {
      ghost var before := Abs();
      var answered, effect := devin.TerminateSession(items[i].active.value);
      ghost var step := StopCall(i, effect, answered.Some?);
      Took(cfg, history, before, step);
      history := history + [Next(cfg, before, step)];
      pc := if answered.Some? then Stopped(i, answered.value) else Idle;
      answer := answered;
    }

    method RecordStop(i: nat, snap: Snap)
      requires Valid() && lock == Free && i < |items| && pc == Stopped(i, snap)
      requires items[i].life.state == SessionActive && snap.sid in rows
      modifies this`history, this`items, this`rows, this`pc
      ensures Valid() && pc == Idle && old(history) <= history
      ensures items == old(items)[i := Move(old(items)[i], OperatorCancelled)]
      ensures items[i].life.state == NeedsHuman && ActiveCount(items) == ActiveCount(old(items)) - 1
      ensures rows == old(rows)[snap.sid := old(rows)[snap.sid].(acus := snap.acus)]
    {
      hide Reached, ActiveCount;
      StopParks(items, i);
      ghost var before := Abs();
      Took(cfg, history, before, StopRecord);
      history := history + [Next(cfg, before, StopRecord)];
      rows := rows[snap.sid := rows[snap.sid].(acus := snap.acus)];
      items := items[i := Move(items[i], OperatorCancelled)];
      pc := Idle;
    }

    /** Stops the session of an item that is still working and parks the item for a human. */
    method Cancel(i: nat) returns (stopped: bool)
      requires Valid() && lock == Free && pc == Idle && i < |items|
      modifies this`history, this`lock, this`runs, this`pending, this`items, this`rows, this`pc, devin
      ensures Valid() && pc == Idle && lock == Free && WritesOnly(old(items), items, i)
      ensures stopped ==>
        old(items)[i].life.state == SessionActive && !old(items)[i].pr && old(items)[i].active.Some? &&
        items[i] == Move(old(items)[i], OperatorCancelled) && rows.Keys == old(rows).Keys &&
        items[i].life.state == NeedsHuman && ActiveCount(items) == ActiveCount(old(items)) - 1
      ensures !stopped ==> items == old(items) && rows == old(rows)
      ensures MayBeStopped(old(items)[i], old(rows)) ==>
        old(history) < history && AsksToStop(cfg, old(Abs()), i, history[|old(history)|])
      ensures !MayBeStopped(old(items)[i], old(rows)) ==> devin.sessions == old(devin.sessions)
    {
      hide Reached, Move, ActiveCount, AsksToStop;
      stopped := false;
      if items[i].life.state != SessionActive || items[i].pr || items[i].active.None? ||
        items[i].active.value !in rows {
        return;
      }
      BoundIsAtDevin(cfg, history, Abs(), items[i].active.value);
      var answer := StopAtDevin(i);
      if answer.None? {
        return;
      }
      Elsewhere();
      var dies: bool := *;
      if dies {
        Die();
        return;
      }
      RecordStop(i, answer.value);
      stopped := true;
    }
  }

  lemma ReachedIsInv(cfg: Config, history: seq<World>, w: World)
    requires Reached(cfg, history, w)
    ensures Inv(cfg, w)
  {
    var steps := HistoryIsARun(cfg, history, w);
  }

  lemma NextIdIsNew(cfg: Config, history: seq<World>, w: World)
    requires Reached(cfg, history, w)
    ensures |w.remote| !in w.rows
  {
    var steps := HistoryIsARun(cfg, history, w);
  }

  lemma BoundIsAtDevin(cfg: Config, history: seq<World>, w: World, sid: nat)
    requires Reached(cfg, history, w) && sid in w.rows
    ensures sid < |w.remote|
  {
    var steps := HistoryIsARun(cfg, history, w);
  }

  /** A recorded session works for the item, which has no pull request yet. */
  predicate MayBeStopped(it: Item, rows: map<nat, Row>) {
    it.life.state == SessionActive && !it.pr && it.active.Some? && it.active.value in rows
  }

  /** The world after Devin is asked to end the item's session, whatever comes of the call. */
  ghost predicate AsksToStop(cfg: Config, w: World, i: nat, v: World) {
    exists effect, ok :: Enabled(cfg, w, StopCall(i, effect, ok)) && v == Next(cfg, w, StopCall(i, effect, ok))
  }

  /** A stopped item waits for a human and gives its slot back. */
  lemma StopParks(items: seq<Item>, i: nat)
    requires i < |items| && items[i].life.state == SessionActive
    ensures var parked := Move(items[i], OperatorCancelled);
      parked.life.state == NeedsHuman && ActiveCount(items[i := parked]) == ActiveCount(items) - 1
  {
    hide ActiveCount;
    CountsAfterPut(items, i, Move(items[i], OperatorCancelled));
  }

  lemma ReadyIsInactive(before: Item)
    requires before.life.state in {Queued, IssueOpen, NeedsHuman, Failed}
    ensures MadeReady(before).life.state == IssueOpen && !IsActive(before.life.state)
  {
  }

  lemma MayReserve(cfg: Config, w: World, i: nat)
    requires w.pc.Launching? && w.pc.item == i && i < |w.items| && MadeReady(w.items[i]).issue
    ensures Enabled(cfg, w, LaunchReserve)
  {
  }

  /** One candidate's turn: what was read, what came of it and the items it left. */
  datatype Try = Try(target: nat, approved: bool, before: World, outcome: Option<Outcome>, after: seq<Item>)

  /** The state in which a dispatch leaves its item. */
  predicate LeftBy(it: Item, outcome: Outcome) {
    match outcome
    case CreatedSession => it.life.state == SessionActive && it.active.Some?
    case AdoptedSession => it.life.state == SessionActive && it.active.Some?
    case FailedDispatch => it.life.state in {IssueOpen, NeedsHuman}
    case Crashed => it.life.state == Dispatching
  }

  /** The candidate was dispatched exactly when its labels, its state, the session limit and the budget
      allowed it at its turn; nothing but its item was touched. */
  ghost predicate TryOk(cfg: Config, t: Try) {
    t.target < |t.before.items| && WritesOnly(t.before.items, t.after, t.target) &&
    var it := t.before.items[t.target];
    (t.outcome.Some? <==>
      t.approved && it.life.state == IssueOpen && it.issue && ActiveCount(t.before.items) < cfg.maxSessions &&
      CommittedIn(t.before) + it.cap <= cfg.budget) &&
    (t.outcome.None? ==> t.after == t.before.items) && (t.outcome.Some? ==> LeftBy(t.after[t.target], t.outcome.value))
  }

  ghost predicate TriesOk(cfg: Config, tries: seq<Try>, targets: seq<nat>) {
    |tries| == |targets| && forall k :: 0 <= k < |tries| ==> tries[k].target == targets[k] && TryOk(cfg, tries[k])
  }

  /** The tries follow one another from `start` to `end`, without anything else moving an item. */
  ghost predicate Chained(tries: seq<Try>, start: seq<Item>, end: seq<Item>)
    decreases |tries|
  {
    if tries == [] then start == end
    else
      var last := tries[|tries| - 1];
      last.after == end && Chained(tries[..|tries| - 1], start, last.before.items)
  }

  function CreatedBy(tries: seq<Try>): nat {
    if tries == [] then 0
    else CreatedBy(tries[..|tries| - 1]) + if tries[|tries| - 1].outcome == Some(CreatedSession) then 1 else 0
  }

  function AdoptedBy(tries: seq<Try>): seq<nat> {
    if tries == [] then []
    else
      AdoptedBy(tries[..|tries| - 1]) +
      (if tries[|tries| - 1].outcome == Some(AdoptedSession) then [tries[|tries| - 1].target] else [])
  }

  lemma NoTries(cfg: Config, targets: seq<nat>, start: seq<Item>)
    ensures TriesOk(cfg, [], targets[..0]) && Chained([], start, start) && CreatedBy([]) == 0 && AdoptedBy([]) == []
  {
  }

  lemma TryCounts(cfg: Config, tries: seq<Try>, t: Try, start: seq<Item>, targets: seq<nat>, k: nat)
    requires k < |targets| && TriesOk(cfg, tries, targets[..k]) && TryOk(cfg, t) && t.target == targets[k]
    requires Chained(tries, start, t.before.items)
    ensures TriesOk(cfg, tries + [t], targets[..k + 1]) && Chained(tries + [t], start, t.after)
    ensures CreatedBy(tries + [t]) == CreatedBy(tries) + if t.outcome == Some(CreatedSession) then 1 else 0
    ensures AdoptedBy(tries + [t]) == AdoptedBy(tries) + if t.outcome == Some(AdoptedSession) then [t.target] else []
  {
    hide TryOk;
    assert (tries + [t])[..|tries|] == tries;
    assert targets[..k + 1] == targets[..k] + [targets[k]];
  }

  /** Recovery lists in order, each once, the stranded items it bound to a session, and touches no item that was
      not stranded. */
  ghost predicate Recovers(before: seq<Item>, after: seq<Item>, recovered: seq<nat>) {
    |after| == |before| &&
    (forall j :: 0 <= j < |before| && before[j].life.state != Dispatching ==> after[j] == before[j]) &&
    (forall j, k :: 0 <= j < k < |recovered| ==> recovered[j] < recovered[k]) &&
    forall j: nat :: j in recovered <==>
      j < |before| && before[j].life.state == Dispatching && after[j].life.state == SessionActive
  }

  /** Where one dispatch leaves its item, and that it never takes a second slot. */
  lemma DispatchLeaves(cfg: Config, before: seq<Item>, after: seq<Item>, i: nat, ready: Item, outcome: Outcome)
    requires i < |before| && WritesOnly(before, after, i) && ready.life.state == IssueOpen
    requires !IsActive(before[i].life.state) && ActiveCount(before) < cfg.maxSessions
    requires outcome in {CreatedSession, AdoptedSession} ==>
      exists sid: nat :: after[i] == Move(Move(ready, DispatchStarted).(active := Some(sid)),
                                          if outcome == CreatedSession then SessionCreated else SessionAdopted)
    requires outcome == FailedDispatch ==> after[i] == DispatchFailure(cfg, Move(ready, DispatchStarted))
    requires outcome == Crashed ==> after[i] == Move(ready, DispatchStarted)
    ensures ActiveCount(after) <= cfg.maxSessions
    ensures LeftBy(after[i], outcome)
  {
    assert Move(ready, DispatchStarted).life.state == Dispatching;
    FailureFrees(cfg, Move(ready, DispatchStarted));
    CountsAfterPut(before, i, after[i]);
    assert after == before[i := after[i]];
  }

  lemma RecoveryFrees(cfg: Config, before: seq<Item>, after: seq<Item>, i: nat, outcome: Outcome)
    requires i < |before| && before[i].life.state == Dispatching && WritesOnly(before, after, i)
    requires outcome == Crashed ==> after == before
    requires outcome == FailedDispatch ==> after[i] == DispatchFailure(cfg, before[i])
    requires outcome == AdoptedSession ==>
      exists sid: nat :: after[i] == Move(before[i].(active := Some(sid)), SessionAdopted)
    requires outcome in {AdoptedSession, FailedDispatch, Crashed}
    ensures outcome == AdoptedSession ==> after[i].life.state == SessionActive && after[i].active.Some?
    ensures outcome == FailedDispatch ==> after[i].life.state in {IssueOpen, NeedsHuman}
    ensures ActiveCount(after) <= ActiveCount(before)
  {
    FailureFrees(cfg, before[i]);
    CountsAfterPut(before, i, after[i]);
    assert after == before[i := after[i]];
  }

  /** What the recorded sessions below `n` have consumed. */
  function Spent(rows: map<nat, Row>, n: nat): real {
    if n == 0 then 0.0 else Spent(rows, n - 1) + if n - 1 in rows then rows[n - 1].acus else 0.0
  }

  predicate BoundToActive(items: seq<Item>, sid: nat) {
    exists j :: 0 <= j < |items| && items[j].active == Some(sid) && IsActive(items[j].life.state)
  }

  /** What the recorded sessions below `n` that an active item is bound to may still consume. */
  function Owed(items: seq<Item>, rows: map<nat, Row>, n: nat): real {
    if n == 0 then 0.0
    else
      Owed(items, rows, n - 1) +
      (if n - 1 in rows && BoundToActive(items, n - 1) && rows[n - 1].cap > rows[n - 1].acus
       then rows[n - 1].cap - rows[n - 1].acus else 0.0)
  }

  /** Exactly the sessions that an active item is bound to. */
  ghost predicate IsReserved(items: seq<Item>, reserved: set<nat>) {
    forall s: nat :: s in reserved <==> exists j :: 0 <= j < |items| && items[j].active == Some(s) &&
                                               IsActive(items[j].life.state)
  }

  lemma ReservedNext(items: seq<Item>, reserved: set<nat>, it: Item)
    requires IsReserved(items, reserved)
    ensures IsReserved(items + [it],
                       if it.active.Some? && IsActive(it.life.state) then reserved + {it.active.value} else reserved)
  {
    var more := items + [it];
    var after := if it.active.Some? && IsActive(it.life.state) then reserved + {it.active.value} else reserved;
    forall s: nat ensures s in after <==> BoundToActive(more, s) {
      if BoundToActive(items, s) {
        var j :| 0 <= j < |items| && items[j].active == Some(s) && IsActive(items[j].life.state);
        assert more[j] == items[j];
      }
      if s in after && s !in reserved {
        assert more[|items|] == it;
      }
    }
  }

  lemma RowsAreAtDevin(cfg: Config, w: World, sid: nat)
    requires Inv(cfg, w) && sid in w.rows
    ensures sid < |w.remote|
  {
  }

  lemma OwnerIsBound(cfg: Config, w: World, sid: nat)
    requires Inv(cfg, w) && sid in w.rows
    ensures BoundToActive(w.items, sid) <==> Binds(w.items, w.rows[sid].item, sid)
  {
    if BoundToActive(w.items, sid) {
      var j :| 0 <= j < |w.items| && w.items[j].active == Some(sid) && IsActive(w.items[j].life.state);
      assert ItemOk(cfg, w, j);
    }
  }

  /** The budget position is what was spent plus what is owed. */
  lemma {:induction false} SpentAndOwed(cfg: Config, w: World, n: nat)
    requires Inv(cfg, w)
    ensures Committed(w.items, w.rows, n) == Spent(w.rows, n) + Owed(w.items, w.rows, n)
  {
    hide Inv, BoundToActive, Binds;
    if n > 0 {
      SpentAndOwed(cfg, w, n - 1);
      if n - 1 in w.rows {
        OwnerIsBound(cfg, w, n - 1);
      }
    }
  }

  lemma {:induction false} SpentWithout(rows: map<nat, Row>, n: nat, sid: nat)
    requires sid in rows
    ensures Spent(rows, n) == Spent(rows - {sid}, n) + if sid < n then rows[sid].acus else 0.0
  {
    if n > 0 {
      SpentWithout(rows, n - 1, sid);
    }
  }

  lemma {:induction false} OwedWithout(items: seq<Item>, rows: map<nat, Row>, n: nat, sid: nat)
    requires sid in rows
    ensures Owed(items, rows, n) == Owed(items, rows - {sid}, n) +
      (if sid < n && BoundToActive(items, sid) then Positive(rows[sid].cap - rows[sid].acus) else 0.0)
  {
    hide BoundToActive;
    if n > 0 {
      OwedWithout(items, rows, n - 1, sid);
    }
  }

  lemma OneSessionLess(
      cfg: Config, w: World, reserved: set<nat>, rest: map<nat, Row>, sid: nat, fewer: map<nat, Row>)
    requires Inv(cfg, w) && sid in rest && sid in w.rows && rest[sid] == w.rows[sid]
    requires IsReserved(w.items, reserved) && fewer == rest - {sid}
    ensures fewer.Keys == rest.Keys - {sid} && |fewer.Keys| < |rest.Keys|
    ensures Spent(rest, |w.remote|) == Spent(fewer, |w.remote|) + w.rows[sid].acus
    ensures sid in reserved ==>
      Owed(w.items, rest, |w.remote|) == Owed(w.items, fewer, |w.remote|) + Positive(rest[sid].cap - rest[sid].acus)
    ensures sid !in reserved ==> Owed(w.items, rest, |w.remote|) == Owed(w.items, fewer, |w.remote|)
  {
    hide Inv, Spent, Owed;
    assert fewer.Keys == rest.Keys - {sid};
    RowsAreAtDevin(cfg, w, sid);
    SpentWithout(rest, |w.remote|, sid);
    OwedWithout(w.items, rest, |w.remote|, sid);
  }

  lemma {:induction false} NothingSpent(items: seq<Item>, rows: map<nat, Row>, n: nat)
    requires rows == map[]
    ensures Spent(rows, n) == 0.0 && Owed(items, rows, n) == 0.0
  {
    if n > 0 {
      NothingSpent(items, rows, n - 1);
    }
  }

  /** The adoptable session with the greatest (active, creation) key. */
  method BestAdoptable(listed: seq<Snap>, known: set<nat>) returns (best: Option<Snap>)
    ensures IsBest(listed, known, best)
  {
    best := None;
    var k := 0;
    while k < |listed|
      invariant 0 <= k <= |listed|
      invariant best.None? ==> forall j :: 0 <= j < k ==> !listed[j].active && listed[j].sid in known
      invariant best.Some? ==> best.value in listed && (best.value.active || best.value.sid !in known)
      invariant best.Some? ==> forall j :: 0 <= j < k && (listed[j].active || listed[j].sid !in known) ==>
        if listed[j].active == best.value.active then listed[j].sid <= best.value.sid else best.value.active
    {
      var snap := listed[k];
      if snap.active || snap.sid !in known {
        if best.None? || (if snap.active == best.value.active then snap.sid > best.value.sid else snap.active) {
          best := Some(snap);
        }
      }
      k := k + 1;
    }
  }

  ghost predicate IsBest(listed: seq<Snap>, known: set<nat>, best: Option<Snap>) {
    match best
    case None => forall j :: 0 <= j < |listed| ==> !listed[j].active && listed[j].sid in known
    case Some(b) =>
      b in listed && (b.active || b.sid !in known) &&
      forall j :: 0 <= j < |listed| && (listed[j].active || listed[j].sid !in known) ==>
        if listed[j].active == b.active then listed[j].sid <= b.sid else b.active
  }

  /** Nothing is picked when every session of the tag is finished and recorded for the item; otherwise the youngest
      of those that still work, and failing that the youngest that was never recorded. */
  ghost predicate PicksBest(sessions: seq<Remote>, tag: nat, rows: map<nat, Row>, best: Option<Snap>) {
    match best
    case None => forall s: nat :: s < |sessions| && sessions[s].tag == tag ==>
      !sessions[s].active && s in rows && rows[s].item == tag
    case Some(b) =>
      b.sid < |sessions| && sessions[b.sid].tag == tag && b.active == sessions[b.sid].active &&
      (b.active || b.sid !in rows || rows[b.sid].item != tag) &&
      (forall s: nat :: s < |sessions| && sessions[s].tag == tag && sessions[s].active ==> b.active && s <= b.sid) &&
      (!b.active ==>
        forall s: nat :: b.sid < s < |sessions| && sessions[s].tag == tag ==> s in rows && rows[s].item == tag)
  }

  lemma BestMeans(
      sessions: seq<Remote>, tag: nat, rows: map<nat, Row>, listed: seq<Snap>, known: set<nat>, best: Option<Snap>)
    requires listed == Tagged(sessions, tag, |sessions|) && IsBest(listed, known, best)
    requires known == set s | s in rows && rows[s].item == tag
    ensures PicksBest(sessions, tag, rows, best)
  {
    forall s: nat | s < |sessions| && sessions[s].tag == tag
      ensures exists k :: 0 <= k < |listed| && listed[k].sid == s && listed[k].active == sessions[s].active
    {
      var k :| 0 <= k < |listed| && listed[k].sid == s;
      assert listed[k].active == sessions[s].active;
    }
  }

  lemma ChoiceIsUnique(w: World, i: nat, best: nat)
    requires Adoptable(w, i, best)
    requires forall s: nat :: Adoptable(w, i, s) ==> Better(w, best, s)
    ensures Choice(w, i, |w.remote|) == Some(best)
  {
    var choice := Choice(w, i, |w.remote|);
    assert choice.Some?;
    assert Better(w, choice.value, best) && Better(w, best, choice.value);
  }

  lemma EntryIsAdoptable(w: World, i: nat, listed: seq<Snap>, known: set<nat>, j: nat)
    requires listed == Tagged(w.remote, i, |w.remote|) && j < |listed|
    requires known == set s | s in w.rows && w.rows[s].item == i
    ensures Adoptable(w, i, listed[j].sid) <==> (listed[j].active || listed[j].sid !in known)
    ensures listed[j].sid < |w.remote| && listed[j] == SnapOf(w, listed[j].sid)
  {
  }

  /** The best entry of a complete listing is the protocol's choice. */
  lemma ListingDecides(w: World, i: nat, listed: seq<Snap>, known: set<nat>, best: Option<Snap>)
    requires listed == Tagged(w.remote, i, |w.remote|)
    requires known == set s | s in w.rows && w.rows[s].item == i
    requires IsBest(listed, known, best)
    ensures Choice(w, i, |w.remote|) == if best.Some? then Some(best.value.sid) else None
    ensures best.Some? ==> best.value.sid < |w.remote| && best.value == SnapOf(w, best.value.sid)
  {
    forall s: nat | Adoptable(w, i, s)
      ensures best.Some? && best.value.sid < |w.remote| && Better(w, best.value.sid, s)
    {
      var j :| 0 <= j < |listed| && listed[j].sid == s;
      EntryIsAdoptable(w, i, listed, known, j);
      var b :| 0 <= b < |listed| && listed[b] == best.value;
      EntryIsAdoptable(w, i, listed, known, b);
    }
    if best.Some? {
      var b :| 0 <= b < |listed| && listed[b] == best.value;
      EntryIsAdoptable(w, i, listed, known, b);
      ChoiceIsUnique(w, i, best.value.sid);
    }
  }
}
