/** The session limit and the global ACU budget: exactly which steps exceed them. */
module DispatchLimits {
  import opened Domain
  import opened Dispatch
  import opened DispatchSafety
  import opened DispatchBudget

  /** ACUs consumed, outstanding and reserved. */
  function Total(w: World): real {
    CommittedIn(w) + ReservedCaps(w.items)
  }

  /** What the session an item is bound to may still spend. */
  function Unspent(rows: map<nat, Row>, it: Item): real {
    if it.active.Some? && it.active.value in rows
    then Positive(rows[it.active.value].cap - rows[it.active.value].acus) else 0.0
  }

  // ---------------------------------------------------------------- one step

  /** An item back from `ready_for_human` adds itself and what its session may still spend. */
  lemma ReturnedFigures(cfg: Config, w: World, i: nat, it: Item)
    requires DataOk(cfg, w) && i < |w.items| && w.items[i].life.state == ReadyForHuman
    requires it.active == w.items[i].active && IsActive(it.life.state) && it.life.state != Dispatching
    ensures ActiveCount(Commit(w, i, it).items) == ActiveCount(w.items) + 1
    ensures Total(Commit(w, i, it)) == Total(w) + Unspent(w.rows, it)
  {
    hide ActiveCount, ReservedCaps, Committed;
    PutCommitted(cfg, w, i, it);
    CountsAfterPut(w.items, i, it);
  }

  lemma PushFigures(cfg: Config, w: World, i: nat)
    requires DataOk(cfg, w) && i < |w.items| && w.items[i].life.state == ReadyForHuman
    ensures var v := Commit(w, i, Move(w.items[i], NewHeadPushed));
      ActiveCount(v.items) == ActiveCount(w.items) + 1 && Total(v) == Total(w) + Unspent(w.rows, w.items[i])
  {
    hide ActiveCount, ReservedCaps, Committed;
    ReturnedFigures(cfg, w, i, Move(w.items[i], NewHeadPushed));
  }

  lemma RetriedMove(it: Item)
    requires it.life.state == ReadyForHuman
    ensures var after := Move(Move(it.(retries := it.retries + 1), ChecksRed), RetrySent);
      after.life.state == SessionActive && after.active == it.active
  {
  }

  lemma RedFigures(cfg: Config, w: World, i: nat, delivered: bool)
    requires DataOk(cfg, w) && i < |w.items| && w.items[i].life.state == ReadyForHuman
    requires w.items[i].retries < cfg.maxRetries && w.items[i].active.Some?
    ensures var v := AfterRed(cfg, w, i, delivered, true);
      ActiveCount(v.items) == ActiveCount(w.items) + 1 && Total(v) == Total(w) + Unspent(w.rows, w.items[i])
  {
    hide ActiveCount, ReservedCaps, Committed, Move, Commit, DataOk;
    var it := w.items[i];
    var after := Move(Move(it.(retries := it.retries + 1), ChecksRed), RetrySent);
    RetriedMove(it);
    if delivered {
      WakeKeepsData(cfg, w, i);
      ReturnedFigures(cfg, Wake(w, it.active.value), i, after);
      WakeKeepsFigures(w, it.active.value);
    } else {
      ReturnedFigures(cfg, w, i, after);
    }
  }

  lemma WakeKeepsFigures(w: World, sid: nat)
    ensures Total(Wake(w, sid)) == Total(w) && Wake(w, sid).items == w.items && Wake(w, sid).rows == w.rows
  {
  }

  lemma ReentryFigures(cfg: Config, w: World, s: Step)
    requires Inv(cfg, w) && Enabled(cfg, w, s) && Reenters(cfg, w, s)
    ensures ActiveCount(Next(cfg, w, s).items) == ActiveCount(w.items) + 1
    ensures Total(Next(cfg, w, s)) == Total(w) + Unspent(w.rows, w.items[s.i])
  {
    hide ActiveCount, Total, Unspent, Move, Commit, AfterRed, DataOk;
    if s.Observe? {
      PushFigures(cfg, w, s.i);
    } else {
      RedFigures(cfg, w, s.i, s.delivered);
    }
  }

  /** A launch adds its item and that item's cap; what it read left room for the item, not for the caps of
      items stuck in `dispatching`. */
  lemma LaunchFigures(cfg: Config, w: World)
    requires Inv(cfg, w) && Enabled(cfg, w, LaunchReserve)
    ensures ActiveCount(Next(cfg, w, LaunchReserve).items) <= cfg.maxSessions
    ensures Total(Next(cfg, w, LaunchReserve)) == Total(w) + w.items[w.pc.item].cap
  {
    hide Committed, ReservedCaps, ActiveCount, ItemOk, Move, MadeReady;
    MadeReadyKeeps(cfg, w, w.pc.item);
    AdmittedFigures(cfg, w, w.pc.item, MadeReady(w.items[w.pc.item]));
  }

  lemma ReserveFigures(cfg: Config, w: World, i: nat)
    requires Inv(cfg, w) && Enabled(cfg, w, Reserve(i))
    ensures ActiveCount(Next(cfg, w, Reserve(i)).items) <= cfg.maxSessions
    ensures Total(Next(cfg, w, Reserve(i))) <= cfg.budget
  {
    hide Committed, ReservedCaps, ActiveCount, ItemOk, Move;
    UnboundItem(cfg, w, i);
    AdmittedFigures(cfg, w, i, w.items[i]);
    NoReservation(w.items);
  }

  /** Every other step leaves both figures no higher. */
  lemma QuietFigures(cfg: Config, w: World, s: Step)
    requires Inv(cfg, w) && Enabled(cfg, w, s) && !Reenters(cfg, w, s) && !s.Reserve? && !s.LaunchReserve?
    ensures ActiveCount(Next(cfg, w, s).items) <= ActiveCount(w.items)
    ensures Total(Next(cfg, w, s)) <= Total(w)
  {
    hide Next, Enabled, Inv, Committed, ReservedCaps, ActiveCount, Reenters;
    NothingBooked(cfg, w, s);
    OnlyAdmissionRaises(cfg, w, s);
  }

  /** The step takes a full house over the session limit. */
  predicate OverfillsSessions(cfg: Config, w: World, s: Step) {
    ActiveCount(w.items) == cfg.maxSessions && Reenters(cfg, w, s)
  }

  /** The step takes the ACUs over the budget: a launch that counts its own cap but not the caps of items
      stuck in `dispatching`, or a re-entry whose session may still spend too much. */
  predicate OverspendsBudget(cfg: Config, w: World, s: Step) {
    (s.LaunchReserve? && w.pc.Launching? && w.pc.item < |w.items| && Total(w) + w.items[w.pc.item].cap > cfg.budget) ||
    (Reenters(cfg, w, s) && Total(w) + Unspent(w.rows, w.items[s.i]) > cfg.budget)
  }

  /** From within the session limit, a step leaves it exactly when an item re-enters a full house. */
  lemma StepExceedsSessionsIff(cfg: Config, w: World, s: Step)
    requires Inv(cfg, w) && Enabled(cfg, w, s) && ActiveCount(w.items) <= cfg.maxSessions
    ensures ActiveCount(Next(cfg, w, s).items) > cfg.maxSessions <==> OverfillsSessions(cfg, w, s)
  {
    hide Next, Inv, Enabled, ActiveCount, Committed, ReservedCaps, Reenters;
    if Reenters(cfg, w, s) {
      ReentryFigures(cfg, w, s);
    } else {
      match s
      case Reserve(i) => ReserveFigures(cfg, w, i);
      case LaunchReserve => LaunchFigures(cfg, w);
      case _ => QuietFigures(cfg, w, s);
    }
  }

  /** From within the budget, a step leaves it exactly when a launch or a re-entry overspends. */
  lemma StepExceedsBudgetIff(cfg: Config, w: World, s: Step)
    requires Inv(cfg, w) && Enabled(cfg, w, s) && Total(w) <= cfg.budget
    ensures Total(Next(cfg, w, s)) > cfg.budget <==> OverspendsBudget(cfg, w, s)
  {
    hide Next, Inv, ActiveCount, Total, Unspent, Reenters;
    if Reenters(cfg, w, s) {
      ReentryFigures(cfg, w, s);
      assert !s.LaunchReserve? by {
        ReentryIsNoLaunch(cfg, w, s);
      }
    } else {
      match s
      case Reserve(i) => ReserveFigures(cfg, w, i);
      case LaunchReserve => LaunchFigures(cfg, w);
      case _ => QuietFigures(cfg, w, s);
    }
  }

  lemma ReentryIsNoLaunch(cfg: Config, w: World, s: Step)
    requires Reenters(cfg, w, s)
    ensures s.Observe? || s.Red?
  {
  }

  // ---------------------------------------------------------------- runs

  ghost predicate KeepsSessions(cfg: Config, steps: seq<Step>)
    requires IsRun(cfg, START, steps)
  {
    steps == [] ||
    (KeepsSessions(cfg, steps[..|steps| - 1]) &&
     !OverfillsSessions(cfg, After(cfg, START, steps[..|steps| - 1]), steps[|steps| - 1]))
  }

  ghost predicate KeepsBudget(cfg: Config, steps: seq<Step>)
    requires IsRun(cfg, START, steps)
  {
    steps == [] ||
    (KeepsBudget(cfg, steps[..|steps| - 1]) &&
     !OverspendsBudget(cfg, After(cfg, START, steps[..|steps| - 1]), steps[|steps| - 1]))
  }

  /** In every state the run passes through, no more items are active than the limit allows. */
  ghost predicate AlwaysWithinSessions(cfg: Config, steps: seq<Step>)
    requires IsRun(cfg, START, steps)
  {
    ActiveCount(After(cfg, START, steps).items) <= cfg.maxSessions &&
    (steps == [] || AlwaysWithinSessions(cfg, steps[..|steps| - 1]))
  }

  ghost predicate AlwaysWithinBudget(cfg: Config, steps: seq<Step>)
    requires IsRun(cfg, START, steps)
  {
    Total(After(cfg, START, steps)) <= cfg.budget && (steps == [] || AlwaysWithinBudget(cfg, steps[..|steps| - 1]))
  }

  /** A run keeps the session limit throughout exactly when no step of it overfills a full house. */
  lemma {:induction false} SessionLimitHoldsIff(cfg: Config, steps: seq<Step>)
    requires IsRun(cfg, START, steps)
    ensures AlwaysWithinSessions(cfg, steps) <==> KeepsSessions(cfg, steps)
  {
    hide OverfillsSessions, Next, Enabled;
    if steps != [] {
      var before := steps[..|steps| - 1];
      SessionLimitHoldsIff(cfg, before);
      RunKeeps(cfg, START, before);
      var w := After(cfg, START, before);
      if ActiveCount(w.items) <= cfg.maxSessions {
        StepExceedsSessionsIff(cfg, w, steps[|steps| - 1]);
      } else {
        NotAlwaysSessions(cfg, before);
      }
    }
  }

  lemma NotAlwaysSessions(cfg: Config, steps: seq<Step>)
    requires IsRun(cfg, START, steps) && ActiveCount(After(cfg, START, steps).items) > cfg.maxSessions
    ensures !AlwaysWithinSessions(cfg, steps)
  {
  }

  /** A run keeps the budget throughout exactly when no step of it overspends. */
  lemma {:induction false} BudgetHoldsIff(cfg: Config, steps: seq<Step>)
    requires cfg.budget >= 0.0 && IsRun(cfg, START, steps)
    ensures AlwaysWithinBudget(cfg, steps) <==> KeepsBudget(cfg, steps)
  {
    hide OverspendsBudget, Next, Enabled;
    if steps != [] {
      var before := steps[..|steps| - 1];
      BudgetHoldsIff(cfg, before);
      RunKeeps(cfg, START, before);
      var w := After(cfg, START, before);
      if Total(w) <= cfg.budget {
        StepExceedsBudgetIff(cfg, w, steps[|steps| - 1]);
      } else {
        NotAlwaysBudget(cfg, before);
      }
    }
  }

  lemma NotAlwaysBudget(cfg: Config, steps: seq<Step>)
    requires IsRun(cfg, START, steps) && Total(After(cfg, START, steps)) > cfg.budget
    ensures !AlwaysWithinBudget(cfg, steps)
  {
  }
}
