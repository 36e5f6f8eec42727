/** Intake: bringing finished scan runs in, one poll at a time, with a crash possible between the run's
    own commit and the commit of its intake row. */
module Intake {
  import opened Domain
  import Sorting

  datatype IntakeStatus = Ingested | Rejected

  /** `attempt` stands for the external id of a run attempt, `created` says whether this intake wrote
      the run's rows. */
  datatype IntakeRow = IntakeRow(attempt: nat, status: IntakeStatus, scanRun: Option<nat>)

  /** The two tables intake writes; a scan run is named by its attempt and identified by its position. */
  datatype Tables = Tables(intakes: seq<IntakeRow>, runs: seq<nat>)

  /** How one intake ends: with its evidence refused or accepted, by an error before anything is
      written, or by a crash after the run's commit and before the intake row's. */
  datatype Fate = Refused | Accepted | FailsBefore | DiesBetween

  predicate Finishes(fate: Fate) {
    fate in {Refused, Accepted}
  }

  predicate Seen(t: Tables, attempt: nat) {
    exists i :: 0 <= i < |t.intakes| && t.intakes[i].attempt == attempt
  }

  /** The run's transaction: a run already present is left alone. */
  function Ingest(runs: seq<nat>, attempt: nat): seq<nat> {
    if attempt in runs then runs else runs + [attempt]
  }

  function PositionOf(runs: seq<nat>, attempt: nat): (i: nat)
    requires attempt in runs
    ensures i < |runs| && runs[i] == attempt && attempt !in runs[..i]
  {
    if runs[0] == attempt then 0 else 1 + PositionOf(runs[1..], attempt)
  }

  function IngestOne(t: Tables, attempt: nat, fate: Fate): Tables {
    if Seen(t, attempt) then t
    else
      match fate
      case FailsBefore => t
      case Refused => t.(intakes := t.intakes + [IntakeRow(attempt, Rejected, None)])
      case DiesBetween => t.(runs := Ingest(t.runs, attempt))
      case Accepted =>
        var runs := Ingest(t.runs, attempt);
        Tables(t.intakes + [IntakeRow(attempt, Ingested, Some(PositionOf(runs, attempt)))], runs)
  }

  function Unseen(listing: seq<nat>, t: Tables): seq<nat> {
    if listing == [] then []
    else (if Seen(t, listing[0]) then [] else [listing[0]]) + Unseen(listing[1..], t)
  }

  function Bounded(limit: int, n: nat): nat {
    if limit <= 0 then 0 else if limit < n then limit else n
  }

  function Reverse(s: seq<nat>): seq<nat> {
    if s == [] then [] else Reverse(s[1..]) + [s[0]]
  }

  /** The newest `limit` unseen attempts of a newest-first listing, oldest of those first. */
  function Batch(listing: seq<nat>, t: Tables, limit: int): seq<nat> {
    var unseen := Unseen(listing, t);
    Reverse(unseen[..Bounded(limit, |unseen|)])
  }

  /** Works the batch off in order; an error or a crash ends the poll. */
  function IngestBatch(t: Tables, batch: seq<nat>, fate: nat -> Fate): Tables
    decreases |batch|
  {
    if batch == [] then t
    else
      var after := IngestOne(t, batch[0], fate(batch[0]));
      if Seen(t, batch[0]) || Finishes(fate(batch[0])) then IngestBatch(after, batch[1..], fate) else after
  }

  function AfterPoll(t: Tables, listing: seq<nat>, limit: int, fate: nat -> Fate): Tables {
    IngestBatch(t, Batch(listing, t, limit), fate)
  }

  predicate Completes(t: Tables, listing: seq<nat>, limit: int, fate: nat -> Fate) {
    forall a :: a in Batch(listing, t, limit) ==> Finishes(fate(a))
  }

  /** One intake row and one scan run per attempt at most, and an ingested row names its attempt's run. */
  ghost predicate Consistent(t: Tables) {
    (forall i, j :: 0 <= i < j < |t.intakes| ==> t.intakes[i].attempt != t.intakes[j].attempt) &&
    Sorting.Distinct(t.runs) &&
    (forall i :: 0 <= i < |t.intakes| ==> (t.intakes[i].status == Ingested <==> t.intakes[i].scanRun.Some?)) &&
    (forall i :: 0 <= i < |t.intakes| && t.intakes[i].scanRun.Some? ==>
      t.intakes[i].scanRun.value < |t.runs| && t.runs[t.intakes[i].scanRun.value] == t.intakes[i].attempt)
  }

  // ---------------------------------------------------------------- one intake

  lemma OneKeeps(t: Tables, attempt: nat, fate: Fate)
    requires Consistent(t)
    ensures Consistent(IngestOne(t, attempt, fate))
    ensures t.intakes <= IngestOne(t, attempt, fate).intakes && t.runs <= IngestOne(t, attempt, fate).runs
    ensures forall a :: Seen(IngestOne(t, attempt, fate), a) <==> Seen(t, a) || (a == attempt && Finishes(fate))
  {
    var after := IngestOne(t, attempt, fate);
    forall a ensures Seen(after, a) <==> Seen(t, a) || (a == attempt && Finishes(fate)) {
      if i :| 0 <= i < |t.intakes| && t.intakes[i].attempt == a {
        assert after.intakes[i].attempt == a;
      }
      if a == attempt && Finishes(fate) && !Seen(t, a) {
        assert after.intakes[|t.intakes|].attempt == a;
      }
    }
  }

  // ---------------------------------------------------------------- one poll

  /** What the batch's attempts that were worked off make of the tables. */
  lemma {:induction false} BatchKeeps(t: Tables, batch: seq<nat>, fate: nat -> Fate)
    requires Consistent(t)
    ensures Consistent(IngestBatch(t, batch, fate))
    ensures forall a :: a in IngestBatch(t, batch, fate).runs ==> a in t.runs || a in batch
    ensures forall a :: Seen(t, a) ==> Seen(IngestBatch(t, batch, fate), a)
    ensures forall a :: Seen(IngestBatch(t, batch, fate), a) ==> Seen(t, a) || a in batch
    ensures (forall a :: a in batch ==> Finishes(fate(a))) ==> forall a :: a in batch ==>
      Seen(IngestBatch(t, batch, fate), a)
    decreases |batch|
  {
    if batch != [] {
      OneKeeps(t, batch[0], fate(batch[0]));
      BatchKeeps(IngestOne(t, batch[0], fate(batch[0])), batch[1..], fate);
      assert batch == [batch[0]] + batch[1..];
    }
  }

  /** An error or a crash at one attempt ends the poll: the attempts after it in the batch are left for the next. */
  lemma {:induction false} ErrorEndsThePoll(t: Tables, batch: seq<nat>, fate: nat -> Fate, n: nat, m: nat)
    requires n < m < |batch| && Sorting.Distinct(batch) && Consistent(t)
    requires !Seen(t, batch[n]) && !Finishes(fate(batch[n]))
    ensures var v := IngestBatch(t, batch, fate);
      !Seen(v, batch[n]) && (Seen(v, batch[m]) <==> Seen(t, batch[m])) && (batch[m] in v.runs <==> batch[m] in t.runs)
    decreases |batch|
  {
    hide Consistent, Seen;
    OneKeeps(t, batch[0], fate(batch[0]));
    OneTells(t, batch[0], fate(batch[0]), batch[m]);
    if n > 0 && (Seen(t, batch[0]) || Finishes(fate(batch[0]))) {
      ErrorEndsThePoll(IngestOne(t, batch[0], fate(batch[0])), batch[1..], fate, n - 1, m - 1);
    }
  }

  lemma {:induction false} ReverseMembers(s: seq<nat>)
    ensures |Reverse(s)| == |s|
    ensures forall i :: 0 <= i < |s| ==> Reverse(s)[i] == s[|s| - 1 - i]
    ensures forall a :: a in Reverse(s) <==> a in s
  {
    if s != [] {
      ReverseMembers(s[1..]);
      assert s == [s[0]] + s[1..];
    }
  }

  lemma {:induction false} UnseenMembers(listing: seq<nat>, t: Tables)
    ensures forall a :: a in Unseen(listing, t) <==> a in listing && !Seen(t, a)
    ensures Sorting.Distinct(listing) ==> Sorting.Distinct(Unseen(listing, t))
  {
    if listing != [] {
      UnseenMembers(listing[1..], t);
      assert listing == [listing[0]] + listing[1..];
      if Sorting.Distinct(listing) {
        assert listing[0] !in listing[1..];
        Sorting.DistinctConcat(if Seen(t, listing[0]) then [] else [listing[0]], Unseen(listing[1..], t));
      }
    }
  }

  /** Whatever was seen in between, what is still unseen of the listing is what is still unseen of the
      earlier unseen. */
  lemma {:induction false} UnseenOfUnseen(listing: seq<nat>, t: Tables, after: Tables)
    requires forall a :: Seen(t, a) ==> Seen(after, a)
    ensures Unseen(listing, after) == Unseen(Unseen(listing, t), after)
  {
    if listing != [] {
      UnseenOfUnseen(listing[1..], t, after);
      if !Seen(t, listing[0]) {
        assert Unseen(listing, t)[1..] == Unseen(listing[1..], t);
      } else {
        assert Unseen(listing, t) == Unseen(listing[1..], t);
      }
    }
  }

  /** Of distinct attempts of which exactly the first `k` have been seen, the rest is unseen. */
  lemma {:induction false} SeenPrefix(s: seq<nat>, k: nat, after: Tables)
    requires k <= |s|
    requires forall i :: 0 <= i < |s| ==> (Seen(after, s[i]) <==> i < k)
    ensures Unseen(s, after) == s[k..]
  {
    if s != [] {
      if k > 0 {
        assert Seen(after, s[0]);
        SeenPrefix(s[1..], k - 1, after);
      } else {
        assert !Seen(after, s[0]);
        SeenPrefix(s[1..], 0, after);
        assert s == [s[0]] + s[1..];
      }
    }
  }

  /** A completed poll leaves unseen exactly what it left out: the newest `limit` unseen attempts are
      gone and the older ones keep their order. */
  lemma CompletedPollDrains(t: Tables, listing: seq<nat>, limit: int, fate: nat -> Fate)
    requires Consistent(t) && Sorting.Distinct(listing) && Completes(t, listing, limit, fate)
    ensures var unseen := Unseen(listing, t);
      Unseen(listing, AfterPoll(t, listing, limit, fate)) == unseen[Bounded(limit, |unseen|)..]
  {
    var unseen := Unseen(listing, t);
    var k := Bounded(limit, |unseen|);
    var batch, after := Batch(listing, t, limit), AfterPoll(t, listing, limit, fate);
    UnseenMembers(listing, t);
    ReverseMembers(unseen[..k]);
    BatchKeeps(t, batch, fate);
    UnseenOfUnseen(listing, t, after);
    forall i | 0 <= i < |unseen| ensures Seen(after, unseen[i]) <==> i < k {
      assert unseen[i] in unseen;
      if i < k {
        assert unseen[..k][i] in unseen[..k];
        assert unseen[i] in batch;
      } else {
        assert forall j :: 0 <= j < k ==> unseen[..k][j] == unseen[j] && unseen[j] != unseen[i];
      }
    }
    SeenPrefix(unseen, k, after);
  }

  /** Any poll, completed or not, keeps the tables consistent and uncovers nothing. */
  lemma PollKeeps(t: Tables, listing: seq<nat>, limit: int, fate: nat -> Fate)
    requires Consistent(t)
    ensures Consistent(AfterPoll(t, listing, limit, fate))
    ensures |Unseen(listing, AfterPoll(t, listing, limit, fate))| <= |Unseen(listing, t)|
  {
    BatchKeeps(t, Batch(listing, t, limit), fate);
    UnseenOfUnseen(listing, t, AfterPoll(t, listing, limit, fate));
    UnseenIsShorter(Unseen(listing, t), AfterPoll(t, listing, limit, fate));
  }

  lemma {:induction false} UnseenIsShorter(s: seq<nat>, t: Tables)
    ensures |Unseen(s, t)| <= |s|
  {
    if s != [] {
      UnseenIsShorter(s[1..], t);
    }
  }

  ghost predicate ListedBefore(listing: seq<nat>, a: nat, b: nat) {
    exists i, j :: 0 <= i < j < |listing| && listing[i] == a && listing[j] == b
  }

  /** The batch takes unseen attempts only, none before a newer one of them, as many as the limit lets it, and lists
      the oldest first. */
  lemma BatchMeans(listing: seq<nat>, t: Tables, limit: int)
    requires Sorting.Distinct(listing)
    ensures var batch := Batch(listing, t, limit);
      (forall a :: a in batch ==> a in listing && !Seen(t, a)) &&
      (forall a, b :: b in batch && ListedBefore(listing, a, b) && !Seen(t, a) ==> a in batch) &&
      (forall p, q :: 0 <= p < q < |batch| ==> ListedBefore(listing, batch[q], batch[p])) &&
      (|batch| < limit ==> forall a :: a in listing && !Seen(t, a) ==> a in batch) &&
      |batch| <= if limit < 0 then 0 else limit
  {
    hide Seen, ListedBefore, Unseen, Reverse;
    var unseen := Unseen(listing, t);
    var k := Bounded(limit, |unseen|);
    UnseenMembers(listing, t);
    ReverseMembers(unseen[..k]);
    var batch := Batch(listing, t, limit);
    assert forall p :: 0 <= p < |batch| ==> batch[p] == unseen[k - 1 - p];
    forall p, q | 0 <= p < q < |batch| ensures ListedBefore(listing, batch[q], batch[p]) {
      UnseenOrder(listing, t, k - 1 - q, k - 1 - p);
    }
    forall a, b | b in batch && ListedBefore(listing, a, b) && !Seen(t, a) ensures a in batch {
      NewerFirst(listing, t, k, a, b);
    }
  }

  lemma NewerFirst(listing: seq<nat>, t: Tables, k: nat, a: nat, b: nat)
    requires Sorting.Distinct(listing) && k <= |Unseen(listing, t)| && b in Unseen(listing, t)[..k]
    requires ListedBefore(listing, a, b) && !Seen(t, a)
    ensures a in Unseen(listing, t)[..k]
  {
    hide Seen;
    var unseen := Unseen(listing, t);
    UnseenMembers(listing, t);
    var q :| 0 <= q < k && unseen[q] == b;
    assert a in unseen;
    var p :| 0 <= p < |unseen| && unseen[p] == a;
    if q < p {
      UnseenOrder(listing, t, q, p);
      OneOrder(listing, a, b);
      assert false;
    }
    assert unseen[..k][p] == a;
  }

  lemma OneOrder(listing: seq<nat>, a: nat, b: nat)
    requires Sorting.Distinct(listing) && ListedBefore(listing, a, b)
    ensures !ListedBefore(listing, b, a) && a != b
  {
  }

  lemma {:induction false} UnseenOrder(listing: seq<nat>, t: Tables, p: nat, q: nat)
    requires p < q < |Unseen(listing, t)|
    ensures ListedBefore(listing, Unseen(listing, t)[p], Unseen(listing, t)[q])
  {
    var unseen, rest := Unseen(listing, t), Unseen(listing[1..], t);
    var n := |unseen| - |rest|;
    if p < n {
      UnseenAreListed(listing[1..], t, q - n);
      var j :| 0 <= j < |listing[1..]| && listing[1..][j] == rest[q - n];
      assert listing[0] == unseen[p] && listing[j + 1] == unseen[q];
    } else {
      UnseenOrder(listing[1..], t, p - n, q - n);
      var i, j :| 0 <= i < j < |listing[1..]| && listing[1..][i] == rest[p - n] && listing[1..][j] == rest[q - n];
      assert listing[i + 1] == unseen[p] && listing[j + 1] == unseen[q];
    }
  }

  lemma UnseenAreListed(listing: seq<nat>, t: Tables, p: nat)
    requires p < |Unseen(listing, t)|
    ensures Unseen(listing, t)[p] in listing
  {
    UnseenMembers(listing, t);
    assert Unseen(listing, t)[p] in Unseen(listing, t);
  }

  // ---------------------------------------------------------------- any history of polls

  datatype Tick = Tick(limit: int, fate: nat -> Fate)

  ghost function AfterTicks(t: Tables, listing: seq<nat>, ticks: seq<Tick>): Tables {
    if ticks == [] then t
    else
      var last := ticks[|ticks| - 1];
      AfterPoll(AfterTicks(t, listing, ticks[..|ticks| - 1]), listing, last.limit, last.fate)
  }

  /** How many of the polls had a positive limit and ran to their end. */
  ghost function CompletedTicks(t: Tables, listing: seq<nat>, ticks: seq<Tick>): nat {
    if ticks == [] then 0
    else
      var init, last := ticks[..|ticks| - 1], ticks[|ticks| - 1];
      CompletedTicks(t, listing, init) +
      (if last.limit > 0 && Completes(AfterTicks(t, listing, init), listing, last.limit, last.fate) then 1 else 0)
  }

  lemma {:induction false} TicksDrain(t: Tables, listing: seq<nat>, ticks: seq<Tick>)
    requires Consistent(t) && Sorting.Distinct(listing)
    ensures Consistent(AfterTicks(t, listing, ticks))
    ensures |Unseen(listing, AfterTicks(t, listing, ticks))| == 0 ||
            |Unseen(listing, AfterTicks(t, listing, ticks))| + CompletedTicks(t, listing, ticks) <= |Unseen(listing, t)|
  {
    if ticks != [] {
      var init, last := ticks[..|ticks| - 1], ticks[|ticks| - 1];
      TicksDrain(t, listing, init);
      var mid := AfterTicks(t, listing, init);
      PollKeeps(mid, listing, last.limit, last.fate);
      if last.limit > 0 && Completes(mid, listing, last.limit, last.fate) {
        CompletedPollDrains(mid, listing, last.limit, last.fate);
      }
    }
  }

  /** Only listed attempts ever get a row or a run. */
  lemma {:induction false} OnlyListedAttempts(listing: seq<nat>, ticks: seq<Tick>)
    requires Sorting.Distinct(listing)
    ensures var t := AfterTicks(EMPTY, listing, ticks);
      forall a :: Seen(t, a) || a in t.runs ==> a in listing
  {
    if ticks != [] {
      var init, last := ticks[..|ticks| - 1], ticks[|ticks| - 1];
      var mid := AfterTicks(EMPTY, listing, init);
      var unseen := Unseen(listing, mid);
      OnlyListedAttempts(listing, init);
      TicksDrain(EMPTY, listing, init);
      UnseenMembers(listing, mid);
      ReverseMembers(unseen[..Bounded(last.limit, |unseen|)]);
      BatchKeeps(mid, Batch(listing, mid, last.limit), last.fate);
    }
  }

  /** An intake row of the attempt with this status. */
  predicate HasRow(t: Tables, attempt: nat, status: IntakeStatus) {
    exists i :: 0 <= i < |t.intakes| && t.intakes[i].attempt == attempt && t.intakes[i].status == status
  }

  /** Some poll decided the attempt this way. */
  ghost predicate Decided(ticks: seq<Tick>, attempt: nat, fate: Fate) {
    exists m :: 0 <= m < |ticks| && ticks[m].fate(attempt) == fate
  }

  lemma OneTells(t: Tables, attempt: nat, fate: Fate, a: nat)
    requires Consistent(t)
    ensures var v := IngestOne(t, attempt, fate);
      (HasRow(v, a, Ingested) ==> HasRow(t, a, Ingested) || (a == attempt && fate == Accepted)) &&
      (HasRow(v, a, Rejected) ==> HasRow(t, a, Rejected) || (a == attempt && fate == Refused)) &&
      (a in v.runs ==> a in t.runs || (a == attempt && fate in {Accepted, DiesBetween}))
  {
  }

  lemma {:induction false} BatchTells(t: Tables, batch: seq<nat>, fate: nat -> Fate, a: nat)
    requires Consistent(t)
    ensures var v := IngestBatch(t, batch, fate);
      (HasRow(v, a, Ingested) ==> HasRow(t, a, Ingested) || fate(a) == Accepted) &&
      (HasRow(v, a, Rejected) ==> HasRow(t, a, Rejected) || fate(a) == Refused) &&
      (a in v.runs ==> a in t.runs || fate(a) in {Accepted, DiesBetween})
    decreases |batch|
  {
    hide IngestOne;
    if batch != [] {
      OneKeeps(t, batch[0], fate(batch[0]));
      OneTells(t, batch[0], fate(batch[0]), a);
      BatchTells(IngestOne(t, batch[0], fate(batch[0])), batch[1..], fate, a);
    }
  }

  /** A row tells how a poll decided the attempt: an ingested one was accepted and names its scan run, a rejected one
      was refused; and only attempts that some poll accepted, or died in the middle of, have a scan run. */
  lemma {:induction false} RowsTellTheDecision(listing: seq<nat>, ticks: seq<Tick>, a: nat)
    requires Sorting.Distinct(listing)
    ensures var t := AfterTicks(EMPTY, listing, ticks);
      (HasRow(t, a, Ingested) ==> Decided(ticks, a, Accepted) && a in t.runs) &&
      (HasRow(t, a, Rejected) ==> Decided(ticks, a, Refused)) &&
      (a in t.runs ==> Decided(ticks, a, Accepted) || Decided(ticks, a, DiesBetween))
  {
    hide IngestBatch, Batch;
    var t := AfterTicks(EMPTY, listing, ticks);
    TicksDrain(EMPTY, listing, ticks);
    if ticks != [] {
      var n := |ticks| - 1;
      var mid := AfterTicks(EMPTY, listing, ticks[..n]);
      TicksDrain(EMPTY, listing, ticks[..n]);
      RowsTellTheDecision(listing, ticks[..n], a);
      BatchTells(mid, Batch(listing, mid, ticks[n].limit), ticks[n].fate, a);
      forall fate | Decided(ticks[..n], a, fate) || ticks[n].fate(a) == fate ensures Decided(ticks, a, fate) {
        if m :| 0 <= m < n && ticks[..n][m].fate(a) == fate {
          assert ticks[m].fate(a) == fate;
        }
      }
    }
  }

  const EMPTY := Tables([], [])

  /** Through any refusals, errors and crashes between the two commits: once as many polls have
      completed as attempts are listed, every listed attempt has exactly one intake row and at most one
      scan run, and no other attempt has a row. */
  lemma EveryRunIsTakenInOnce(listing: seq<nat>, ticks: seq<Tick>)
    requires Sorting.Distinct(listing) && CompletedTicks(EMPTY, listing, ticks) >= |listing|
    ensures var t := AfterTicks(EMPTY, listing, ticks);
      Consistent(t) && (forall a :: a in listing <==> Seen(t, a)) && forall a :: a in t.runs ==> a in listing
  {
    var t := AfterTicks(EMPTY, listing, ticks);
    TicksDrain(EMPTY, listing, ticks);
    UnseenIsShorter(listing, EMPTY);
    OnlyListedAttempts(listing, ticks);
    UnseenMembers(listing, t);
    if Unseen(listing, t) == [] {
      forall a | a in listing ensures Seen(t, a) {
        assert a !in Unseen(listing, t);
      }
    }
  }

  // ---------------------------------------------------------------- the service

  class Service {
    var intakes: seq<IntakeRow>
    var runs: seq<nat>

    ghost function Current(): Tables
      reads this
    {
      Tables(intakes, runs)
    }

    constructor ()
      ensures Current() == EMPTY
    {
      intakes, runs := [], [];
    }

    method FindIntake(attempt: nat) returns (row: Option<IntakeRow>)
      ensures row.Some? <==> Seen(Current(), attempt)
      ensures row.Some? ==> row.value in intakes && row.value.attempt == attempt
    {
      var i := 0;
      while i < |intakes|
        invariant 0 <= i <= |intakes| && forall j :: 0 <= j < i ==> intakes[j].attempt != attempt
      {
        if intakes[i].attempt == attempt {
          return Some(intakes[i]);
        }
        i := i + 1;
      }
      return None;
    }

    method Reversed(found: seq<nat>) returns (batch: seq<nat>)
      ensures batch == Reverse(found)
    {
      batch := [];
      var i := 0;
      while i < |found|
        invariant 0 <= i <= |found| && Reverse(found) == Reverse(found[i..]) + batch
      {
        batch := [found[i]] + batch;
        i := i + 1;
      }
    }

    /** Seen attempts are skipped before counting, so a backlog behind them is still reached. */
    method UnseenRuns(listing: seq<nat>, limit: int) returns (batch: seq<nat>)
      ensures batch == Batch(listing, Current(), limit)
    {
      hide Seen, Reverse;
      var found: seq<nat> := [];
      ghost var t := Current();
      ghost var unseen := Unseen(listing, t);
      var i := 0;
      while i < |listing| && |found| < limit
        invariant 0 <= i <= |listing| && (|found| <= limit || |found| == 0)
        invariant unseen == found + Unseen(listing[i..], t)
      {
        var row := FindIntake(listing[i]);
        assert listing[i..][1..] == listing[i + 1..];
        if row.None? {
          found := found + [listing[i]];
        }
        i := i + 1;
      }
      assert found == unseen[..Bounded(limit, |unseen|)];
      batch := Reversed(found);
    }

    /** `false` when the intake ended without its row. */
    method IngestWorkflowRun(attempt: nat, fate: Fate) returns (ok: bool)
      modifies this
      ensures Current() == IngestOne(old(Current()), attempt, fate)
      ensures ok == (Seen(old(Current()), attempt) || Finishes(fate))
      ensures Seen(old(Current()), attempt) || fate == FailsBefore ==> intakes == old(intakes) && runs == old(runs)
      ensures !Seen(old(Current()), attempt) && fate == Refused ==>
        intakes == old(intakes) + [IntakeRow(attempt, Rejected, None)] && runs == old(runs)
      ensures !Seen(old(Current()), attempt) && fate in {Accepted, DiesBetween} ==>
        runs == old(runs) + if attempt in old(runs) then [] else [attempt]
      ensures !Seen(old(Current()), attempt) && fate == DiesBetween ==> intakes == old(intakes)
      ensures !Seen(old(Current()), attempt) && fate == Accepted ==>
        exists i :: 0 <= i < |runs| && runs[i] == attempt &&
          intakes == old(intakes) + [IntakeRow(attempt, Ingested, Some(i))]
    {
      var prior := FindIntake(attempt);
      if prior.Some? {
        return true;
      }
      if fate == FailsBefore {
        return false;
      }
      var row := IntakeRow(attempt, Rejected, None);
      if fate != Refused {
        if attempt !in runs {
          runs := runs + [attempt];
        }
        if fate == DiesBetween {
          return false;
        }
        row := IntakeRow(attempt, Ingested, Some(PositionOf(runs, attempt)));
      }
      intakes := intakes + [row];
      return true;
    }

    method Poll(listing: seq<nat>, limit: int, fate: nat -> Fate)
      modifies this
      ensures Current() == AfterPoll(old(Current()), listing, limit, fate)
    {
      var batch := UnseenRuns(listing, limit);
      var i, ok := 0, true;
      while i < |batch| && ok
        invariant 0 <= i <= |batch|
        invariant IngestBatch(old(Current()), batch, fate) == if ok then IngestBatch(Current(), batch[i..], fate)
          else Current()
      {
        ok := IngestWorkflowRun(batch[i], fate(batch[i]));
        i := i + 1;
      }
    }
  }
}
