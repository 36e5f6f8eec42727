/** Ingesting scan runs in any order: what a finding says follows the scans' finish times. */
module Persist {
  import opened Domain
  import opened Evidence

  datatype Store = Store(findings: map<Key, Finding>, runs: map<nat, Run>)

  const EMPTY_STORE := Store(map[], map[])

  /** `run` finished strictly before run `other`; unknown times never reorder. */
  predicate FinishedBefore(runs: map<nat, Run>, run: Run, other: nat) {
    other != run.id && run.finished.Some? && other in runs && runs[other].finished.Some? &&
    run.finished.value < runs[other].finished.value
  }

  /** The state a refreshed finding takes; closed findings are the orchestrator's business. */
  function Restated(s: FindingState, kind: Option<int>): FindingState {
    if IsClosed(s) then s
    else if kind == None then Unclassified
    else if s == Unclassified then Open
    else s
  }

  function Refreshed(f: Finding, run: Run): Finding
    requires f.key in run.reports
  {
    var d := run.reports[f.key].description;
    f.(description := d, lastSeen := run.id, state := Restated(f.state, d.kind))
  }

  function Opened(run: Run, k: Key): Finding
    requires k in run.reports
  {
    Finding(k, run.reports[k].rawBy, run.oldestDb, run.reports[k].description, Open, run.id, run.id, None, None)
  }

  function Upserted(runs: map<nat, Run>, known: Option<Finding>, run: Run, k: Key): (f: Finding)
    requires k in run.reports && (known.Some? ==> known.value.key == k)
    ensures f.key == k
    ensures known.Some? ==>
      f.openedBy == known.value.openedBy && f.openingDb == known.value.openingDb &&
      f.owner == known.value.owner && f.closedBy == known.value.closedBy &&
      (f.state == known.value.state || (!IsClosed(known.value.state) && f.state in {Open, Unclassified}))
    ensures known.None? ==>
      f.openedBy == run.reports[k].rawBy && f.openingDb == run.oldestDb && f.owner == None && f.closedBy == None &&
      f.state in {Open, Unclassified}
  {
    match known
    case None => Refreshed(Opened(run, k), run)
    case Some(f0) =>
      var dated := if FinishedBefore(runs, run, f0.firstSeen) then f0.(firstSeen := run.id) else f0;
      if FinishedBefore(runs, run, dated.lastSeen) then dated else Refreshed(dated, run)
  }

  function Lookup(findings: map<Key, Finding>, k: Key): Option<Finding> {
    if k in findings then Some(findings[k]) else None
  }

  ghost predicate KeyedByKey(findings: map<Key, Finding>) {
    forall k :: k in findings ==> findings[k].key == k
  }

  /** One ingested run; a run already present changes nothing. */
  function Ingest(s: Store, run: Run): (t: Store)
    requires KeyedByKey(s.findings)
    ensures KeyedByKey(t.findings)
  {
    if run.id in s.runs then s
    else
      var runs := s.runs[run.id := run];
      Store(map k | k in s.findings.Keys + run.reports.Keys ::
              if k in run.reports then Upserted(runs, Lookup(s.findings, k), run, k) else s.findings[k],
            runs)
  }

  function IngestAll(rs: seq<Run>): (s: Store)
    ensures KeyedByKey(s.findings)
  {
    if rs == [] then EMPTY_STORE else Ingest(IngestAll(rs[..|rs| - 1]), rs[|rs| - 1])
  }

  // ---------------------------------------------------------------- chronology

  /** Run ids name runs, and different runs finished at different known times. */
  ghost predicate DistinctFinishes(runs: map<nat, Run>) {
    (forall id :: id in runs ==> runs[id].id == id && runs[id].finished.Some?) &&
    (forall a, b :: a in runs && b in runs && runs[a].finished == runs[b].finished ==> a == b)
  }

  ghost predicate Earliest(runs: map<nat, Run>, k: Key, id: nat) {
    id in runs && k in runs[id].reports && runs[id].finished.Some? &&
    forall r :: r in runs && k in runs[r].reports && runs[r].finished.Some? ==>
      runs[id].finished.value <= runs[r].finished.value
  }

  ghost predicate Latest(runs: map<nat, Run>, k: Key, id: nat) {
    id in runs && k in runs[id].reports && runs[id].finished.Some? &&
    forall r :: r in runs && k in runs[r].reports && runs[r].finished.Some? ==>
      runs[r].finished.value <= runs[id].finished.value
  }

  ghost predicate AllFinished(runs: map<nat, Run>) {
    forall id :: id in runs ==> runs[id].id == id && runs[id].finished.Some?
  }

  /** Findings are exactly what some run reported, first seen by the scan that finished first, last
      seen by and described by the one that finished last. */
  ghost predicate Chronological(s: Store) {
    KeyedByKey(s.findings) &&
    (forall k :: k in s.findings <==> exists r :: r in s.runs && k in s.runs[r].reports) &&
    forall k :: k in s.findings ==>
      Earliest(s.runs, k, s.findings[k].firstSeen) && Latest(s.runs, k, s.findings[k].lastSeen) &&
      s.findings[k].description == s.runs[s.findings[k].lastSeen].reports[k].description
  }

  ghost predicate NeverMoved(s: Store) {
    forall k :: k in s.findings ==>
      s.findings[k].state == if s.findings[k].description.kind == None then Unclassified else Open
  }

  lemma ExtremesAfter(runs: map<nat, Run>, run: Run, k: Key, first: nat, last: nat)
    requires AllFinished(runs) && run.finished.Some? && run.id !in runs
    requires Earliest(runs, k, first) && Latest(runs, k, last)
    ensures var t := runs[run.id := run];
      AllFinished(t) &&
      Earliest(t, k, if k in run.reports && FinishedBefore(t, run, first) then run.id else first) &&
      Latest(t, k, if k in run.reports && !FinishedBefore(t, run, last) then run.id else last)
  {
  }

  lemma UpsertIsChronological(s: Store, run: Run, k: Key)
    requires Chronological(s) && AllFinished(s.runs) && run.finished.Some? && run.id !in s.runs && k in run.reports
    ensures var t := s.runs[run.id := run]; var f := Upserted(t, Lookup(s.findings, k), run, k);
      Earliest(t, k, f.firstSeen) && Latest(t, k, f.lastSeen) && f.description == t[f.lastSeen].reports[k].description
  {
    var t := s.runs[run.id := run];
    if k in s.findings {
      ExtremesAfter(s.runs, run, k, s.findings[k].firstSeen, s.findings[k].lastSeen);
    } else {
      assert forall r :: r in s.runs ==> k !in s.runs[r].reports;
      assert t[run.id] == run;
    }
  }

  /** Ingestion keeps the chronology whatever states and owners the controller gave the findings. */
  lemma IngestIsChronological(s: Store, run: Run)
    requires Chronological(s) && AllFinished(s.runs) && run.finished.Some?
    ensures Chronological(Ingest(s, run)) && AllFinished(Ingest(s, run).runs)
  {
    var t := Ingest(s, run);
    if run.id !in s.runs {
      forall k | k in t.findings
        ensures Earliest(t.runs, k, t.findings[k].firstSeen) && Latest(t.runs, k, t.findings[k].lastSeen)
        ensures t.findings[k].description == t.runs[t.findings[k].lastSeen].reports[k].description
      {
        if k in run.reports {
          UpsertIsChronological(s, run, k);
        } else {
          ExtremesAfter(s.runs, run, k, s.findings[k].firstSeen, s.findings[k].lastSeen);
        }
      }
      forall k ensures k in t.findings <==> exists r :: r in t.runs && k in t.runs[r].reports {
        ReportedAfter(s, run, k);
      }
    }
  }

  lemma ReportedAfter(s: Store, run: Run, k: Key)
    requires KeyedByKey(s.findings) && run.id !in s.runs
    requires k in s.findings <==> exists r :: r in s.runs && k in s.runs[r].reports
    ensures k in Ingest(s, run).findings <==>
      exists r :: r in Ingest(s, run).runs && k in Ingest(s, run).runs[r].reports
  {
    var t := Ingest(s, run);
    if k in s.findings {
      var r :| r in s.runs && k in s.runs[r].reports;
      assert r in t.runs && t.runs[r] == s.runs[r];
    }
    if k in run.reports {
      assert run.id in t.runs && t.runs[run.id] == run;
    }
    if r :| r in t.runs && k in t.runs[r].reports {
      assert r == run.id || (r in s.runs && t.runs[r] == s.runs[r]);
    }
  }

  lemma UpsertKeepsUnmoved(runs: map<nat, Run>, known: Option<Finding>, run: Run, k: Key)
    requires k in run.reports && (known.Some? ==> known.value.key == k)
    requires known.Some? ==> known.value.state == if known.value.description.kind == None then Unclassified else Open
    ensures var f := Upserted(runs, known, run, k);
      f.state == if f.description.kind == None then Unclassified else Open
  {
  }

  lemma IngestKeepsUnmoved(s: Store, run: Run)
    requires KeyedByKey(s.findings) && NeverMoved(s)
    ensures NeverMoved(Ingest(s, run))
  {
    hide Upserted;
    if run.id !in s.runs {
      forall k | k in run.reports {
        UpsertKeepsUnmoved(s.runs[run.id := run], Lookup(s.findings, k), run, k);
      }
    }
  }

  lemma {:induction false} IngestAllIsChronological(rs: seq<Run>)
    requires forall r :: r in rs ==> r.finished.Some?
    ensures Chronological(IngestAll(rs)) && AllFinished(IngestAll(rs).runs) && NeverMoved(IngestAll(rs))
  {
    if rs != [] {
      IngestAllIsChronological(rs[..|rs| - 1]);
      IngestIsChronological(IngestAll(rs[..|rs| - 1]), rs[|rs| - 1]);
      IngestKeepsUnmoved(IngestAll(rs[..|rs| - 1]), rs[|rs| - 1]);
    }
  }

  lemma {:induction false} IngestAllKeepsRuns(rs: seq<Run>)
    requires forall a, b :: a in rs && b in rs && a.id == b.id ==> a == b
    ensures forall r :: r in rs ==> r.id in IngestAll(rs).runs && IngestAll(rs).runs[r.id] == r
    ensures forall id :: id in IngestAll(rs).runs ==> IngestAll(rs).runs[id] in rs && IngestAll(rs).runs[id].id == id
  {
    if rs != [] {
      var front, last := rs[..|rs| - 1], rs[|rs| - 1];
      assert rs == front + [last];
      IngestAllKeepsRuns(front);
    }
  }

  /** The part of a finding that ingestion order must not decide. */
  ghost predicate SameStory(f: Finding, g: Finding) {
    f.firstSeen == g.firstSeen && f.lastSeen == g.lastSeen && f.description == g.description && f.state == g.state
  }

  lemma OneExtreme(runs: map<nat, Run>, k: Key, first: nat, alsoFirst: nat, last: nat, alsoLast: nat)
    requires DistinctFinishes(runs) && Earliest(runs, k, first) && Earliest(runs, k, alsoFirst)
    requires Latest(runs, k, last) && Latest(runs, k, alsoLast)
    ensures first == alsoFirst && last == alsoLast
  {
    assert runs[first].finished == runs[alsoFirst].finished;
    assert runs[last].finished == runs[alsoLast].finished;
  }

  /** A chronology is decided by the runs alone. */
  lemma RunsDecide(s: Store, t: Store, k: Key)
    requires Chronological(s) && Chronological(t) && s.runs == t.runs && DistinctFinishes(s.runs)
    requires NeverMoved(s) && NeverMoved(t)
    ensures k in s.findings <==> k in t.findings
    ensures k in s.findings ==> SameStory(s.findings[k], t.findings[k])
  {
    hide Earliest, Latest;
    if k in s.findings {
      var f, g := s.findings[k], t.findings[k];
      OneExtreme(s.runs, k, f.firstSeen, g.firstSeen, f.lastSeen, g.lastSeen);
    }
  }

  lemma BacklogsAgree(rs: seq<Run>, ts: seq<Run>)
    requires forall r :: r in rs <==> r in ts
    requires forall r :: r in rs ==> r.finished.Some?
    requires forall a, b :: a in rs && b in rs && (a.id == b.id || a.finished == b.finished) ==> a == b
    ensures Chronological(IngestAll(rs)) && Chronological(IngestAll(ts))
    ensures NeverMoved(IngestAll(rs)) && NeverMoved(IngestAll(ts))
    ensures IngestAll(rs).runs == IngestAll(ts).runs && DistinctFinishes(IngestAll(rs).runs)
  {
    IngestAllIsChronological(rs);
    IngestAllIsChronological(ts);
    IngestAllKeepsRuns(rs);
    IngestAllKeepsRuns(ts);
    SameRuns(rs, ts, IngestAll(rs).runs, IngestAll(ts).runs);
  }

  /** Two backlogs of the same runs, in any order and with any repetitions, give the same findings,
      first and last sightings, descriptions and open or unclassified states. */
  lemma OrderDoesNotMatter(rs: seq<Run>, ts: seq<Run>)
    requires forall r :: r in rs <==> r in ts
    requires forall r :: r in rs ==> r.finished.Some?
    requires forall a, b :: a in rs && b in rs && (a.id == b.id || a.finished == b.finished) ==> a == b
    ensures forall k :: k in IngestAll(rs).findings <==> k in IngestAll(ts).findings
    ensures forall k :: k in IngestAll(rs).findings ==> SameStory(IngestAll(rs).findings[k], IngestAll(ts).findings[k])
  {
    BacklogsAgree(rs, ts);
    forall k ensures k in IngestAll(rs).findings <==> k in IngestAll(ts).findings
             ensures k in IngestAll(rs).findings ==> SameStory(IngestAll(rs).findings[k], IngestAll(ts).findings[k])
    {
      RunsDecide(IngestAll(rs), IngestAll(ts), k);
    }
  }

  lemma SameRuns(rs: seq<Run>, ts: seq<Run>, a: map<nat, Run>, b: map<nat, Run>)
    requires forall r :: r in rs <==> r in ts
    requires forall r, q :: r in rs && q in rs && (r.id == q.id || r.finished == q.finished) ==> r == q
    requires forall r :: r in rs ==> r.finished.Some? && r.id in a && a[r.id] == r
    requires forall r :: r in ts ==> r.id in b && b[r.id] == r
    requires forall id :: id in a ==> a[id] in rs && a[id].id == id
    requires forall id :: id in b ==> b[id] in ts && b[id].id == id
    ensures a == b && DistinctFinishes(a)
  {
    forall id | id in a ensures id in b && b[id] == a[id] {
      assert a[id] in ts;
    }
    forall id | id in b ensures id in a {
      assert b[id] in rs;
    }
    assert a.Keys == b.Keys;
  }

  // ---------------------------------------------------------------- what a bundle must hold

  /** The evidence of one scan job; `primary` is the run's own image target, `subject` stands for the
      image, target, platform and layers it scanned. */
  datatype JobEvidence = JobEvidence(primary: bool, mode: ScanMode, platform: int, subject: int)

  datatype BundleError =
    | NotOneRawJob
    | SeveralPolicyJobs
    | SecondaryPolicyJob
    | SecondaryPlatform
    | RawPlatform
    | OtherSubject

  /** `kinds` counts the run's findings by classification, `suppressed` those the policy scan leaves out. */
  datatype IngestOutcome =
    | AlreadyPresent
    | Refused(error: BundleError)
    | Ingested(total: nat, added: nat, kinds: multiset<Option<int>>, suppressed: nat)

  /** The primary jobs of a mode. */
  function Primary(jobs: seq<JobEvidence>, mode: ScanMode): (picked: seq<JobEvidence>)
    ensures forall j :: j in picked <==> j in jobs && j.primary && j.mode == mode
  {
    if jobs == [] then []
    else
      var front, last := Primary(jobs[..|jobs| - 1], mode), jobs[|jobs| - 1];
      assert forall j :: j in jobs <==> j in jobs[..|jobs| - 1] || j == last;
      if last.primary && last.mode == mode then front + [last] else front
  }

  /** One raw job of the run's platform, at most one policy job, of the same subject, and only raw jobs of
      the same platform for other targets. */
  ghost predicate IsBundle(jobs: seq<JobEvidence>, platform: int) {
    |Primary(jobs, Raw)| == 1 && |Primary(jobs, Policy)| <= 1 &&
    (forall j :: j in jobs && !j.primary ==> j.mode == Raw && j.platform == platform) &&
    (forall j :: j in jobs && j.primary && j.mode == Raw ==> j.platform == platform) &&
    forall j, k :: j in jobs && k in jobs && j.primary && k.primary && j.mode == Raw && k.mode == Policy ==>
      j.subject == k.subject
  }

  /** The rule the error names is broken. */
  ghost predicate Breaks(e: BundleError, jobs: seq<JobEvidence>, platform: int) {
    match e
    case NotOneRawJob => |Primary(jobs, Raw)| != 1
    case SeveralPolicyJobs => |Primary(jobs, Policy)| > 1
    case SecondaryPolicyJob => exists j :: j in jobs && !j.primary && j.mode != Raw
    case SecondaryPlatform => exists j :: j in jobs && !j.primary && j.platform != platform
    case RawPlatform => exists j :: j in jobs && j.primary && j.mode == Raw && j.platform != platform
    case OtherSubject =>
      exists j, k :: j in jobs && k in jobs && j.primary && k.primary && j.mode == Raw && k.mode == Policy &&
        j.subject != k.subject
  }

  lemma BundleMeans(jobs: seq<JobEvidence>, platform: int)
    ensures IsBundle(jobs, platform) <==> forall e :: !Breaks(e, jobs, platform)
  {
    hide Primary;
    if forall e :: !Breaks(e, jobs, platform) {
      assert !Breaks(NotOneRawJob, jobs, platform) && !Breaks(SeveralPolicyJobs, jobs, platform);
      assert !Breaks(SecondaryPolicyJob, jobs, platform) && !Breaks(SecondaryPlatform, jobs, platform);
      assert !Breaks(RawPlatform, jobs, platform) && !Breaks(OtherSubject, jobs, platform);
    }
  }

  /** A bundle is refused exactly when it breaks a rule, and for a rule it breaks. */
  method CheckBundle(jobs: seq<JobEvidence>, platform: int) returns (error: Option<BundleError>)
    ensures error == None <==> IsBundle(jobs, platform)
    ensures error == None <==> forall e :: !Breaks(e, jobs, platform)
    ensures error.Some? ==> Breaks(error.value, jobs, platform)
  {
    BundleMeans(jobs, platform);
    var raws, policies := Primary(jobs, Raw), Primary(jobs, Policy);
    if |raws| != 1 {
      return Some(NotOneRawJob);
    }
    if |policies| > 1 {
      return Some(SeveralPolicyJobs);
    }
    if exists j | j in jobs :: !j.primary && j.mode != Raw {
      return Some(SecondaryPolicyJob);
    }
    for i := 0 to |jobs|
      invariant forall k :: 0 <= k < i && !jobs[k].primary ==> jobs[k].platform == platform
    {
      if !jobs[i].primary && jobs[i].platform != platform {
        assert jobs[i] in jobs;
        return Some(SecondaryPlatform);
      }
    }
    assert raws[0] in raws;
    if raws[0].platform != platform {
      return Some(RawPlatform);
    }
    assert policies != [] ==> policies[0] in policies;
    if policies != [] && policies[0].subject != raws[0].subject {
      return Some(OtherSubject);
    }
    assert forall j :: j in raws ==> j == raws[0];
    assert forall j :: j in policies ==> j == policies[0];
    return None;
  }

  function Members(keys: seq<Key>): set<Key> {
    set k | k in keys
  }

  /** How many of `keys` are not known yet. */
  ghost function NewAmong(keys: seq<Key>, known: set<Key>): nat {
    |Members(keys) - known|
  }

  lemma NothingNew(known: set<Key>)
    ensures NewAmong([], known) == 0 && Opens([], known) == []
  {
  }

  lemma MembersGrow(keys: seq<Key>, k: Key, known: set<Key>)
    requires k !in keys
    ensures NewAmong(keys + [k], known) == NewAmong(keys, known) + if k in known then 0 else 1
  {
    assert Members(keys + [k]) == Members(keys) + {k};
    if k in known {
      assert Members(keys + [k]) - known == Members(keys) - known;
    } else {
      assert Members(keys + [k]) - known == (Members(keys) - known) + {k};
    }
  }

  function OfKind(run: Run, kind: Option<int>): set<Key> {
    set k | k in run.reports && run.reports[k].description.kind == kind
  }

  /** The findings of a run that its policy scan does not report. */
  function Suppressed(run: Run): set<Key> {
    set k | k in run.reports && run.hasPolicy && run.reports[k].policyBy == {}
  }

  /** The counters after `done`. */
  ghost predicate Tallied(run: Run, done: seq<Key>, kinds: multiset<Option<int>>, suppressed: nat) {
    (forall x :: kinds[x] == |Members(done) * OfKind(run, x)|) && suppressed == |Members(done) * Suppressed(run)|
  }

  lemma TalliedNone(run: Run)
    ensures Tallied(run, [], multiset{}, 0)
  {
    forall x ensures Members([]) * OfKind(run, x) == {} {
    }
    assert Members([]) * Suppressed(run) == {};
  }

  lemma MembersMeet(keys: seq<Key>, k: Key, s: set<Key>)
    requires k !in keys
    ensures |Members(keys + [k]) * s| == |Members(keys) * s| + if k in s then 1 else 0
  {
    if k in s {
      assert Members(keys + [k]) * s == (Members(keys) * s) + {k};
    } else {
      assert Members(keys + [k]) * s == Members(keys) * s;
    }
  }

  lemma TalliedNext(run: Run, done: seq<Key>, kinds: multiset<Option<int>>, suppressed: nat, k: Key)
    requires Tallied(run, done, kinds, suppressed) && k !in done && k in run.reports
    ensures Tallied(run, done + [k], kinds + multiset{run.reports[k].description.kind},
                    suppressed + if run.hasPolicy && run.reports[k].policyBy == {} then 1 else 0)
  {
    hide Members;
    forall x {
      MembersMeet(done, k, OfKind(run, x));
    }
    MembersMeet(done, k, Suppressed(run));
  }

  lemma TalliedAll(run: Run, order: seq<Key>, kinds: multiset<Option<int>>, suppressed: nat)
    requires Tallied(run, order, kinds, suppressed) && forall k :: k in order <==> k in run.reports
    ensures (forall x :: kinds[x] == |OfKind(run, x)|) && suppressed == |Suppressed(run)|
  {
    forall x ensures kinds[x] == |OfKind(run, x)| {
      assert Members(order) * OfKind(run, x) == OfKind(run, x);
    }
    assert Members(order) * Suppressed(run) == Suppressed(run);
  }

  lemma CountersMean(run: Run)
    ensures forall x :: OfKind(run, x) == set k | k in run.reports && run.reports[k].description.kind == x
    ensures Suppressed(run) == set k | k in run.reports && run.hasPolicy && run.reports[k].policyBy == {}
  {
  }

  /** The keys not known yet, in order. */
  function Opens(keys: seq<Key>, known: set<Key>): (news: seq<Key>)
    ensures forall k :: k in news <==> k in keys && k !in known
  {
    if keys == [] then []
    else
      var front, last := Opens(keys[..|keys| - 1], known), keys[|keys| - 1];
      assert forall k :: k in keys <==> k in keys[..|keys| - 1] || k == last;
      if last in known then front else front + [last]
  }

  lemma OpensNext(keys: seq<Key>, k: Key, known: set<Key>)
    ensures Opens(keys + [k], known) == Opens(keys, known) + if k in known then [] else [k]
  {
    assert (keys + [k])[..|keys|] == keys;
  }

  lemma {:induction false} DistinctMembers(keys: seq<Key>)
    requires forall i, j :: 0 <= i < j < |keys| ==> keys[i] != keys[j]
    ensures |Members(keys)| == |keys|
  {
    if keys != [] {
      var n := |keys| - 1;
      DistinctMembers(keys[..n]);
      assert keys == keys[..n] + [keys[n]];
      assert Members(keys) == Members(keys[..n]) + {keys[n]};
    }
  }

  /** The findings of `done` were upserted one by one, the others left alone. */
  ghost predicate HasWritten(
      before: map<Key, Finding>, runs: map<nat, Run>, run: Run, done: seq<Key>, after: map<Key, Finding>) {
    (forall k :: k in after <==> k in before || k in done) &&
    (forall k :: k in done ==> k in run.reports && (k in before ==> before[k].key == k) &&
                               after[k] == Upserted(runs, Lookup(before, k), run, k)) &&
    forall k :: k in before && k !in done ==> after[k] == before[k]
  }

  lemma WrittenNone(before: map<Key, Finding>, runs: map<nat, Run>, run: Run)
    ensures HasWritten(before, runs, run, [], before)
  {
  }

  lemma WrittenNext(
      before: map<Key, Finding>, runs: map<nat, Run>, run: Run, done: seq<Key>, after: map<Key, Finding>, k: Key)
    requires HasWritten(before, runs, run, done, after) && k !in done && k in run.reports
    requires KeyedByKey(before) && KeyedByKey(after)
    ensures k in after <==> k in before
    ensures HasWritten(before, runs, run, done + [k], after[k := Upserted(runs, Lookup(after, k), run, k)])
  {
    hide Upserted;
    assert Lookup(after, k) == Lookup(before, k);
    assert forall q :: q in done + [k] <==> q in done || q == k;
  }

  lemma NotYet(order: seq<Key>, n: nat)
    requires n < |order| && forall i, j :: 0 <= i < j < |order| ==> order[i] != order[j]
    ensures order[n] !in order[..n] && order[..n + 1] == order[..n] + [order[n]]
  {
  }

  lemma WrittenIsIngested(s: Store, run: Run, order: seq<Key>, after: map<Key, Finding>)
    requires KeyedByKey(s.findings) && run.id !in s.runs && forall k :: k in order <==> k in run.reports
    requires HasWritten(s.findings, s.runs[run.id := run], run, order, after)
    ensures Store(after, s.runs[run.id := run]) == Ingest(s, run)
  {
    hide Upserted;
    assert after == Ingest(s, run).findings;
  }

  // ---------------------------------------------------------------- as it runs

  /** A finding row being written field by field. */
  class FindingRow {
    var value: Finding

    constructor (f: Finding)
      ensures value == f
    {
      value := f;
    }

    method Refresh(run: Run)
      requires value.key in run.reports
      modifies this
      ensures value == Refreshed(old(value), run)
    {
      var report := run.reports[value.key];
      value := value.(description := report.description);
      value := value.(lastSeen := run.id);
      if IsClosed(value.state) {
        // seen again after closure: a regression is recorded by the closing evaluation, not here
      } else if report.description.kind == None {
        value := value.(state := Unclassified);
      } else if value.state == Unclassified {
        value := value.(state := Open);
      }
    }
  }

  class FindingStore {
    var findings: map<Key, Finding>
    var runs: map<nat, Run>
    var openings: seq<Key>  // the findings an event says were opened, in order

    ghost function Abs(): Store
      reads this
    {
      Store(findings, runs)
    }

    ghost predicate Valid()
      reads this
    {
      KeyedByKey(findings)
    }

    constructor ()
      ensures Valid() && Abs() == EMPTY_STORE && openings == []
    {
      findings, runs, openings := map[], map[], [];
    }

    /** The tables as another part of the controller holds them. */
    constructor Over(findings: map<Key, Finding>, runs: map<nat, Run>)
      requires KeyedByKey(findings)
      ensures Valid() && Abs() == Store(findings, runs) && openings == []
    {
      this.findings, this.runs, openings := findings, runs, [];
    }

    /** Opens or refreshes the finding `k` names. What it was opened by is written once; the scan that finished
        last says what it looks like now, the one that finished first when it was first seen. */
    method UpsertFinding(run: Run, k: Key) returns (isNew: bool)
      requires Valid() && k in run.reports
      modifies this`findings
      ensures Valid() && isNew == (k !in old(findings))
      ensures findings == old(findings)[k := Upserted(runs, Lookup(old(findings), k), run, k)]
      ensures isNew ==>
        findings[k] == Finding(k, run.reports[k].rawBy, run.oldestDb, run.reports[k].description,
                               if run.reports[k].description.kind == None then Unclassified else Open,
                               run.id, run.id, None, None)
      ensures !isNew ==>
        var f, g := old(findings)[k], findings[k];
        g.openedBy == f.openedBy && g.openingDb == f.openingDb && g.owner == f.owner && g.closedBy == f.closedBy &&
        g.firstSeen == if FinishedBefore(runs, run, f.firstSeen) then run.id else f.firstSeen
      ensures !isNew && FinishedBefore(runs, run, old(findings)[k].lastSeen) ==>
        var f, g := old(findings)[k], findings[k];
        g.lastSeen == f.lastSeen && g.description == f.description && g.state == f.state
      ensures !isNew && !FinishedBefore(runs, run, old(findings)[k].lastSeen) ==>
        var f, g := old(findings)[k], findings[k];
        g.lastSeen == run.id && g.description == run.reports[k].description &&
        (f.state in {Fixed, ApprovedDisposition, DisagreementResolved} ==> g.state == f.state) &&
        (f.state !in {Fixed, ApprovedDisposition, DisagreementResolved} ==>
          g.state == if run.reports[k].description.kind == None then Unclassified
                     else if f.state == Unclassified then Open else f.state)
      ensures !isNew && run.finished.None? ==>
        findings[k].lastSeen == run.id && findings[k].firstSeen == old(findings)[k].firstSeen
    {
      isNew := k !in findings;
      if !isNew && FinishedBefore(runs, run, findings[k].firstSeen) {
        findings := findings[k := findings[k].(firstSeen := run.id)];
      }
      if !isNew && FinishedBefore(runs, run, findings[k].lastSeen) {
        return;
      }
      var row := new FindingRow(if isNew then Opened(run, k) else findings[k]);
      row.Refresh(run);
      findings := findings[k := row.value];
    }

    /** `order` is the run's normalized findings in the order they are written; returns how many were new, and
        the counters by kind and of those the policy suppressed. */
    method WriteFindings(run: Run, order: seq<Key>)
      returns (added: nat, kinds: multiset<Option<int>>, suppressed: nat)
      requires Valid() && run.id in runs && runs[run.id] == run
      requires forall k :: k in order ==> k in run.reports
      requires forall i, j :: 0 <= i < j < |order| ==> order[i] != order[j]
      modifies this`findings, this`openings
      ensures Valid() && HasWritten(old(findings), runs, run, order, findings)
      ensures added == NewAmong(order, old(findings).Keys) &&
        openings == old(openings) + Opens(order, old(findings).Keys)
      ensures Tallied(run, order, kinds, suppressed)
    {
      hide Upserted, HasWritten, NewAmong, KeyedByKey, Tallied, Opens;
      ghost var before := findings;
      var n := 0;
      added, kinds, suppressed := 0, multiset{}, 0;
      WrittenNone(before, runs, run);
      NothingNew(before.Keys);
      TalliedNone(run);
      assert order[..0] == [];
      while n < |order|
        invariant 0 <= n <= |order| && Valid()
        invariant HasWritten(before, runs, run, order[..n], findings)
        invariant added == NewAmong(order[..n], before.Keys) &&
          openings == old(openings) + Opens(order[..n], before.Keys)
        invariant Tallied(run, order[..n], kinds, suppressed)
      {
        var k := order[n];
        NotYet(order, n);
        WrittenNext(before, runs, run, order[..n], findings, k);
        MembersGrow(order[..n], k, before.Keys);
        OpensNext(order[..n], k, before.Keys);
        TalliedNext(run, order[..n], kinds, suppressed, k);
        var isNew := UpsertFinding(run, k);
        added := added + if isNew then 1 else 0;
        kinds := kinds + multiset{run.reports[k].description.kind};
        suppressed := suppressed + if run.hasPolicy && run.reports[k].policyBy == {} then 1 else 0;
        openings := openings + if isNew then [k] else [];
        n := n + 1;
      }
      assert order[..n] == order;
    }

    /** Ingests one run, whose normalized findings are `order`. A run already present and a bundle that
        breaks a rule write nothing. */
    method IngestRun(run: Run, jobs: seq<JobEvidence>, order: seq<Key>) returns (outcome: IngestOutcome)
      requires Valid()
      requires forall k :: k in order <==> k in run.reports
      requires forall i, j :: 0 <= i < j < |order| ==> order[i] != order[j]
      modifies this
      ensures Valid()
      ensures outcome == AlreadyPresent <==> run.id in old(runs)
      ensures outcome.Refused? <==> run.id !in old(runs) && !IsBundle(jobs, run.platform)
      ensures outcome.Refused? ==> Breaks(outcome.error, jobs, run.platform)
      ensures Abs() == if outcome.Ingested? then Ingest(old(Abs()), run) else old(Abs())
      ensures openings == old(openings) + if outcome.Ingested? then Opens(order, old(findings).Keys) else []
      ensures outcome.Ingested? ==>
        outcome.total == |run.reports| && outcome.added == |run.reports.Keys - old(findings).Keys| &&
        (forall x :: outcome.kinds[x] == |set k | k in run.reports && run.reports[k].description.kind == x|) &&
        outcome.suppressed == |set k | k in run.reports && run.hasPolicy && run.reports[k].policyBy == {}|
    {
      hide Upserted, IsBundle, Breaks, Ingest, HasWritten, Tallied, Opens, OfKind, Suppressed;
      if run.id in runs {
        return AlreadyPresent;
      }
      var error := CheckBundle(jobs, run.platform);
      if error.Some? {
        return Refused(error.value);
      }
      runs := runs[run.id := run];
      var added, kinds, suppressed := WriteFindings(run, order);
      WrittenIsIngested(old(Abs()), run, order, findings);
      TalliedAll(run, order, kinds, suppressed);
      CountersMean(run);
      DistinctMembers(order);
      assert Members(order) == run.reports.Keys && |run.reports.Keys| == |run.reports|;
      outcome := Ingested(|order|, added, kinds, suppressed);
    }
  }
}
