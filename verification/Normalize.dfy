/** Merging per-scanner records into one finding per dedupe key. */
module Normalize {
  import opened Domain
  import Sorting

  /** A dedupe key; its text is opaque but ordered, and the prefix `config|` sorts before `vuln|`. */
  datatype Key = ConfigKey(text: nat) | VulnKey(text: nat)

  datatype RawVuln = RawVuln(scanner: Scanner, text: nat, severity: Severity, fixes: seq<nat>, title: Option<nat>,
    purl: Option<nat>)

  datatype RawConfig = RawConfig(scanner: Scanner, text: nat, severity: Severity, title: Option<nat>)

  datatype Normalized = Normalized(key: Key, severity: Severity, reportedBy: set<Scanner>,
                                   severityBy: map<Scanner, Severity>, fixesBy: map<Scanner, seq<nat>>,
                                   title: Option<nat>, purl: Option<nat>)

  predicate LeKey(a: Key, b: Key) {
    match (a, b)
    case (ConfigKey(i), ConfigKey(j)) => i <= j
    case (VulnKey(i), VulnKey(j)) => i <= j
    case (ConfigKey(_), VulnKey(_)) => true
    case (VulnKey(_), ConfigKey(_)) => false
  }

  lemma LeKeyIsTotal()
    ensures Sorting.TotalOrder(LeKey)
  {
  }

  /** Adds one vulnerability record to the finding of its key. */
  function WithVuln(nf: Normalized, rv: RawVuln): Normalized {
    nf.(title := if nf.title.None? then rv.title else nf.title,
        purl := if nf.purl.None? then rv.purl else nf.purl,
        reportedBy := nf.reportedBy + {rv.scanner},
        severityBy := nf.severityBy[rv.scanner := rv.severity],
        fixesBy := nf.fixesBy[rv.scanner := rv.fixes],
        severity := if Rank(rv.severity) > Rank(nf.severity) then rv.severity else nf.severity)
  }

  function WithConfig(nf: Normalized, rc: RawConfig): Normalized {
    nf.(reportedBy := nf.reportedBy + {rc.scanner}, severityBy := nf.severityBy[rc.scanner := rc.severity])
  }

  function FreshVuln(rv: RawVuln): Normalized {
    Normalized(VulnKey(rv.text), SeverityUnknown, {}, map[], map[], rv.title, rv.purl)
  }

  function FreshConfig(rc: RawConfig): Normalized {
    Normalized(ConfigKey(rc.text), rc.severity, {}, map[], map[], rc.title, None)
  }

  type Merged = map<Key, Normalized>

  function MergeVulns(vulns: seq<RawVuln>): Merged {
    if vulns == [] then map[]
    else
      var rv, before := vulns[|vulns| - 1], MergeVulns(vulns[..|vulns| - 1]);
      var key := VulnKey(rv.text);
      before[key := WithVuln(if key in before then before[key] else FreshVuln(rv), rv)]
  }

  function MergeConfigs(merged: Merged, configs: seq<RawConfig>): Merged {
    if configs == [] then merged
    else
      var rc, before := configs[|configs| - 1], MergeConfigs(merged, configs[..|configs| - 1]);
      var key := ConfigKey(rc.text);
      before[key := WithConfig(if key in before then before[key] else FreshConfig(rc), rc)]
  }

  ghost predicate Lists(order: seq<Key>, merged: Merged) {
    Sorting.Distinct(order) && forall k :: k in order <==> k in merged
  }

  /** The findings of the merge, each once, in ascending order of their keys. */
  ghost predicate IsListing(out: seq<Normalized>, merged: Merged) {
    (forall i, j :: 0 <= i < j < |out| ==> out[i].key != out[j].key && LeKey(out[i].key, out[j].key)) &&
    (forall nf :: nf in out <==> nf.key in merged && merged[nf.key] == nf)
  }

  ghost predicate WellKeyed(merged: Merged) {
    forall k :: k in merged ==> merged[k].key == k
  }

  /** Two loops over the records; a finding is created where its key is first met and updated in place
      after that. */
  method Merge(vulns: seq<RawVuln>, configs: seq<RawConfig>) returns (merged: Merged, order: seq<Key>)
    ensures merged == MergeConfigs(MergeVulns(vulns), configs)
    ensures Lists(order, merged)
  {
    hide WithVuln, WithConfig, FreshVuln, FreshConfig;
    merged, order := map[], [];
    var i := 0;
    while i < |vulns|
      invariant 0 <= i <= |vulns| && merged == MergeVulns(vulns[..i]) && Lists(order, merged)
    {
      assert vulns[..i + 1][..i] == vulns[..i];
      var rv := vulns[i];
      var key := VulnKey(rv.text);
      if key !in merged {
        merged, order := merged[key := FreshVuln(rv)], order + [key];
      }
      merged := merged[key := WithVuln(merged[key], rv)];
      i := i + 1;
    }
    assert vulns[..i] == vulns;
    i := 0;
    while i < |configs|
      invariant 0 <= i <= |configs| && merged == MergeConfigs(MergeVulns(vulns), configs[..i]) && Lists(order, merged)
    {
      assert configs[..i + 1][..i] == configs[..i];
      var rc := configs[i];
      var key := ConfigKey(rc.text);
      if key !in merged {
        merged, order := merged[key := FreshConfig(rc)], order + [key];
      }
      merged := merged[key := WithConfig(merged[key], rc)];
      i := i + 1;
    }
    assert configs[..i] == configs;
  }

  /** Reading the merge off its sorted keys lists it. */
  lemma SortedListing(merged: Merged, order: seq<Key>, out: seq<Normalized>)
    requires WellKeyed(merged) && Lists(order, merged) && |out| == |Sorting.Sort(order, LeKey)|
    requires forall i :: 0 <= i < |out| ==>
      Sorting.Sort(order, LeKey)[i] in merged && out[i] == merged[Sorting.Sort(order, LeKey)[i]]
    ensures IsListing(out, merged)
  {
    hide LeKey, Sorting.Sort, Sorting.TotalOrder;
    var keys := Sorting.Sort(order, LeKey);
    LeKeyIsTotal();
    Sorting.SortSorts(order, LeKey);
    Sorting.SortKeepsDistinct(order, LeKey);
    forall nf ensures nf in out <==> nf.key in merged && merged[nf.key] == nf {
      if nf.key in merged && merged[nf.key] == nf {
        assert nf.key in keys;
        var i :| 0 <= i < |keys| && keys[i] == nf.key;
        assert out[i] == nf;
      }
    }
  }

  method Run(vulns: seq<RawVuln>, configs: seq<RawConfig>) returns (out: seq<Normalized>)
    ensures IsListing(out, MergeConfigs(MergeVulns(vulns), configs))
    ensures forall i, j :: 0 <= i < j < |out| ==>
      (out[i].key.VulnKey? ==> out[j].key.VulnKey?) &&
      (out[i].key.VulnKey? == out[j].key.VulnKey? ==> out[i].key.text < out[j].key.text)
  {
    hide MergeVulns, MergeConfigs, LeKey, IsListing, Sorting.Insert, Sorting.Sort;
    var merged, order := Merge(vulns, configs);
    VulnKeys(vulns);
    ConfigKeys(MergeVulns(vulns), configs);
    var keys := Sorting.Sort(order, LeKey);
    SortedKeys(order);
    assert forall i :: 0 <= i < |keys| ==> keys[i] in keys && keys[i] in merged;
    out := seq(|keys|, i requires 0 <= i < |keys| => merged[keys[i]]);
    SortedListing(merged, order, out);
    ListingAscends(out, MergeConfigs(MergeVulns(vulns), configs));
  }

  /** Configuration before vulnerabilities, each by ascending text. */
  lemma ListingAscends(out: seq<Normalized>, merged: Merged)
    requires IsListing(out, merged)
    ensures forall i, j :: 0 <= i < j < |out| ==>
      (out[i].key.VulnKey? ==> out[j].key.VulnKey?) &&
      (out[i].key.VulnKey? == out[j].key.VulnKey? ==> out[i].key.text < out[j].key.text)
  {
  }

  lemma SortedKeys(order: seq<Key>)
    requires Sorting.Distinct(order)
    ensures forall k :: k in Sorting.Sort(order, LeKey) <==> k in order
  {
    hide LeKey, Sorting.Sort, Sorting.TotalOrder;
    LeKeyIsTotal();
    Sorting.SortKeepsDistinct(order, LeKey);
  }

  // ---------------------------------------------------------------- what the merge means

  ghost predicate Reports(vulns: seq<RawVuln>, text: nat, s: Scanner) {
    exists rv :: rv in vulns && rv.text == text && rv.scanner == s
  }

  /** The keys are those of the records, and each finding sits under its own key. */
  lemma {:induction false} VulnKeys(vulns: seq<RawVuln>)
    ensures WellKeyed(MergeVulns(vulns))
    ensures forall k :: k in MergeVulns(vulns) <==> exists rv :: rv in vulns && k == VulnKey(rv.text)
  {
    if vulns != [] {
      var n := |vulns| - 1;
      VulnKeys(vulns[..n]);
      assert vulns == vulns[..n] + [vulns[n]];
    }
  }

  lemma {:induction false} ConfigKeys(merged: Merged, configs: seq<RawConfig>)
    requires WellKeyed(merged)
    ensures WellKeyed(MergeConfigs(merged, configs))
    ensures forall k :: k in MergeConfigs(merged, configs) <==>
      k in merged || exists rc :: rc in configs && k == ConfigKey(rc.text)
    ensures forall k :: k in merged && k.VulnKey? ==> MergeConfigs(merged, configs)[k] == merged[k]
  {
    if configs != [] {
      var n := |configs| - 1;
      ConfigKeys(merged, configs[..n]);
      assert configs == configs[..n] + [configs[n]];
    }
  }

  /** The finding's severity is the highest of its records, and it names exactly their scanners. */
  ghost predicate SumsUp(nf: Normalized, vulns: seq<RawVuln>, text: nat) {
    (forall s :: s in nf.reportedBy <==> Reports(vulns, text, s)) &&
    (forall rv :: rv in vulns && rv.text == text ==> Rank(rv.severity) <= Rank(nf.severity)) &&
    (exists rv :: rv in vulns && rv.text == text && rv.severity == nf.severity)
  }

  lemma SumsUpFirst(vulns: seq<RawVuln>, rv: RawVuln)
    requires forall x :: x in vulns ==> x.text != rv.text
    ensures SumsUp(WithVuln(FreshVuln(rv), rv), vulns + [rv], rv.text)
  {
    assert rv in vulns + [rv];
    assert forall x :: x in vulns + [rv] && x.text == rv.text ==> x == rv;
  }

  lemma SumsUpNext(nf: Normalized, vulns: seq<RawVuln>, rv: RawVuln, text: nat)
    requires SumsUp(nf, vulns, text)
    ensures SumsUp(if rv.text == text then WithVuln(nf, rv) else nf, vulns + [rv], text)
  {
    var more := vulns + [rv];
    assert forall x :: x in more <==> x in vulns || x == rv;
    assert rv in more;
    forall s ensures Reports(more, text, s) <==> Reports(vulns, text, s) || (rv.text == text && rv.scanner == s) {
    }
  }

  /** A vulnerability's severity is the highest of its records, and it names exactly the scanners that
      reported it. */
  lemma {:induction false} VulnMeaning(vulns: seq<RawVuln>, text: nat)
    requires VulnKey(text) in MergeVulns(vulns)
    ensures SumsUp(MergeVulns(vulns)[VulnKey(text)], vulns, text)
  {
    hide SumsUp, WithVuln, FreshVuln;
    var n := |vulns| - 1;
    var rv, before := vulns[n], MergeVulns(vulns[..n]);
    assert vulns == vulns[..n] + [rv];
    VulnKeys(vulns[..n]);
    if VulnKey(text) in before {
      VulnMeaning(vulns[..n], text);
      SumsUpNext(before[VulnKey(text)], vulns[..n], rv, text);
    } else {
      SumsUpFirst(vulns[..n], rv);
    }
  }

  /** The last record of a scanner under the key. */
  predicate IsLast(vulns: seq<RawVuln>, text: nat, i: nat) {
    i < |vulns| && vulns[i].text == text &&
    forall j :: i < j < |vulns| ==> !(vulns[j].text == text && vulns[j].scanner == vulns[i].scanner)
  }

  /** What the scanners said last, and the first title and package URL that any record gave. */
  ghost predicate Remembers(nf: Normalized, vulns: seq<RawVuln>, text: nat) {
    nf.severityBy.Keys == nf.reportedBy && nf.fixesBy.Keys == nf.reportedBy &&
    (forall i :: 0 <= i < |vulns| && IsLast(vulns, text, i) ==>
      vulns[i].scanner in nf.reportedBy && nf.severityBy[vulns[i].scanner] == vulns[i].severity &&
      nf.fixesBy[vulns[i].scanner] == vulns[i].fixes) &&
    (if nf.title.None? then forall i :: 0 <= i < |vulns| && vulns[i].text == text ==> vulns[i].title.None?
     else exists i :: FirstTitle(vulns, text, i) && vulns[i].title == nf.title) &&
    if nf.purl.None? then forall i :: 0 <= i < |vulns| && vulns[i].text == text ==> vulns[i].purl.None?
    else exists i :: FirstPurl(vulns, text, i) && vulns[i].purl == nf.purl
  }

  predicate FirstTitle(vulns: seq<RawVuln>, text: nat, i: int) {
    0 <= i < |vulns| && vulns[i].text == text && vulns[i].title.Some? &&
    forall j :: 0 <= j < i && vulns[j].text == text ==> vulns[j].title.None?
  }

  predicate FirstPurl(vulns: seq<RawVuln>, text: nat, i: int) {
    0 <= i < |vulns| && vulns[i].text == text && vulns[i].purl.Some? &&
    forall j :: 0 <= j < i && vulns[j].text == text ==> vulns[j].purl.None?
  }

  lemma LastAfter(vulns: seq<RawVuln>, rv: RawVuln, text: nat, i: nat)
    requires IsLast(vulns + [rv], text, i)
    ensures i == |vulns| || (IsLast(vulns, text, i) && !(rv.text == text && rv.scanner == vulns[i].scanner))
  {
    var more := vulns + [rv];
    if i < |vulns| {
      assert more[i] == vulns[i] && more[|vulns|] == rv;
      assert forall j :: 0 <= j < |vulns| ==> more[j] == vulns[j];
    }
  }

  lemma FirstsStay(vulns: seq<RawVuln>, rv: RawVuln, text: nat, i: int)
    ensures FirstTitle(vulns, text, i) ==> FirstTitle(vulns + [rv], text, i)
    ensures FirstPurl(vulns, text, i) ==> FirstPurl(vulns + [rv], text, i)
  {
  }

  lemma RemembersFirst(vulns: seq<RawVuln>, rv: RawVuln)
    requires forall x :: x in vulns ==> x.text != rv.text
    ensures Remembers(WithVuln(FreshVuln(rv), rv), vulns + [rv], rv.text)
  {
    var more := vulns + [rv];
    forall i | 0 <= i < |vulns| ensures more[i] == vulns[i] && more[i].text != rv.text {
      assert vulns[i] in vulns;
    }
    if rv.title.Some? {
      assert FirstTitle(more, rv.text, |vulns|);
    }
    if rv.purl.Some? {
      assert FirstPurl(more, rv.text, |vulns|);
    }
  }

  lemma RemembersNext(nf: Normalized, vulns: seq<RawVuln>, rv: RawVuln, text: nat)
    requires Remembers(nf, vulns, text)
    ensures Remembers(if rv.text == text then WithVuln(nf, rv) else nf, vulns + [rv], text)
  {
    var more := vulns + [rv];
    var after := if rv.text == text then WithVuln(nf, rv) else nf;
    forall i | 0 <= i < |more| && IsLast(more, text, i)
      ensures more[i].scanner in after.reportedBy && more[i].scanner in after.severityBy &&
        more[i].scanner in after.fixesBy && after.severityBy[more[i].scanner] == more[i].severity &&
        after.fixesBy[more[i].scanner] == more[i].fixes
    {
      LastAfter(vulns, rv, text, i);
    }
    forall i
      ensures FirstTitle(vulns, text, i) ==> FirstTitle(more, text, i)
      ensures FirstPurl(vulns, text, i) ==> FirstPurl(more, text, i)
    {
      FirstsStay(vulns, rv, text, i);
    }
    if rv.text == text {
      FirstHere(nf, vulns, rv, text);
    }
  }

  lemma FirstHere(nf: Normalized, vulns: seq<RawVuln>, rv: RawVuln, text: nat)
    requires Remembers(nf, vulns, text) && rv.text == text
    ensures nf.title.None? && rv.title.Some? ==> FirstTitle(vulns + [rv], text, |vulns|)
    ensures nf.purl.None? && rv.purl.Some? ==> FirstPurl(vulns + [rv], text, |vulns|)
  {
  }

  /** A vulnerability keeps, per scanner, the severity and the fix versions of that scanner's last record, and the first
      title and package URL given. */
  lemma {:induction false} VulnColumns(vulns: seq<RawVuln>, text: nat)
    requires VulnKey(text) in MergeVulns(vulns)
    ensures Remembers(MergeVulns(vulns)[VulnKey(text)], vulns, text)
  {
    hide Remembers, WithVuln, FreshVuln;
    var n := |vulns| - 1;
    var rv, before := vulns[n], MergeVulns(vulns[..n]);
    assert vulns == vulns[..n] + [rv];
    VulnKeys(vulns[..n]);
    if VulnKey(text) in before {
      VulnColumns(vulns[..n], text);
      RemembersNext(before[VulnKey(text)], vulns[..n], rv, text);
    } else {
      RemembersFirst(vulns[..n], rv);
    }
  }

  /** The finding names exactly the scanners of its records and has the severity and title of the first of them. */
  ghost predicate StartsWith(nf: Normalized, configs: seq<RawConfig>, text: nat) {
    (forall s :: s in nf.reportedBy <==> exists rc :: rc in configs && rc.text == text && rc.scanner == s) &&
    nf.severityBy.Keys == nf.reportedBy &&
    exists i :: 0 <= i < |configs| && IsFirst(configs, text, i) && configs[i].severity == nf.severity &&
      configs[i].title == nf.title
  }

  predicate IsLastConfig(configs: seq<RawConfig>, text: nat, i: nat) {
    i < |configs| && configs[i].text == text &&
    forall j :: i < j < |configs| ==> !(configs[j].text == text && configs[j].scanner == configs[i].scanner)
  }

  lemma LastConfigAfter(configs: seq<RawConfig>, rc: RawConfig, text: nat, i: nat)
    requires IsLastConfig(configs + [rc], text, i)
    ensures i == |configs| || (IsLastConfig(configs, text, i) && !(rc.text == text && rc.scanner == configs[i].scanner))
  {
    var more := configs + [rc];
    if i < |configs| {
      assert more[i] == configs[i] && more[|configs|] == rc;
      assert forall j :: 0 <= j < |configs| ==> more[j] == configs[j];
    }
  }

  predicate IsFirst(configs: seq<RawConfig>, text: nat, i: nat) {
    i < |configs| && configs[i].text == text && forall j :: 0 <= j < i ==> configs[j].text != text
  }

  lemma StartsWithFirst(configs: seq<RawConfig>, rc: RawConfig)
    requires forall x :: x in configs ==> x.text != rc.text
    ensures StartsWith(WithConfig(FreshConfig(rc), rc), configs + [rc], rc.text)
  {
    var more := configs + [rc];
    assert rc in more && IsFirst(more, rc.text, |configs|);
    assert forall x :: x in more && x.text == rc.text ==> x == rc;
  }

  lemma StartsWithNext(nf: Normalized, configs: seq<RawConfig>, rc: RawConfig, text: nat)
    requires StartsWith(nf, configs, text)
    ensures StartsWith(if rc.text == text then WithConfig(nf, rc) else nf, configs + [rc], text)
  {
    var more := configs + [rc];
    var i :| 0 <= i < |configs| && IsFirst(configs, text, i) && configs[i].severity == nf.severity &&
      configs[i].title == nf.title;
    assert IsFirst(more, text, i) && more[i] == configs[i];
    assert rc in more && forall x :: x in more <==> x in configs || x == rc;
  }

  /** What each scanner said last. */
  ghost predicate KeepsLast(nf: Normalized, configs: seq<RawConfig>, text: nat) {
    forall i :: 0 <= i < |configs| && IsLastConfig(configs, text, i) ==>
      configs[i].scanner in nf.severityBy && nf.severityBy[configs[i].scanner] == configs[i].severity
  }

  lemma KeepsLastNext(nf: Normalized, configs: seq<RawConfig>, rc: RawConfig, text: nat)
    requires KeepsLast(nf, configs, text)
    ensures KeepsLast(if rc.text == text then WithConfig(nf, rc) else nf, configs + [rc], text)
  {
    var more := configs + [rc];
    var after := if rc.text == text then WithConfig(nf, rc) else nf;
    forall i | 0 <= i < |more| && IsLastConfig(more, text, i)
      ensures more[i].scanner in after.severityBy && after.severityBy[more[i].scanner] == more[i].severity
    {
      LastConfigAfter(configs, rc, text, i);
    }
  }

  lemma NothingToKeep(nf: Normalized, configs: seq<RawConfig>, text: nat)
    requires forall x :: x in configs ==> x.text != text
    ensures KeepsLast(nf, configs, text)
  {
    assert forall i :: 0 <= i < |configs| ==> configs[i] in configs;
  }

  /** A configuration finding keeps the severity and title of the first record of its key, and per scanner the
      severity of the last. */
  lemma {:induction false} ConfigMeaning(merged: Merged, configs: seq<RawConfig>, text: nat)
    requires WellKeyed(merged) && ConfigKey(text) !in merged && ConfigKey(text) in MergeConfigs(merged, configs)
    ensures StartsWith(MergeConfigs(merged, configs)[ConfigKey(text)], configs, text)
    ensures KeepsLast(MergeConfigs(merged, configs)[ConfigKey(text)], configs, text)
  {
    hide StartsWith, KeepsLast, WithConfig, FreshConfig;
    var n := |configs| - 1;
    var rc, before := configs[n], MergeConfigs(merged, configs[..n]);
    assert configs == configs[..n] + [rc];
    ConfigKeys(merged, configs[..n]);
    if ConfigKey(text) in before {
      ConfigMeaning(merged, configs[..n], text);
      StartsWithNext(before[ConfigKey(text)], configs[..n], rc, text);
      KeepsLastNext(before[ConfigKey(text)], configs[..n], rc, text);
    } else {
      StartsWithFirst(configs[..n], rc);
      NothingToKeep(FreshConfig(rc), configs[..n], rc.text);
      KeepsLastNext(FreshConfig(rc), configs[..n], rc, text);
    }
  }

  // ---------------------------------------------------------------- order does not matter

  /** A merge has one listing only. */
  lemma ListingIsUnique(out: seq<Normalized>, other: seq<Normalized>, merged: Merged)
    requires WellKeyed(merged) && IsListing(out, merged) && IsListing(other, merged)
    ensures out == other
  {
    SameKeysSameOrder(out, merged, other, merged);
    forall i | 0 <= i < |out| ensures out[i] == other[i] {
      assert out[i] in out && other[i] in other;
    }
  }

  lemma SameKeysSameOrder(out: seq<Normalized>, merged: Merged, other: seq<Normalized>, alike: Merged)
    requires IsListing(out, merged) && IsListing(other, alike)
    requires WellKeyed(merged) && WellKeyed(alike) && merged.Keys == alike.Keys
    ensures |out| == |other| && forall i :: 0 <= i < |out| ==> out[i].key == other[i].key
  {
    hide LeKey, IsListing, Sorting.TotalOrder, Sorting.Ascending, Sorting.Distinct, Sorting.Sort;
    var s, t := KeysOf(out), KeysOf(other);
    KeysOfListing(out, merged);
    KeysOfListing(other, alike);
    LeKeyIsTotal();
    forall x ensures x in s <==> x in t {
      assert x in merged <==> x in alike;
    }
    Sorting.AscendingIsUnique(s, t, LeKey);
    assert forall i :: 0 <= i < |out| ==> out[i].key == s[i] && other[i].key == t[i];
  }

  function KeysOf(out: seq<Normalized>): seq<Key> {
    seq(|out|, i requires 0 <= i < |out| => out[i].key)
  }

  lemma KeysOfListing(out: seq<Normalized>, merged: Merged)
    requires IsListing(out, merged) && WellKeyed(merged)
    ensures Sorting.Ascending(KeysOf(out), LeKey) && Sorting.Distinct(KeysOf(out))
    ensures forall k :: k in KeysOf(out) <==> k in merged
  {
    forall k ensures k in KeysOf(out) <==> k in merged {
      if k in merged {
        assert merged[k] in out;
        var i :| 0 <= i < |out| && out[i] == merged[k];
        assert KeysOf(out)[i] == k;
      }
      if k in KeysOf(out) {
        var i :| 0 <= i < |out| && KeysOf(out)[i] == k;
        assert out[i] in out;
      }
    }
  }

  lemma RankIsInjective(s: Severity, t: Severity)
    requires Rank(s) == Rank(t)
    ensures s == t
  {
  }

  /** A finding depends on which records there are, not on their order. */
  lemma SameRecordsSameFinding(vulns: seq<RawVuln>, permuted: seq<RawVuln>, text: nat)
    requires forall rv :: rv in vulns <==> rv in permuted
    requires VulnKey(text) in MergeVulns(vulns) && VulnKey(text) in MergeVulns(permuted)
    ensures var v, p := MergeVulns(vulns)[VulnKey(text)], MergeVulns(permuted)[VulnKey(text)];
      v.severity == p.severity && v.reportedBy == p.reportedBy
  {
    var v, p := MergeVulns(vulns)[VulnKey(text)], MergeVulns(permuted)[VulnKey(text)];
    VulnMeaning(vulns, text);
    VulnMeaning(permuted, text);
    assert Rank(v.severity) <= Rank(p.severity) <= Rank(v.severity);
    RankIsInjective(v.severity, p.severity);
    forall s ensures s in v.reportedBy <==> s in p.reportedBy {
      assert Reports(vulns, text, s) <==> Reports(permuted, text, s);
    }
  }

  /** A listed vulnerability is the one the first loop merged; the second loop leaves it alone. */
  lemma ListedVuln(vulns: seq<RawVuln>, configs: seq<RawConfig>, nf: Normalized)
    requires var merged := MergeConfigs(MergeVulns(vulns), configs); nf.key in merged && merged[nf.key] == nf
    requires nf.key.VulnKey?
    ensures nf.key in MergeVulns(vulns) && MergeVulns(vulns)[nf.key] == nf
  {
    VulnKeys(vulns);
    ConfigKeys(MergeVulns(vulns), configs);
  }

  lemma SameRecordsSameKeys(vulns: seq<RawVuln>, permuted: seq<RawVuln>, configs: seq<RawConfig>)
    requires forall rv :: rv in vulns <==> rv in permuted
    ensures var m, q := MergeConfigs(MergeVulns(vulns), configs), MergeConfigs(MergeVulns(permuted), configs);
      WellKeyed(m) && WellKeyed(q) && m.Keys == q.Keys
  {
    VulnKeys(vulns);
    VulnKeys(permuted);
    ConfigKeys(MergeVulns(vulns), configs);
    ConfigKeys(MergeVulns(permuted), configs);
    forall k ensures k in MergeVulns(vulns) <==> k in MergeVulns(permuted) {
    }
  }

  /** Permuting the vulnerability records changes neither which findings are listed nor their order,
      severities or reporters. */
  lemma PermutationChangesNothing(vulns: seq<RawVuln>, permuted: seq<RawVuln>, configs: seq<RawConfig>,
                                  out: seq<Normalized>, other: seq<Normalized>)
    requires multiset(vulns) == multiset(permuted)
    requires IsListing(out, MergeConfigs(MergeVulns(vulns), configs)) &&
      IsListing(other, MergeConfigs(MergeVulns(permuted), configs))
    ensures |out| == |other|
    ensures forall i :: 0 <= i < |out| ==> out[i].key == other[i].key
    ensures forall i :: 0 <= i < |out| && out[i].key.VulnKey? ==>
      out[i].severity == other[i].severity && out[i].reportedBy == other[i].reportedBy
  {
    forall rv ensures rv in vulns <==> rv in permuted {
      assert rv in multiset(vulns) <==> rv in multiset(permuted);
    }
    SameRecordsSameKeys(vulns, permuted, configs);
    SameKeysSameOrder(out, MergeConfigs(MergeVulns(vulns), configs), other,
      MergeConfigs(MergeVulns(permuted), configs));
    forall i | 0 <= i < |out| && out[i].key.VulnKey?
      ensures out[i].severity == other[i].severity && out[i].reportedBy == other[i].reportedBy
    {
      assert out[i] in out && other[i] in other;
      ListedVuln(vulns, configs, out[i]);
      ListedVuln(permuted, configs, other[i]);
      SameRecordsSameFinding(vulns, permuted, out[i].key.text);
    }
  }
}
