/** Opening the work item of a group: join the open one, or start a linked regression under a free key. */
module Regression {
  import opened Domain
  import Lineage

  /** A work item row; its id is its position. Every item targets the remediation branch. */
  datatype Row = Row(kind: nat, key: string, state: WorkItemState, origin: Option<nat>)

  // ---------------------------------------------------------------- numbering keys

  const DIGITS := "0123456789"

  function Decimal(n: nat): (s: string)
    ensures |s| > 0 && (|s| == 1 <==> n < 10)
  {
    if n < 10 then [DIGITS[n]] else Decimal(n / 10) + [DIGITS[n % 10]]
  }

  lemma DigitsDiffer(i: nat, j: nat)
    requires i < 10 && j < 10 && DIGITS[i] == DIGITS[j]
    ensures i == j
  {
  }

  lemma {:induction false} DecimalIsInjective(m: nat, n: nat)
    requires Decimal(m) == Decimal(n)
    ensures m == n
  {
    if m < 10 {
      DigitsDiffer(m, n);
    } else {
      var s, t := Decimal(m), Decimal(n);
      assert s[..|s| - 1] == Decimal(m / 10) && t[..|t| - 1] == Decimal(n / 10);
      DigitsDiffer(m % 10, n % 10);
      DecimalIsInjective(m / 10, n / 10);
    }
  }

  function Numbered(key: string, n: nat): string {
    key + "#r" + Decimal(n)
  }

  lemma NumberedIsInjective(key: string, m: nat, n: nat)
    requires Numbered(key, m) == Numbered(key, n)
    ensures m == n
  {
    assert Numbered(key, m)[|key + "#r"|..] == Decimal(m) && Numbered(key, n)[|key + "#r"|..] == Decimal(n);
    DecimalIsInjective(m, n);
  }

  /** The search for a free number terminates, with the least number no work item uses. */
  method FreeNumber(keys: set<string>, key: string) returns (n: nat)
    ensures n >= 1 && Numbered(key, n) !in keys
    ensures forall m :: 1 <= m < n ==> Numbered(key, m) in keys
  {
    n := 1;
    ghost var tried: set<string> := {};
    while Numbered(key, n) in keys
      invariant n >= 1 && forall m :: 1 <= m < n ==> Numbered(key, m) in keys
      invariant forall s :: s in tried <==> exists m :: 1 <= m < n && s == Numbered(key, m)
      decreases keys - tried
    {
      ghost var s := Numbered(key, n);
      if s in tried {
        var m :| 1 <= m < n && s == Numbered(key, m);
        NumberedIsInjective(key, m, n);
        assert false;
      }
      tried := tried + {s};
      n := n + 1;
    }
  }

  // ---------------------------------------------------------------- the table

  predicate IsGroup(row: Row, kind: nat, key: string) {
    row.kind == kind && row.key == key
  }

  /** One row per kind and key, and every regression points at an earlier row. */
  ghost predicate WellLinked(rows: seq<Row>) {
    (forall i, j :: 0 <= i < j < |rows| ==> !IsGroup(rows[j], rows[i].kind, rows[i].key)) &&
    (forall i :: 0 <= i < |rows| && rows[i].origin.Some? ==> rows[i].origin.value < i)
  }

  function Links(rows: seq<Row>): seq<Lineage.Link> {
    seq(|rows|, i requires 0 <= i < |rows| => Lineage.Link(i, rows[i].origin))
  }

  /** The table meets what the lineage search needs to terminate. */
  lemma LinksPointBack(rows: seq<Row>)
    requires WellLinked(rows)
    ensures Lineage.UniqueIds(Links(rows)) && Lineage.PointsBack(Links(rows))
  {
  }

  class Registry {
    var rows: seq<Row>

    ghost predicate Valid()
      reads this
    {
      WellLinked(rows)
    }

    constructor ()
      ensures Valid() && rows == []
    {
      rows := [];
    }

    method Find(kind: nat, key: string) returns (id: Option<nat>)
      ensures id.Some? ==> id.value < |rows| && IsGroup(rows[id.value], kind, key)
      ensures id.None? ==> forall i :: 0 <= i < |rows| ==> !IsGroup(rows[i], kind, key)
    {
      var i := 0;
      while i < |rows|
        invariant 0 <= i <= |rows| && forall j :: 0 <= j < i ==> !IsGroup(rows[j], kind, key)
      {
        if IsGroup(rows[i], kind, key) {
          return Some(i);
        }
        i := i + 1;
      }
      return None;
    }

    /** Only the group's own item decides: while it is open new members join it; once it is verified or
        abandoned every call opens another regression of it, under the least unused number. */
    method WorkItemForGroup(kind: nat, key: string) returns (id: nat, created: bool)
      requires Valid()
      modifies this
      ensures Valid() && id < |rows|
      ensures !created ==> rows == old(rows) && IsGroup(rows[id], kind, key) && rows[id].state !in {Verified, Abandoned}
      ensures created ==> id == |old(rows)| && old(rows) <= rows && |rows| == id + 1
      ensures created ==> rows[id].kind == kind && rows[id].state == Queued
      ensures created && rows[id].origin.None? ==>
        rows[id].key == key && forall i :: 0 <= i < id ==> !IsGroup(rows[i], kind, key)
      ensures created && rows[id].origin.Some? ==>
        var first := rows[id].origin.value;
        first < id && IsGroup(rows[first], kind, key) && rows[first].state in {Verified, Abandoned} &&
        exists n: nat :: n >= 1 && rows[id].key == Numbered(key, n) &&
          (forall i :: 0 <= i < id ==> rows[i].key != Numbered(key, n)) &&
          forall m: nat :: 1 <= m < n ==> exists i :: 0 <= i < id && rows[i].key == Numbered(key, m)
    {
      var existing := Find(kind, key);
      var origin, named := None, key;
      if existing.Some? {
        if rows[existing.value].state !in {Verified, Abandoned} {
          return existing.value, false;
        }
        var keys := set row | row in rows :: row.key;
        assert forall i :: 0 <= i < |rows| ==> rows[i] in rows && rows[i].key in keys;
        var n := FreeNumber(keys, key);
        origin, named := existing, Numbered(key, n);
      }
      rows := rows + [Row(kind, named, Queued, origin)];
      return |rows| - 1, true;
    }
  }
}
