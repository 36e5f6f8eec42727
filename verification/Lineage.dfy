/** Work items that regressed from one another: the descendants of an item, and the findings shown
    under it. */
module Lineage {
  import opened Domain
  import Sorting

  /** What lineage reads of a work item row; `origin` is the item it regressed from. */
  datatype Link = Link(id: nat, origin: Option<nat>)

  datatype Owned = Owned(finding: nat, owner: Option<nat>)

  /** Identifiers are the table's primary key. */
  ghost predicate UniqueIds(items: seq<Link>) {
    forall i, j :: 0 <= i < j < |items| ==> items[i].id != items[j].id
  }

  /** A regression item is created after the item it points back at. */
  ghost predicate PointsBack(items: seq<Link>) {
    forall i :: 0 <= i < |items| && items[i].origin.Some? ==> items[i].origin.value < items[i].id
  }

  /** Each item's origin; a later row of the same item would replace an earlier one. */
  function Origins(items: seq<Link>): map<nat, nat> {
    if items == [] then map[]
    else
      var w, before := items[|items| - 1], Origins(items[..|items| - 1]);
      if w.origin.Some? then before[w.id := w.origin.value] else before
  }

  /** The item `n` steps up from `x`; the map need not be free of cycles. */
  ghost function Up(origin: map<nat, nat>, x: nat, n: nat): Option<nat> {
    if n == 0 then Some(x)
    else
      match Up(origin, x, n - 1)
      case None => None
      case Some(y) => if y in origin then Some(origin[y]) else None
  }

  ghost predicate Reaches(origin: map<nat, nat>, x: nat, y: nat) {
    exists n: nat :: Up(origin, x, n) == Some(y)
  }

  /** `x` regressed, directly or through other items, from `root`. */
  ghost predicate Descends(origin: map<nat, nat>, x: nat, root: nat) {
    exists n: nat :: n > 0 && Up(origin, x, n) == Some(root)
  }

  lemma {:induction false} UpFromOrigin(origin: map<nat, nat>, x: nat, n: nat)
    ensures Up(origin, x, n + 1) == if x in origin then Up(origin, origin[x], n) else None
  {
    if n == 0 {
      assert Up(origin, x, 0) == Some(x);
    } else {
      UpFromOrigin(origin, x, n - 1);
    }
  }

  lemma {:induction false} OriginsOfUnique(items: seq<Link>)
    requires UniqueIds(items)
    ensures forall id, parent :: (id in Origins(items) && Origins(items)[id] == parent) <==>
      Link(id, Some(parent)) in items
  {
    if items != [] {
      var n := |items| - 1;
      OriginsOfUnique(items[..n]);
      assert items == items[..n] + [items[n]];
      assert forall i :: 0 <= i < n ==> items[..n][i].id != items[n].id;
    }
  }

  lemma OriginsPointBack(items: seq<Link>)
    requires UniqueIds(items) && PointsBack(items)
    ensures forall id :: id in Origins(items) ==> Origins(items)[id] < id
  {
    OriginsOfUnique(items);
    forall id | id in Origins(items) ensures Origins(items)[id] < id {
      assert Link(id, Some(Origins(items)[id])) in items;
    }
  }

  lemma {:induction false} UpIsOlder(origin: map<nat, nat>, x: nat, n: nat)
    requires forall id :: id in origin ==> origin[id] < id
    ensures n > 0 && Up(origin, x, n).Some? ==> Up(origin, x, n).value < x
  {
    if n > 0 {
      UpIsOlder(origin, x, n - 1);
    }
  }

  // ---------------------------------------------------------------- descendants, breadth first

  ghost predicate IsChildMap(items: seq<Link>, children: map<nat, seq<nat>>) {
    (forall p :: p in children ==> Sorting.Distinct(children[p])) &&
    (forall p, c :: (p in children && c in children[p]) <==> Link(c, Some(p)) in items)
  }

  method ChildMap(items: seq<Link>) returns (children: map<nat, seq<nat>>)
    requires UniqueIds(items)
    ensures IsChildMap(items, children)
  {
    children := map[];
    var i := 0;
    while i < |items|
      invariant 0 <= i <= |items| && IsChildMap(items[..i], children)
    {
      var w := items[i];
      assert items[..i + 1] == items[..i] + [w];
      if w.origin.Some? {
        var p := w.origin.value;
        var known := if p in children then children[p] else [];
        assert forall j :: 0 <= j < i ==> items[..i][j].id != w.id;
        assert Link(w.id, Some(p)) !in items[..i];
        children := children[p := known + [w.id]];
      }
      i := i + 1;
    }
    assert items[..i] == items;
  }

  /** Everything found so far descends from the root; nothing is found twice; and found are exactly the
      children of the root and of what was taken from the queue. */
  ghost predicate Explored(origin: map<nat, nat>, root: nat, out: seq<nat>, queue: seq<nat>) {
    Sorting.Distinct(out + queue) &&
    (forall x :: x in out + queue ==> Descends(origin, x, root)) &&
    (forall x :: x in out + queue <==> x in origin && (origin[x] == root || origin[x] in out))
  }

  lemma ExploreStart(origin: map<nat, nat>, root: nat, kids: seq<nat>)
    requires Sorting.Distinct(kids) && forall c :: c in kids <==> c in origin && origin[c] == root
    ensures Explored(origin, root, [], kids)
  {
    assert [] + kids == kids;
    forall x | x in kids ensures Descends(origin, x, root) {
      assert Up(origin, x, 0) == Some(x) && Up(origin, x, 1) == Some(root);
    }
  }

  lemma NextIsNew(origin: map<nat, nat>, root: nat, out: seq<nat>, queue: seq<nat>)
    requires Explored(origin, root, out, queue) && queue != []
    ensures queue[0] !in out && queue[0] in origin
  {
    var found := out + queue;
    assert found[|out|] == queue[0];
    assert forall k :: 0 <= k < |out| ==> found[k] == out[k] && found[k] != found[|out|];
  }

  lemma ExploreNext(origin: map<nat, nat>, root: nat, out: seq<nat>, queue: seq<nat>, kids: seq<nat>)
    requires forall id :: id in origin ==> origin[id] < id
    requires Explored(origin, root, out, queue) && queue != []
    requires Sorting.Distinct(kids) && forall c :: c in kids <==> c in origin && origin[c] == queue[0]
    ensures Explored(origin, root, out + [queue[0]], queue[1..] + kids)
  {
    var y := queue[0];
    var found := out + queue;
    assert out + [y] + (queue[1..] + kids) == found + kids;
    assert found[|out|] == y;
    NextIsNew(origin, root, out, queue);
    var n: nat :| n > 0 && Up(origin, y, n) == Some(root);
    UpIsOlder(origin, y, n);
    forall c | c in kids ensures c !in found && Descends(origin, c, root) {
      UpFromOrigin(origin, c, n);
    }
    Sorting.DistinctConcat(found, kids);
  }

  /** When the queue runs empty every descendant has been taken. */
  lemma {:induction false} AllTaken(origin: map<nat, nat>, root: nat, out: seq<nat>, x: nat, n: nat)
    requires Explored(origin, root, out, []) && n > 0 && Up(origin, x, n) == Some(root)
    ensures x in out
    decreases n
  {
    assert out + [] == out;
    UpFromOrigin(origin, x, n - 1);
    if n > 1 {
      AllTaken(origin, root, out, origin[x], n - 1);
    }
  }

  predicate Le(a: nat, b: nat) {
    a <= b
  }

  /** What was taken, sorted, is the answer once the queue is empty. */
  lemma TakenIsListed(origin: map<nat, nat>, root: nat, out: seq<nat>, ids: seq<nat>)
    requires Explored(origin, root, out, []) && ids == Sorting.Sort(out, Le)
    ensures forall i, j :: 0 <= i < j < |ids| ==> ids[i] < ids[j]
    ensures forall x :: x in ids <==> Descends(origin, x, root)
  {
    hide Sorting.Sort;
    assert out + [] == out;
    Sorting.SortKeepsDistinct(out, Le);
    Sorting.SortSorts(out, Le);
    forall x ensures x in ids <==> Descends(origin, x, root) {
      if n: nat :| n > 0 && Up(origin, x, n) == Some(root) {
        AllTaken(origin, root, out, x, n);
      }
    }
    forall i, j | 0 <= i < j < |ids| ensures ids[i] < ids[j] {
      assert Le(ids[i], ids[j]) && ids[i] != ids[j];
    }
  }

  /** The unguarded queue terminates and lists every transitive descendant exactly once, oldest first. */
  method RegressionDescendants(items: seq<Link>, root: nat) returns (ids: seq<nat>)
    requires UniqueIds(items) && PointsBack(items)
    ensures forall i, j :: 0 <= i < j < |ids| ==> ids[i] < ids[j]
    ensures forall x :: x in ids <==> Descends(Origins(items), x, root)
  {
    hide Explored, Sorting.Sort, Origins;
    ghost var origin := Origins(items);
    OriginsOfUnique(items);
    OriginsPointBack(items);
    var children := ChildMap(items);
    var out: seq<nat> := [];
    var queue := if root in children then children[root] else [];
    assert forall c :: c in queue <==> Link(c, Some(root)) in items;
    ExploreStart(origin, root, queue);
    while queue != []
      invariant Explored(origin, root, out, queue)
      decreases origin.Keys - set x | x in out
    {
      var y := queue[0];
      var kids := if y in children then children[y] else [];
      assert forall c :: c in kids <==> Link(c, Some(y)) in items;
      NextIsNew(origin, root, out, queue);
      ExploreNext(origin, root, out, queue, kids);
      ghost var taken := set x | x in out;
      queue := queue[1..] + kids;
      out := out + [y];
      assert (set x | x in out) == taken + {y};
      assert y in origin.Keys - taken;
    }
    assert queue == [];
    ids := Sorting.Sort(out, Le);
    TakenIsListed(origin, root, out, ids);
  }

  // ---------------------------------------------------------------- members, walking up

  /** The findings whose owner reaches the item, in the order they were read. */
  ghost function Covered(origin: map<nat, nat>, findings: seq<Owned>, item: nat): seq<Owned> {
    if findings == [] then []
    else
      var last := findings[|findings| - 1];
      Covered(origin, findings[..|findings| - 1], item) + Once(origin, last, item)
  }

  ghost function Once(origin: map<nat, nat>, f: Owned, item: nat): seq<Owned> {
    if f.owner.Some? && Reaches(origin, f.owner.value, item) then [f] else []
  }

  lemma {:induction false} CoveredMembers(origin: map<nat, nat>, findings: seq<Owned>, item: nat, f: Owned)
    ensures f in Covered(origin, findings, item) <==>
      f in findings && f.owner.Some? && Reaches(origin, f.owner.value, item)
  {
    if findings != [] {
      CoveredMembers(origin, findings[..|findings| - 1], item, f);
      assert findings == findings[..|findings| - 1] + [findings[|findings| - 1]];
    }
  }

  /** A set closed under one step up holds everything the walk can reach. */
  lemma {:induction false} ClosedHolds(origin: map<nat, nat>, x: nat, seen: set<nat>, n: nat)
    requires x in seen && forall y :: y in seen && y in origin ==> origin[y] in seen
    ensures Up(origin, x, n).Some? ==> Up(origin, x, n).value in seen
  {
    if n > 0 {
      ClosedHolds(origin, x, seen, n - 1);
    }
  }

  function At(out: map<nat, seq<Owned>>, item: nat): seq<Owned> {
    if item in out then out[item] else []
  }

  /** A walk that started at the owner and has come to `at`: it passed exactly `seen`. */
  ghost predicate Walked(origin: map<nat, nat>, owner: Option<nat>, n: nat, at: Option<nat>, seen: set<nat>) {
    match owner
    case None => at == None && seen == {}
    case Some(x) =>
      at == Up(origin, x, n) && (x in seen || at == owner) &&
      (at.Some? ==> at.value in origin.Values + {x}) &&
      (forall y :: y in seen ==> Reaches(origin, x, y)) &&
      forall y :: y in seen && y in origin ==> origin[y] in seen || at == Some(origin[y])
  }

  lemma WalkOn(origin: map<nat, nat>, owner: Option<nat>, n: nat, at: Option<nat>, seen: set<nat>)
    requires Walked(origin, owner, n, at, seen) && at.Some?
    ensures owner.Some? && at.value in origin.Values + {owner.value}
    ensures Walked(origin, owner, n + 1, if at.value in origin then Some(origin[at.value]) else None, seen + {at.value})
  {
    assert Up(origin, owner.value, n) == at;
  }

  lemma WalkEnds(origin: map<nat, nat>, owner: Option<nat>, n: nat, at: Option<nat>, seen: set<nat>)
    requires Walked(origin, owner, n, at, seen) && (at.None? || at.value in seen)
    ensures forall item :: item in seen <==> owner.Some? && Reaches(origin, owner.value, item)
  {
    if owner.Some? {
      forall item ensures item in seen <==> Reaches(origin, owner.value, item) {
        if m: nat :| Up(origin, owner.value, m) == Some(item) {
          ClosedHolds(origin, owner.value, seen, m);
        }
      }
    }
  }

  /** Files one finding under its owner and everything up from it, each once, whatever the map: `seen`
      stops the walk if the map has a cycle. */
  method FileUpwards(origin: map<nat, nat>, f: Owned, before: map<nat, seq<Owned>>) returns (out: map<nat, seq<Owned>>)
    ensures forall item :: At(out, item) == At(before, item) + Once(origin, f, item)
  {
    hide Walked, Reaches;
    out := before;
    var at := f.owner;
    var seen: set<nat> := {};
    ghost var n: nat := 0;
    ghost var all := origin.Values + if f.owner.Some? then {f.owner.value} else {};
    WalkStarts(origin, f.owner);
    while at.Some? && at.value !in seen
      invariant Walked(origin, f.owner, n, at, seen)
      invariant forall item :: At(out, item) == At(before, item) + (if item in seen then [f] else [])
      decreases all - seen
    {
      var y := at.value;
      WalkOn(origin, f.owner, n, at, seen);
      out := out[y := At(out, y) + [f]];
      seen := seen + {y};
      at := if y in origin then Some(origin[y]) else None;
      n := n + 1;
    }
    WalkEnds(origin, f.owner, n, at, seen);
  }

  lemma WalkStarts(origin: map<nat, nat>, owner: Option<nat>)
    ensures Walked(origin, owner, 0, owner, {})
  {
  }

  method OriginMap(items: seq<Link>) returns (origin: map<nat, nat>)
    ensures origin == Origins(items)
  {
    origin := map[];
    var i := 0;
    while i < |items|
      invariant 0 <= i <= |items| && origin == Origins(items[..i])
    {
      assert items[..i + 1][..i] == items[..i];
      if items[i].origin.Some? {
        origin := origin[items[i].id := items[i].origin.value];
      }
      i := i + 1;
    }
    assert items[..i] == items;
  }

  /** Every item with the findings of its owner chain, each finding once per item. */
  method MembersWithLineage(items: seq<Link>, findings: seq<Owned>) returns (out: map<nat, seq<Owned>>)
    ensures forall item :: At(out, item) == Covered(Origins(items), findings, item)
  {
    hide Once, Origins;
    var parent := OriginMap(items);
    out := map[];
    var i := 0;
    while i < |findings|
      invariant 0 <= i <= |findings|
      invariant forall item :: At(out, item) == Covered(parent, findings[..i], item)
    {
      assert findings[..i + 1][..i] == findings[..i];
      out := FileUpwards(parent, findings[i], out);
      i := i + 1;
    }
    assert findings[..i] == findings;
  }

  // ---------------------------------------------------------------- the two readings agree

  /** The parent walk and the breadth-first search agree: a finding is listed under an item exactly
      when its owner is that item or one of the ids the search lists for it. */
  lemma ListedUnderOwnerAndAncestors(items: seq<Link>, findings: seq<Owned>, item: nat, f: Owned, ids: seq<nat>)
    requires f in findings
    requires forall x :: x in ids <==> Descends(Origins(items), x, item)
    ensures f in Covered(Origins(items), findings, item) <==>
      f.owner.Some? && (f.owner.value == item || f.owner.value in ids)
  {
    CoveredMembers(Origins(items), findings, item, f);
    if f.owner.Some? {
      assert Up(Origins(items), f.owner.value, 0) == Some(f.owner.value);
      if Reaches(Origins(items), f.owner.value, item) && f.owner.value != item {
        var n: nat :| Up(Origins(items), f.owner.value, n) == Some(item);
        assert n > 0;
      }
    }
  }
}
