/** The two list queries and the count query, and the two ways the dashboard's list is built. */
module Listings {
  import opened Models
  import opened Stores

  function Rank(s: Severity): nat { match s case P0 => 0 case P1 => 1 case P2 => 2 }

  /** ORDER BY severity rank, created_at DESC: what the order looks at. */
  datatype Key = Key(rank: nat, createdAt: Time)

  function KeyOf(w: WorkItem): Key { Key(Rank(w.severity), w.createdAt) }

  predicate Leq(a: Key, b: Key) { a.rank < b.rank || (a.rank == b.rank && a.createdAt >= b.createdAt) }

  function Keys(q: seq<WorkItem>): seq<Key> {
    if q == [] then [] else [KeyOf(q[0])] + Keys(q[1..])
  }

  predicate Sorted(q: seq<WorkItem>) { forall i, j :: 0 <= i < j < |q| ==> Leq(KeyOf(q[i]), KeyOf(q[j])) }

  /** Which rows a query selects. */
  datatype Selection = Everything | Active | InState(state: WorkItemState)

  predicate Selected(sel: Selection, w: WorkItem) {
    match sel
    case Everything => true
    case Active => IsActive(w)
    case InState(s) => w.state == s
  }

  function Rows(items: Items, sel: Selection): set<WorkItem> {
    set id | id in items && Selected(sel, items[id]) :: items[id]
  }

  /** What a query may return: the selected rows, each once, in order; ties in any order. */
  ghost predicate IsListing(items: Items, sel: Selection, q: seq<WorkItem>) {
    multiset(q) == multiset(Rows(items, sel)) && Sorted(q)
  }

  /** The order of a listing: P0 before P1 before P2, and the newest first among equals. */
  lemma ListingOrder(items: Items, sel: Selection, q: seq<WorkItem>, i: nat, j: nat)
    requires IsListing(items, sel, q) && i < j < |q|
    ensures q[j].severity == P0 ==> q[i].severity == P0
    ensures q[i].severity == P2 ==> q[j].severity == P2
    ensures q[i].severity == q[j].severity ==> q[i].createdAt >= q[j].createdAt
  {
    assert Leq(KeyOf(q[i]), KeyOf(q[j]));
  }

  // --- Any two answers to one query -----------------------------------------------------------------

  lemma {:induction false} KeysAt(q: seq<WorkItem>, i: nat)
    requires i < |q|
    ensures |Keys(q)| == |q| && Keys(q)[i] == KeyOf(q[i])
  {
    if i > 0 { KeysAt(q[1..], i - 1); } else if |q| > 1 { KeysAt(q[1..], 0); }
  }

  /** The sort keys of a list, however it is ordered. */
  function KeyBag(q: seq<WorkItem>): multiset<Key> {
    if q == [] then multiset{} else KeyBag(q[1..]) + multiset{KeyOf(q[0])}
  }

  lemma {:induction false} BagOfKeys(q: seq<WorkItem>)
    ensures KeyBag(q) == multiset(Keys(q))
  {
    if q != [] { BagOfKeys(q[1..]); }
  }

  function Without(q: seq<WorkItem>, j: nat): seq<WorkItem>
    requires j < |q|
  {
    q[..j] + q[j + 1..]
  }

  lemma BagWithoutLater(q: seq<WorkItem>, j: nat)
    requires 0 < j < |q|
    ensures KeyBag(Without(q, j)) == KeyBag(Without(q[1..], j - 1)) + multiset{KeyOf(q[0])}
  {
    assert Without(q, j)[1..] == Without(q[1..], j - 1);
  }

  lemma SwapAdded<T>(a: multiset<T>, b: multiset<T>, x: T, y: T)
    requires a == b + multiset{y}
    ensures a + multiset{x} == b + multiset{x} + multiset{y}
  {
  }

  lemma {:induction false} BagWithout(q: seq<WorkItem>, j: nat)
    requires j < |q|
    ensures KeyBag(q) == KeyBag(Without(q, j)) + multiset{KeyOf(q[j])}
  {
    if j == 0 {
      assert Without(q, 0) == q[1..];
    } else {
      BagWithout(q[1..], j - 1);
      BagWithoutLater(q, j);
      SwapAdded(KeyBag(q[1..]), KeyBag(Without(q[1..], j - 1)), KeyOf(q[0]), KeyOf(q[j]));
    }
  }

  lemma RowsWithout(q: seq<WorkItem>, j: nat)
    requires j < |q|
    ensures multiset(Without(q, j)) == multiset(q) - multiset{q[j]}
  {
    assert q == q[..j] + [q[j]] + q[j + 1..];
  }

  lemma TailBag<T>(q: seq<T>)
    requires q != []
    ensures multiset(q[1..]) == multiset(q) - multiset{q[0]}
  {
    assert q == [q[0]] + q[1..];
  }

  lemma {:induction false} SameRowsSameKeys(a: seq<WorkItem>, b: seq<WorkItem>)
    requires multiset(a) == multiset(b)
    ensures KeyBag(a) == KeyBag(b)
  {
    if a == [] {
      assert |multiset(b)| == 0;
    } else {
      assert a[0] in multiset(b);
      var j :| 0 <= j < |b| && b[j] == a[0];
      var rest := Without(b, j);
      TailBag(a);
      RowsWithout(b, j);
      SameRowsSameKeys(a[1..], rest);
      BagWithout(b, j);
    }
  }

  predicate SortedKeys(k: seq<Key>) { forall i, j :: 0 <= i < j < |k| ==> Leq(k[i], k[j]) }

  lemma FirstIsLeast(a: seq<Key>, k: Key)
    requires SortedKeys(a) && k in a
    ensures a[0] == k || Leq(a[0], k)
  {
    var i :| 0 <= i < |a| && a[i] == k;
  }

  lemma {:induction false} SortedUnique(a: seq<Key>, b: seq<Key>)
    requires multiset(a) == multiset(b) && SortedKeys(a) && SortedKeys(b)
    ensures a == b
  {
    if a == [] {
      assert |multiset(b)| == 0;
    } else {
      assert |b| == |multiset(b)| == |multiset(a)| == |a|;
      assert a[0] in multiset(b) && b[0] in multiset(a);
      FirstIsLeast(a, b[0]);
      FirstIsLeast(b, a[0]);
      assert a[0] == b[0];
      TailBag(a);
      TailBag(b);
      assert multiset(a[1..]) == multiset(b[1..]);
      SortedUnique(a[1..], b[1..]);
      assert a == [a[0]] + a[1..] && b == [b[0]] + b[1..];
    }
  }

  lemma SortedHasSortedKeys(q: seq<WorkItem>)
    requires Sorted(q)
    ensures SortedKeys(Keys(q)) && |Keys(q)| == |q|
  {
    if q != [] { KeysAt(q, 0); }
    forall i, j | 0 <= i < j < |Keys(q)| ensures Leq(Keys(q)[i], Keys(q)[j]) {
      KeysAt(q, i);
      KeysAt(q, j);
    }
  }

  /** Two answers to one query have the same rows and the same sequence of sort keys. */
  lemma ListingsAgree(items: Items, sel: Selection, a: seq<WorkItem>, b: seq<WorkItem>)
    requires IsListing(items, sel, a) && IsListing(items, sel, b)
    ensures multiset(a) == multiset(b) && Keys(a) == Keys(b)
  {
    SameRowsSameKeys(a, b);
    BagOfKeys(a);
    BagOfKeys(b);
    SortedHasSortedKeys(a);
    SortedHasSortedKeys(b);
    SortedUnique(Keys(a), Keys(b));
  }

  ghost predicate KeysDistinct(items: Items, sel: Selection) {
    forall v, w :: v in Rows(items, sel) && w in Rows(items, sel) && KeyOf(v) == KeyOf(w) ==> v == w
  }

  /** When no two selected rows tie there is only one answer. */
  lemma ListingUnique(items: Items, sel: Selection, a: seq<WorkItem>, b: seq<WorkItem>)
    requires IsListing(items, sel, a) && IsListing(items, sel, b) && KeysDistinct(items, sel)
    ensures a == b
  {
    ListingsAgree(items, sel, a, b);
    SortedHasSortedKeys(a);
    SortedHasSortedKeys(b);
    forall i | 0 <= i < |a| ensures a[i] == b[i] {
      KeysAt(a, i);
      KeysAt(b, i);
      assert a[i] in multiset(a) && b[i] in multiset(b);
    }
  }

  // --- The second route: filter the full list ---------------------------------------------------------

  function Filter(q: seq<WorkItem>): seq<WorkItem> {
    if q == [] then [] else
      var p := Filter(q[..|q| - 1]);
      if IsActive(q[|q| - 1]) then p + [q[|q| - 1]] else p
  }

  method FilterActive(items: seq<WorkItem>) returns (active: seq<WorkItem>)
    ensures active == Filter(items)
  {
    active := [];
    for i := 0 to |items|
      invariant active == Filter(items[..i])
    {
      assert items[..i + 1][..i] == items[..i];
      if items[i].state == Open || items[i].state == Investigating {
        active := active + [items[i]];
      }
    }
    assert items[..|items|] == items;
  }

  lemma {:induction false} FilterRows(q: seq<WorkItem>, w: WorkItem)
    ensures multiset(Filter(q))[w] == if w.state == Open || w.state == Investigating then multiset(q)[w] else 0
  {
    if q != [] {
      var n := |q| - 1;
      FilterRows(q[..n], w);
      assert q == q[..n] + [q[n]];
    }
  }

  lemma {:induction false} FilterSorted(q: seq<WorkItem>)
    requires Sorted(q)
    ensures Sorted(Filter(q))
    ensures forall i :: 0 <= i < |Filter(q)| ==> Filter(q)[i] in q
  {
    if q != [] {
      var n := |q| - 1;
      FilterSorted(q[..n]);
      forall i | 0 <= i < |Filter(q[..n])| ensures Leq(KeyOf(Filter(q[..n])[i]), KeyOf(q[n])) {
        var w := Filter(q[..n])[i];
        var j :| 0 <= j < n && q[..n][j] == w;
        assert q[j] == w;
      }
    }
  }

  /** Filtering an answer to the full query is an answer to the active query: the two builders of
      the dashboard agree on rows and sort keys, and on the list itself when no two rows tie. */
  lemma BuildersAgree(items: Items, all: seq<WorkItem>, active: seq<WorkItem>)
    requires IsListing(items, Everything, all) && IsListing(items, Active, active)
    ensures IsListing(items, Active, Filter(all))
    ensures multiset(Filter(all)) == multiset(active) && Keys(Filter(all)) == Keys(active)
    ensures KeysDistinct(items, Active) ==> Filter(all) == active
  {
    FilterIsListing(items, all);
    ListingsAgree(items, Active, Filter(all), active);
    if KeysDistinct(items, Active) { ListingUnique(items, Active, Filter(all), active); }
  }

  lemma FilterIsListing(items: Items, all: seq<WorkItem>)
    requires IsListing(items, Everything, all)
    ensures IsListing(items, Active, Filter(all))
  {
    FilterSorted(all);
    forall w ensures multiset(Filter(all))[w] == multiset(Rows(items, Active))[w] {
      FilterRows(all, w);
      assert w in Rows(items, Active) <==> w in Rows(items, Everything) && IsActive(w);
    }
  }

  // --- Counts --------------------------------------------------------------------------------------

  datatype Counts = Counts(open: nat, investigating: nat, resolved: nat, closed: nat)

  function CountsOf(items: Items): Counts {
    Counts(|Rows(items, InState(Open))|, |Rows(items, InState(Investigating))|,
           |Rows(items, InState(Resolved))|, |Rows(items, InState(Closed))|)
  }

  lemma CountsMean(items: Items)
    ensures var c := CountsOf(items);
            && c.open == |set id | id in items && items[id].state == Open :: items[id]|
            && c.investigating == |set id | id in items && items[id].state == Investigating :: items[id]|
            && c.resolved == |set id | id in items && items[id].state == Resolved :: items[id]|
            && c.closed == |set id | id in items && items[id].state == Closed :: items[id]|
  {
    assert Rows(items, InState(Open)) == set id | id in items && items[id].state == Open :: items[id];
    assert Rows(items, InState(Investigating)) == set id | id in items && items[id].state == Investigating :: items[id];
    assert Rows(items, InState(Resolved)) == set id | id in items && items[id].state == Resolved :: items[id];
    assert Rows(items, InState(Closed)) == set id | id in items && items[id].state == Closed :: items[id];
  }

  /** The rows of GROUP BY state: every state that occurs, once, with how often. */
  ghost predicate IsGrouping(items: Items, groups: seq<(WorkItemState, nat)>) {
    && (forall i :: 0 <= i < |groups| ==> groups[i].1 == |Rows(items, InState(groups[i].0))|)
    && (forall i, j :: 0 <= i < j < |groups| ==> groups[i].0 != groups[j].0)
    && (forall w :: w in Rows(items, Everything) ==> exists i :: 0 <= i < |groups| && groups[i].0 == w.state)
  }

  function Listed(groups: seq<(WorkItemState, nat)>, s: WorkItemState): nat {
    if groups == [] then 0
    else if groups[|groups| - 1].0 == s then groups[|groups| - 1].1
    else Listed(groups[..|groups| - 1], s)
  }

  method GetDashboardCounts(ghost items: Items, groups: seq<(WorkItemState, nat)>) returns (c: Counts)
    requires IsGrouping(items, groups)
    ensures c == CountsOf(items)
    ensures c.open == |set id | id in items && items[id].state == Open :: items[id]|
    ensures c.investigating == |set id | id in items && items[id].state == Investigating :: items[id]|
    ensures c.resolved == |set id | id in items && items[id].state == Resolved :: items[id]|
    ensures c.closed == |set id | id in items && items[id].state == Closed :: items[id]|
  {
    var open, investigating, resolved, closed := 0, 0, 0, 0;
    for i := 0 to |groups|
      invariant open == Listed(groups[..i], Open) && investigating == Listed(groups[..i], Investigating)
      invariant resolved == Listed(groups[..i], Resolved) && closed == Listed(groups[..i], Closed)
    {
      assert groups[..i + 1][..i] == groups[..i];
      match groups[i].0 {
        case Open => open := groups[i].1;
        case Investigating => investigating := groups[i].1;
        case Resolved => resolved := groups[i].1;
        case Closed => closed := groups[i].1;
        case _ =>
      }
    }
    assert groups[..|groups|] == groups;
    ListedCounts(items, groups, Open);
    ListedCounts(items, groups, Investigating);
    ListedCounts(items, groups, Resolved);
    ListedCounts(items, groups, Closed);
    c := Counts(open, investigating, resolved, closed);
    CountsMean(items);
  }

  lemma {:induction false} ListedAt(groups: seq<(WorkItemState, nat)>, i: nat)
    requires i < |groups| && forall j :: i < j < |groups| ==> groups[j].0 != groups[i].0
    ensures Listed(groups, groups[i].0) == groups[i].1
  {
    if i < |groups| - 1 {
      var pre := groups[..|groups| - 1];
      assert pre[i] == groups[i] && forall j :: i < j < |pre| ==> pre[j] == groups[j];
      ListedAt(pre, i);
    }
  }

  lemma {:induction false} NotListed(groups: seq<(WorkItemState, nat)>, s: WorkItemState)
    requires forall j :: 0 <= j < |groups| ==> groups[j].0 != s
    ensures Listed(groups, s) == 0
  {
    if groups != [] { NotListed(groups[..|groups| - 1], s); }
  }

  lemma ListedCounts(items: Items, groups: seq<(WorkItemState, nat)>, s: WorkItemState)
    requires IsGrouping(items, groups)
    ensures Listed(groups, s) == |Rows(items, InState(s))|
  {
    if i :| 0 <= i < |groups| && groups[i].0 == s {
      ListedAt(groups, i);
    } else {
      NotListed(groups, s);
      forall w | w in Rows(items, Everything) ensures w !in Rows(items, InState(s)) {
        var i :| 0 <= i < |groups| && groups[i].0 == w.state;
      }
      assert Rows(items, InState(s)) <= Rows(items, Everything);
      assert Rows(items, InState(s)) == {};
    }
  }

  /** On one state of the table the active list is as long as the two totals say. */
  lemma ActiveLength(items: Items, q: seq<WorkItem>)
    requires IsListing(items, Active, q)
    ensures |q| == CountsOf(items).open + CountsOf(items).investigating
  {
    var a, b := Rows(items, InState(Open)), Rows(items, InState(Investigating));
    assert Rows(items, Active) == a + b && a !! b;
    assert |multiset(q)| == |multiset(Rows(items, Active))|;
  }
}
