/** The order in which the report screens list planned items: by planned date, then
    by type (income sorts before payment, as the stored keys 'income' < 'payment'
    do), then by record id. The store's search returns the selected records in this
    order; the model states that order as a sort of the selected records. */
module ItemOrder {
  import opened Dates
  import opened PlannedItems
  import Categories

  function TypeRank(kind: Categories.CashType): int {
    if kind == Categories.Income then 0 else 1
  }

  /** `a` may be listed before `b` under the order 'planned_date, type, id'. */
  predicate KeyLe(a: PlannedItem, b: PlannedItem) {
    Before(a.plannedDate, b.plannedDate)
    || (a.plannedDate == b.plannedDate
        && (TypeRank(a.kind) < TypeRank(b.kind)
            || (TypeRank(a.kind) == TypeRank(b.kind) && a.id <= b.id)))
  }

  /** The key order is total and transitive, so it is a sort order. */
  lemma KeyLeIsTotalPreorder(a: PlannedItem, b: PlannedItem, c: PlannedItem)
    ensures KeyLe(a, a)
    ensures KeyLe(a, b) || KeyLe(b, a)
    ensures KeyLe(a, b) && KeyLe(b, c) ==> KeyLe(a, c)
    ensures KeyLe(a, b) && KeyLe(b, a) ==> a.plannedDate == b.plannedDate && a.kind == b.kind && a.id == b.id
  {
    BeforeIsStrictTotalOrder(a.plannedDate, b.plannedDate, c.plannedDate);
  }

  predicate Sorted(s: seq<PlannedItem>) {
    forall i, j :: 0 <= i < j < |s| ==> KeyLe(s[i], s[j])
  }

  /** `x` put into its place in the sorted `s`. */
  function Insert(x: PlannedItem, s: seq<PlannedItem>): (r: seq<PlannedItem>)
    requires Sorted(s)
    ensures Sorted(r)
    ensures multiset(r) == multiset(s) + multiset{x}
    ensures |r| == |s| + 1
  {
    if s == [] then [x]
    else if KeyLe(x, s[0]) then
      SortedCons(x, s);
      [x] + s
    else
      var rest := Insert(x, s[1..]);
      SortedAfterHead(x, s, rest);
      [s[0]] + rest
  }

  lemma SortedCons(x: PlannedItem, s: seq<PlannedItem>)
    requires Sorted(s) && s != [] && KeyLe(x, s[0])
    ensures Sorted([x] + s)
  {
    forall j | 0 <= j < |s|
      ensures KeyLe(x, s[j])
    {
      if j > 0 {
        KeyLeIsTotalPreorder(x, s[0], s[j]);
      }
    }
    forall i, j | 0 <= i < j < |s| + 1
      ensures KeyLe(([x] + s)[i], ([x] + s)[j])
    {
      if i > 0 {
        assert ([x] + s)[i] == s[i - 1];
      }
    }
  }

  lemma SortedAfterHead(x: PlannedItem, s: seq<PlannedItem>, rest: seq<PlannedItem>)
    requires Sorted(s) && s != [] && !KeyLe(x, s[0])
    requires Sorted(rest) && multiset(rest) == multiset(s[1..]) + multiset{x}
    ensures Sorted([s[0]] + rest)
    ensures multiset([s[0]] + rest) == multiset(s) + multiset{x}
  {
    KeyLeIsTotalPreorder(x, s[0], s[0]);
    assert s == [s[0]] + s[1..];
    forall k | 0 <= k < |rest|
      ensures KeyLe(s[0], rest[k])
    {
      assert rest[k] in multiset(rest);
      assert rest[k] == x || rest[k] in s[1..];
    }
    forall i, j | 0 <= i < j < |rest| + 1
      ensures KeyLe(([s[0]] + rest)[i], ([s[0]] + rest)[j])
    {
      if i > 0 {
        assert ([s[0]] + rest)[i] == rest[i - 1];
      }
    }
  }

  /** The records in list order: sorted by key, and the same records as the input,
      each as often as it occurs there. */
  function SortByKey(s: seq<PlannedItem>): (r: seq<PlannedItem>)
    ensures Sorted(r)
    ensures multiset(r) == multiset(s)
    ensures |r| == |s|
  {
    if s == [] then []
    else
      assert s == s[..|s| - 1] + [s[|s| - 1]];
      Insert(s[|s| - 1], SortByKey(s[..|s| - 1]))
  }

  lemma {:induction false} SortByKeyKeepsRecords(s: seq<PlannedItem>, x: PlannedItem)
    ensures x in SortByKey(s) <==> x in s
  {
    assert x in multiset(SortByKey(s)) <==> x in multiset(s);
  }

  /** A record that sorts after every record of `s` goes to the end. */
  lemma {:induction false} InsertLast(x: PlannedItem, s: seq<PlannedItem>)
    requires Sorted(s)
    requires forall i :: 0 <= i < |s| ==> !KeyLe(x, s[i])
    ensures Insert(x, s) == s + [x]
  {
    if s != [] {
      assert Sorted(s[1..]);
      InsertLast(x, s[1..]);
      assert s == [s[0]] + s[1..];
    }
  }

  /** No record sorts before an earlier one: the keys strictly increase. */
  predicate StrictlySorted(s: seq<PlannedItem>) {
    forall i, j :: 0 <= i < j < |s| ==> !KeyLe(s[j], s[i])
  }

  /** Sorting a list whose keys already strictly increase leaves it as it is. */
  lemma {:induction false} SortKeepsStrictlySorted(s: seq<PlannedItem>)
    requires StrictlySorted(s)
    ensures SortByKey(s) == s
  {
    if s != [] {
      var init := s[..|s| - 1];
      var x := s[|s| - 1];
      assert StrictlySorted(init);
      SortKeepsStrictlySorted(init);
      forall i, j | 0 <= i < j < |init|
        ensures KeyLe(init[i], init[j])
      {
        KeyLeIsTotalPreorder(init[i], init[j], init[j]);
      }
      InsertLast(x, init);
      assert s == init + [x];
    }
  }
}
