/** The category registry: income/payment categories arranged in a parent/child
    hierarchy, kept as an arena of records indexed by id, each holding an optional
    parent id. */
module Categories {
  import opened Wrappers

  datatype CashType = Income | Payment

  datatype Category = Category(id: int, name: string, code: string, kind: CashType, parent: Option<int>)

  type Hierarchy = map<int, Category>

  datatype CategoryError = CycleError | DuplicateCode | UnknownCategory

  /** Every record is stored under its own id and every parent link names a stored
      record (the foreign key is `ondelete='restrict'`). */
  predicate WellFormed(h: Hierarchy) {
    && (forall id :: id in h ==> h[id].id == id)
    && (forall id :: id in h && h[id].parent.Some? ==> h[id].parent.value in h)
  }

  predicate NoDup(s: seq<int>) {
    forall i, j :: 0 <= i < j < |s| ==> s[i] != s[j]
  }

  /** The first `fuel` links of the parent chain of `c`, starting with `c` itself and
      stopping early at a root. Consecutive entries are child and parent. */
  function Walk(h: Hierarchy, c: int, fuel: nat): (w: seq<int>)
    requires WellFormed(h) && c in h
    ensures 1 <= |w| <= fuel + 1 && w[0] == c
    ensures forall i :: 0 <= i < |w| ==> w[i] in h
    ensures forall i :: 0 <= i < |w| - 1 ==> h[w[i]].parent == Some(w[i + 1])
    ensures |w| <= fuel ==> h[w[|w| - 1]].parent.None?
    decreases fuel
  {
    if fuel == 0 then [c]
    else match h[c].parent
      case None => [c]
      case Some(p) => [c] + Walk(h, p, fuel - 1)
  }

  /** The parent chain of `c`, nearest first and starting with `c`, followed for as
      many links as there are categories. */
  function Ancestry(h: Hierarchy, c: int): seq<int>
    requires WellFormed(h) && c in h
  {
    Walk(h, c, |h|)
  }

  /** Walking up from `c` never revisits an id: the chain ends at a root. */
  predicate ReachesRoot(h: Hierarchy, c: int)
    requires WellFormed(h) && c in h
  {
    NoDup(Ancestry(h, c))
  }

  /** No category is its own ancestor. */
  predicate Acyclic(h: Hierarchy)
    requires WellFormed(h)
  {
    forall c :: c in h ==> ReachesRoot(h, c)
  }

  // ---------------------------------------------------------------------------
  // Facts about walks
  // ---------------------------------------------------------------------------

  /** A duplicate-free sequence of ids drawn from a set is no longer than the set. */
  lemma {:induction false} DistinctBound(s: seq<int>, S: set<int>)
    requires NoDup(s) && forall i :: 0 <= i < |s| ==> s[i] in S
    ensures |s| <= |S|
  {
    if |s| > 0 {
      forall i | 0 <= i < |s| - 1 ensures s[1..][i] in S - {s[0]} {
        assert s[1..][i] == s[i + 1] != s[0];
      }
      DistinctBound(s[1..], S - {s[0]});
    }
  }

  /** A shorter walk is a prefix of a longer one; once a walk has reached a root,
      more fuel changes nothing. */
  lemma WalkMono(h: Hierarchy, c: int, n: nat, m: nat)
    requires WellFormed(h) && c in h && n <= m
    ensures |Walk(h, c, n)| <= |Walk(h, c, m)|
    ensures Walk(h, c, n) == Walk(h, c, m)[..|Walk(h, c, n)|]
    ensures h[Walk(h, c, n)[|Walk(h, c, n)| - 1]].parent.None? ==> Walk(h, c, m) == Walk(h, c, n)
  {
    WalkPrefix(h, c, n, m);
    var u, v := Walk(h, c, n), Walk(h, c, m);
    WalkLink(h, c, m, |u| - 1);
    assert u[|u| - 1] == v[|u| - 1];
    if h[u[|u| - 1]].parent.None? {
      assert v == v[..|u|];
    }
  }

  lemma WalkLink(h: Hierarchy, c: int, m: nat, k: int)
    requires WellFormed(h) && c in h && 0 <= k
    ensures k + 1 < |Walk(h, c, m)| ==> h[Walk(h, c, m)[k]].parent == Some(Walk(h, c, m)[k + 1])
  {
  }

  lemma WalkPrefix(h: Hierarchy, c: int, n: nat, m: nat)
    requires WellFormed(h) && c in h && n <= m
    ensures |Walk(h, c, n)| <= |Walk(h, c, m)|
    ensures Walk(h, c, n) == Walk(h, c, m)[..|Walk(h, c, n)|]
  {
    var a, b := Walk(h, c, n), Walk(h, c, m);
    WalkAgree(h, c, n, m, |a| - 1);
    forall i | 0 <= i < |a|
      ensures a[i] == b[i]
    {
      WalkAgree(h, c, n, m, i);
    }
  }

  /** The `i`-th entry of a walk does not depend on the fuel once it is there. */
  lemma {:induction false} WalkAgree(h: Hierarchy, c: int, n: nat, m: nat, i: nat)
    requires WellFormed(h) && c in h && n <= m && i < |Walk(h, c, n)|
    ensures i < |Walk(h, c, m)| && Walk(h, c, n)[i] == Walk(h, c, m)[i]
    decreases i
  {
    if i > 0 {
      var p := h[c].parent.value;
      WalkUnfold(h, c, n);
      WalkUnfold(h, c, m);
      WalkAgree(h, p, n - 1, m - 1, i - 1);
    }
  }

  /** One link of a walk: the category, then the walk from its parent. */
  lemma WalkUnfold(h: Hierarchy, c: int, n: nat)
    requires WellFormed(h) && c in h && n > 0 && h[c].parent.Some?
    ensures Walk(h, c, n) == [c] + Walk(h, h[c].parent.value, n - 1)
  {
  }

  /** A walk that has taken all its `k` links and has not met a root extends by the
      parent of its last entry. */
  lemma {:induction false} WalkExtend(h: Hierarchy, c: int, k: nat)
    requires WellFormed(h) && c in h
    requires |Walk(h, c, k)| == k + 1 && h[Walk(h, c, k)[k]].parent.Some?
    ensures Walk(h, c, k + 1) == Walk(h, c, k) + [h[Walk(h, c, k)[k]].parent.value]
    decreases k
  {
    if k > 0 {
      WalkExtend(h, h[c].parent.value, k - 1);
    }
  }

  /** When the chain from `c` ends at a root, it is no longer than the hierarchy and
      its last entry is a root. */
  lemma RootedChainEndsAtRoot(h: Hierarchy, c: int)
    requires WellFormed(h) && c in h && ReachesRoot(h, c)
    ensures |Ancestry(h, c)| <= |h|
    ensures h[Ancestry(h, c)[|Ancestry(h, c)| - 1]].parent.None?
  {
    DistinctBound(Ancestry(h, c), h.Keys);
  }

  /** In a hierarchy that is acyclic at `c`, the chain of a child of `p` is the child
      followed by the chain of `p`. */
  lemma ChildAncestry(h: Hierarchy, k: int)
    requires WellFormed(h) && k in h && h[k].parent.Some?
    requires ReachesRoot(h, h[k].parent.value)
    ensures Ancestry(h, k) == [k] + Ancestry(h, h[k].parent.value)
  {
    var p := h[k].parent.value;
    RootedChainEndsAtRoot(h, p);
    WalkMono(h, p, |h| - 1, |h|);
    if |Walk(h, p, |h| - 1)| == |h| {
      assert Walk(h, p, |h|) == Walk(h, p, |h|)[..|h|];
    }
  }

  // ---------------------------------------------------------------------------
  // _check_recursion_hierarchy
  // ---------------------------------------------------------------------------

  /** Walks up from `c` with a visited set, as the constraint does, and reports
      whether the chain reaches a root without revisiting an id (`c` included). */
  method CheckRecursion(h: Hierarchy, c: int) returns (ok: bool)
    requires WellFormed(h) && c in h
    ensures ok <==> ReachesRoot(h, c)
    ensures h[c].parent.None? ==> ok
  {
    var cursor := h[c].parent;
    var visited := {c};
    ghost var walked := [c];
    while cursor.Some?
      invariant 1 <= |walked| <= |h|
      invariant walked == Walk(h, c, |walked| - 1)
      invariant NoDup(walked)
      invariant forall x :: x in visited <==> x in walked
      invariant cursor == h[walked[|walked| - 1]].parent
      decreases |h| - |walked|
    {
      var p := cursor.value;
      WalkExtend(h, c, |walked| - 1);
      WalkMono(h, c, |walked|, |h|);
      if p in visited {
        ghost var w := Walk(h, c, |h|);
        ghost var i :| 0 <= i < |walked| && walked[i] == p;
        assert w[i] == w[|walked|];
        return false;
      }
      visited := visited + {p};
      walked := walked + [p];
      DistinctBound(walked, h.Keys);
      cursor := h[p].parent;
    }
    WalkMono(h, c, |walked| - 1, |h|);
    return true;
  }

  /** The constraint over a batch of written ids: false as soon as one fails. */
  method CheckRecursionAll(h: Hierarchy, ids: seq<int>) returns (ok: bool)
    requires WellFormed(h) && forall i :: 0 <= i < |ids| ==> ids[i] in h
    ensures ok <==> forall i :: 0 <= i < |ids| ==> ReachesRoot(h, ids[i])
  {
    var n := 0;
    while n < |ids|
      invariant 0 <= n <= |ids|
      invariant forall i :: 0 <= i < n ==> ReachesRoot(h, ids[i])
    {
      var one := CheckRecursion(h, ids[n]);
      if !one {
        return false;
      }
      n := n + 1;
    }
    return true;
  }

  /** An independent notion of a well-founded hierarchy: some rank strictly decreases
      from every child to its parent. Such a hierarchy passes the check everywhere. */
  predicate Ranked(h: Hierarchy, rank: int -> nat)
    requires WellFormed(h)
  {
    forall c :: c in h && h[c].parent.Some? ==> rank(h[c].parent.value) < rank(c)
  }

  lemma {:induction false} RankDecreasesAlongWalk(h: Hierarchy, rank: int -> nat, c: int, fuel: nat)
    requires WellFormed(h) && c in h && Ranked(h, rank)
    ensures forall i, j :: 0 <= i < j < |Walk(h, c, fuel)| ==> rank(Walk(h, c, fuel)[j]) < rank(Walk(h, c, fuel)[i])
    decreases fuel
  {
    if fuel > 0 && h[c].parent.Some? {
      var p := h[c].parent.value;
      RankDecreasesAlongWalk(h, rank, p, fuel - 1);
      var w := Walk(h, c, fuel);
      assert w == [c] + Walk(h, p, fuel - 1);
      forall i, j | 0 <= i < j < |w| ensures rank(w[j]) < rank(w[i]) {
        if i == 0 && j > 1 {
          assert w[j] == Walk(h, p, fuel - 1)[j - 1] && w[1] == Walk(h, p, fuel - 1)[0];
        }
      }
    }
  }

  lemma RankedIsAcyclic(h: Hierarchy, rank: int -> nat)
    requires WellFormed(h) && Ranked(h, rank)
    ensures Acyclic(h)
  {
    forall c | c in h ensures ReachesRoot(h, c) {
      RankDecreasesAlongWalk(h, rank, c, |h|);
    }
  }

  // ---------------------------------------------------------------------------
  // get_parent_categories and name_get
  // ---------------------------------------------------------------------------

  /** The ids of all ancestors of `c` up to its root, nearest first. The source loops
      for ever on a cyclic chain, which its constraint rules out. */
  method ParentCategories(h: Hierarchy, c: int) returns (result: seq<int>)
    requires WellFormed(h) && c in h && ReachesRoot(h, c)
    ensures result == Ancestry(h, c)[1..]
  {
    RootedChainEndsAtRoot(h, c);
    ghost var w := Ancestry(h, c);
    result := [];
    var cursor := h[c].parent;
    while cursor.Some?
      invariant |result| < |w|
      invariant result == w[1..|result| + 1]
      invariant cursor == h[w[|result|]].parent
      invariant |result| < |w| - 1 ==> cursor == Some(w[|result| + 1])
      decreases |w| - |result|
    {
      result := result + [cursor.value];
      cursor := h[cursor.value].parent;
    }
  }

  /** The ancestors are listed nearest first, never include the start category,
      end at a root, and are as many as the category is deep. */
  lemma ParentCategoriesShape(h: Hierarchy, c: int, a: seq<int>)
    requires WellFormed(h) && c in h && ReachesRoot(h, c) && a == Ancestry(h, c)[1..]
    ensures c !in a
    ensures h[c].parent.None? <==> a == []
    ensures h[c].parent.Some? ==> a[0] == h[c].parent.value
    ensures forall i :: 0 <= i < |a| - 1 ==> h[a[i]].parent == Some(a[i + 1])
    ensures a != [] ==> h[a[|a| - 1]].parent.None?
    ensures |a| < |h|
  {
    RootedChainEndsAtRoot(h, c);
    var w := Ancestry(h, c);
    forall i | 0 <= i < |a| ensures a[i] != c {
      assert w[0] == c && a[i] == w[i + 1];
    }
    forall i | 0 <= i < |a| - 1 ensures h[a[i]].parent == Some(a[i + 1]) {
      assert a[i] == w[i + 1] && a[i + 1] == w[i + 2];
    }
    if a != [] {
      assert a[|a| - 1] == w[|w| - 1];
    }
  }

  function Join(parts: seq<string>, sep: string): string {
    if |parts| == 0 then ""
    else if |parts| == 1 then parts[0]
    else parts[0] + sep + Join(parts[1..], sep)
  }

  lemma {:induction false} JoinSnoc(parts: seq<string>, x: string, sep: string)
    requires |parts| >= 1
    ensures Join(parts + [x], sep) == Join(parts, sep) + sep + x
    decreases |parts|
  {
    if |parts| > 1 {
      assert (parts + [x])[1..] == parts[1..] + [x];
      JoinSnoc(parts[1..], x, sep);
    } else {
      assert parts + [x] == [parts[0], x];
    }
  }

  /** The names along the chain of `w`, root first. */
  function RootFirstNames(h: Hierarchy, w: seq<int>): (names: seq<string>)
    requires forall i :: 0 <= i < |w| ==> w[i] in h
    ensures |names| == |w|
    ensures forall i :: 0 <= i < |w| ==> names[i] == h[w[|w| - 1 - i]].name
  {
    if w == [] then [] else RootFirstNames(h, w[1..]) + [h[w[0]].name]
  }

  /** 'Root / ... / Parent / Name', the display name of `c`. */
  function FullName(h: Hierarchy, c: int): string
    requires WellFormed(h) && c in h
  {
    Join(RootFirstNames(h, Ancestry(h, c)), " / ")
  }

  /** name_get: collects names while walking up, inserting each ancestor's name in
      front, then joins them with ' / '. */
  method DisplayName(h: Hierarchy, c: int) returns (name: string)
    requires WellFormed(h) && c in h && ReachesRoot(h, c)
    ensures name == FullName(h, c)
  {
    RootedChainEndsAtRoot(h, c);
    ghost var w := Ancestry(h, c);
    var names := [h[c].name];
    var cursor := h[c].parent;
    ghost var k := 1;
    while cursor.Some?
      invariant 1 <= k <= |w|
      invariant names == RootFirstNames(h, w[..k])
      invariant cursor == h[w[k - 1]].parent
      invariant k < |w| ==> cursor == Some(w[k])
      invariant k == |w| ==> cursor.None?
      decreases |w| - k
    {
      var p := cursor.value;
      assert w[..k + 1][1..] == w[1..k + 1];
      assert w[..k + 1] == w[..k] + [p];
      names := [h[p].name] + names;
      cursor := h[p].parent;
      k := k + 1;
    }
    assert w[..k] == w;
    name := Join(names, " / ");
  }

  lemma NoDupTail(c: int, v: seq<int>)
    requires NoDup([c] + v)
    ensures NoDup(v)
  {
    forall i, j | 0 <= i < j < |v| ensures v[i] != v[j] {
      assert v[i] == ([c] + v)[i + 1] && v[j] == ([c] + v)[j + 1];
    }
  }

  /** The parent of a category whose chain ends at a root has a chain that ends at
      a root too. */
  lemma ParentReachesRoot(h: Hierarchy, c: int)
    requires WellFormed(h) && c in h && ReachesRoot(h, c) && h[c].parent.Some?
    ensures ReachesRoot(h, h[c].parent.value)
  {
    var p := h[c].parent.value;
    var w := Ancestry(h, c);
    var v := Walk(h, p, |h| - 1);
    assert w == [c] + v;
    NoDupTail(c, v);
    RootedChainEndsAtRoot(h, c);
    assert v[|v| - 1] == w[|w| - 1];
    WalkMono(h, p, |h| - 1, |h|);
  }

  /** A root shows its own name; any other category shows its parent's display name,
      ' / ', and its own name, so the last segment is always its own name. */
  lemma FullNameOfChild(h: Hierarchy, c: int)
    requires WellFormed(h) && c in h && ReachesRoot(h, c)
    ensures h[c].parent.None? ==> FullName(h, c) == h[c].name
    ensures h[c].parent.Some? ==>
      FullName(h, c) == FullName(h, h[c].parent.value) + " / " + h[c].name
  {
    var w := Ancestry(h, c);
    if h[c].parent.Some? {
      var p := h[c].parent.value;
      ParentReachesRoot(h, c);
      ChildAncestry(h, c);
      assert w[1..] == Ancestry(h, p);
      assert RootFirstNames(h, w) == RootFirstNames(h, Ancestry(h, p)) + [h[c].name];
      JoinSnoc(RootFirstNames(h, Ancestry(h, p)), h[c].name, " / ");
    }
  }

  // ---------------------------------------------------------------------------
  // get_child_categories
  // ---------------------------------------------------------------------------

  /** `order` lists every stored category exactly once, in the store's order. */
  predicate Listing(h: Hierarchy, order: seq<int>) {
    NoDup(order) && (forall x :: x in order ==> x in h) && (forall x :: x in h ==> x in order)
  }

  /** The direct children of `c`, in the store's order. */
  function ChildrenOf(h: Hierarchy, order: seq<int>, c: int): (kids: seq<int>)
    requires forall x :: x in order ==> x in h
    ensures forall x :: x in kids <==> x in order && h[x].parent == Some(c)
    ensures NoDup(order) ==> NoDup(kids)
  {
    if order == [] then []
    else
      var x := order[0];
      assert x in order;
      assert x in h;
      var rest := ChildrenOf(h, order[1..], c);
      if h[x].parent == Some(c) then [x] + rest else rest
  }

  function Depth(h: Hierarchy, c: int): nat
    requires WellFormed(h) && c in h
  {
    |Ancestry(h, c)| - 1
  }

  lemma ChildIsDeeper(h: Hierarchy, c: int, k: int)
    requires WellFormed(h) && Acyclic(h) && c in h && k in h && h[k].parent == Some(c)
    ensures Depth(h, k) == Depth(h, c) + 1 <= |h| - 1
  {
    ChildAncestry(h, k);
    RootedChainEndsAtRoot(h, k);
  }

  /** get_child_categories: each child of `c` followed by its own subtree, children
      in the store's order. */
  function Subtree(h: Hierarchy, order: seq<int>, c: int): seq<int>
    requires WellFormed(h) && Acyclic(h) && Listing(h, order) && c in h
    decreases |h| - Depth(h, c), 1, 0
  {
    Forest(h, order, c, ChildrenOf(h, order, c))
  }

  function Forest(h: Hierarchy, order: seq<int>, c: int, kids: seq<int>): seq<int>
    requires WellFormed(h) && Acyclic(h) && Listing(h, order) && c in h
    requires forall x :: x in kids ==> x in h && h[x].parent == Some(c)
    decreases |h| - Depth(h, c), 0, |kids|
  {
    if kids == [] then []
    else
      ChildIsDeeper(h, c, kids[0]);
      [kids[0]] + Subtree(h, order, kids[0]) + Forest(h, order, c, kids[1..])
  }

  /** `d` lies strictly below `c`. */
  predicate IsDescendant(h: Hierarchy, c: int, d: int)
    requires WellFormed(h) && d in h
  {
    c in Ancestry(h, d)[1..]
  }

  /** In an acyclic hierarchy, the chain of any entry of a chain is the rest of it. */
  lemma {:induction false} AncestrySuffix(h: Hierarchy, x: int, i: nat)
    requires WellFormed(h) && Acyclic(h) && x in h && i < |Ancestry(h, x)|
    ensures Ancestry(h, x)[i..] == Ancestry(h, Ancestry(h, x)[i])
    decreases i
  {
    if i > 0 {
      var w := Ancestry(h, x);
      var p := h[x].parent.value;
      ChildAncestry(h, x);
      assert w[1..] == Ancestry(h, p);
      AncestrySuffix(h, p, i - 1);
      assert w[i..] == Ancestry(h, p)[i - 1..];
    }
  }

  lemma {:induction false} SubtreeMembers(h: Hierarchy, order: seq<int>, c: int)
    requires WellFormed(h) && Acyclic(h) && Listing(h, order) && c in h
    ensures forall d :: d in Subtree(h, order, c) ==> d in h && IsDescendant(h, c, d)
    decreases |h| - Depth(h, c), 1, 0
  {
    ForestMembers(h, order, c, ChildrenOf(h, order, c));
  }

  lemma {:induction false} ForestMembers(h: Hierarchy, order: seq<int>, c: int, kids: seq<int>)
    requires WellFormed(h) && Acyclic(h) && Listing(h, order) && c in h
    requires forall x :: x in kids ==> x in h && h[x].parent == Some(c)
    ensures forall d :: d in Forest(h, order, c, kids) ==> d in h && IsDescendant(h, c, d)
    decreases |h| - Depth(h, c), 0, |kids|
  {
    if kids != [] {
      var k := kids[0];
      ChildIsDeeper(h, c, k);
      SubtreeMembers(h, order, k);
      ForestMembers(h, order, c, kids[1..]);
      ChildAncestry(h, k);
      forall d | d in Subtree(h, order, k) ensures IsDescendant(h, c, d) {
        var w := Ancestry(h, d);
        var j :| 1 <= j < |w| && w[j] == k;
        AncestrySuffix(h, d, j);
        assert w[j + 1] == c;
      }
    }
  }

  lemma {:induction false} DescendantsInSubtree(h: Hierarchy, order: seq<int>, c: int, d: int, j: nat)
    requires WellFormed(h) && Acyclic(h) && Listing(h, order) && c in h && d in h
    requires 1 <= j < |Ancestry(h, d)| && Ancestry(h, d)[j] == c
    ensures d in Subtree(h, order, c)
    decreases j
  {
    var w := Ancestry(h, d);
    var k := w[j - 1];
    assert h[k].parent == Some(c);
    ChildIsDeeper(h, c, k);
    ForestContains(h, order, c, ChildrenOf(h, order, c), k);
    if j > 1 {
      AncestrySuffix(h, d, j - 1);
      DescendantsInSubtree(h, order, k, d, j - 1);
      ForestContainsSubtree(h, order, c, ChildrenOf(h, order, c), k, d);
    }
  }

  lemma {:induction false} ForestContains(h: Hierarchy, order: seq<int>, c: int, kids: seq<int>, k: int)
    requires WellFormed(h) && Acyclic(h) && Listing(h, order) && c in h
    requires forall x :: x in kids ==> x in h && h[x].parent == Some(c)
    requires k in kids
    ensures k in Forest(h, order, c, kids)
    decreases |kids|
  {
    if kids[0] != k {
      ForestContains(h, order, c, kids[1..], k);
    }
  }

  lemma {:induction false} ForestContainsSubtree(h: Hierarchy, order: seq<int>, c: int, kids: seq<int>, k: int, d: int)
    requires WellFormed(h) && Acyclic(h) && Listing(h, order) && c in h
    requires forall x :: x in kids ==> x in h && h[x].parent == Some(c)
    requires k in kids && d in Subtree(h, order, k)
    ensures d in Forest(h, order, c, kids)
    decreases |kids|
  {
    ChildIsDeeper(h, c, kids[0]);
    if kids[0] != k {
      ForestContainsSubtree(h, order, c, kids[1..], k, d);
    }
  }

  /** get_child_categories returns exactly the descendants of `c`. */
  lemma SubtreeIsDescendants(h: Hierarchy, order: seq<int>, c: int)
    requires WellFormed(h) && Acyclic(h) && Listing(h, order) && c in h
    ensures forall d :: d in Subtree(h, order, c) <==> d in h && IsDescendant(h, c, d)
  {
    SubtreeMembers(h, order, c);
    forall d | d in h && IsDescendant(h, c, d) ensures d in Subtree(h, order, c) {
      var w := Ancestry(h, d);
      var j :| 1 <= j < |w| && w[j] == c;
      DescendantsInSubtree(h, order, c, d, j);
    }
  }

  // ---------------------------------------------------------------------------
  // Each descendant is listed once
  // ---------------------------------------------------------------------------

  /** `d` is `k` itself or lies below it. */
  predicate Under(h: Hierarchy, k: int, d: int)
    requires WellFormed(h) && d in h
  {
    d == k || IsDescendant(h, k, d)
  }

  lemma NotOwnDescendant(h: Hierarchy, x: int)
    requires WellFormed(h) && Acyclic(h) && x in h
    ensures !IsDescendant(h, x, x)
  {
    var w := Ancestry(h, x);
    assert ReachesRoot(h, x);
    forall i | 0 <= i < |w[1..]| ensures w[1..][i] != x {
      assert w[0] == x && w[1..][i] == w[i + 1];
    }
  }

  /** Where a category below a child `k` of `c` meets `k` on its way up, `c` follows. */
  lemma BranchIndex(h: Hierarchy, c: int, k: int, d: int) returns (i: nat)
    requires WellFormed(h) && Acyclic(h) && k in h && h[k].parent == Some(c)
    requires d in h && Under(h, k, d)
    ensures i + 1 < |Ancestry(h, d)| && Ancestry(h, d)[i] == k && Ancestry(h, d)[i + 1] == c
  {
    var w := Ancestry(h, d);
    if d == k {
      i := 0;
    } else {
      var j :| 0 <= j < |w[1..]| && w[1..][j] == k;
      i := j + 1;
    }
    AncestrySuffix(h, d, i);
    ChildAncestry(h, k);
  }

  /** A category lies below at most one child of any given category. */
  lemma BranchUnique(h: Hierarchy, c: int, k1: int, k2: int, d: int)
    requires WellFormed(h) && Acyclic(h) && k1 in h && k2 in h && d in h
    requires h[k1].parent == Some(c) && h[k2].parent == Some(c)
    ensures Under(h, k1, d) && Under(h, k2, d) ==> k1 == k2
  {
    if Under(h, k1, d) && Under(h, k2, d) {
      var i1 := BranchIndex(h, c, k1, d);
      var i2 := BranchIndex(h, c, k2, d);
      assert ReachesRoot(h, d);
    }
  }

  lemma {:induction false} ForestBranch(h: Hierarchy, order: seq<int>, c: int, kids: seq<int>, d: int)
    requires WellFormed(h) && Acyclic(h) && Listing(h, order) && c in h
    requires forall x :: x in kids ==> x in h && h[x].parent == Some(c)
    ensures d in Forest(h, order, c, kids) ==> d in h && exists i :: 0 <= i < |kids| && Under(h, kids[i], d)
    decreases |kids|
  {
    if kids != [] && d in Forest(h, order, c, kids) {
      var k := kids[0];
      ChildIsDeeper(h, c, k);
      SubtreeMembers(h, order, k);
      if d == k || d in Subtree(h, order, k) {
        assert Under(h, kids[0], d);
      } else {
        ForestBranch(h, order, c, kids[1..], d);
        var i :| 0 <= i < |kids[1..]| && Under(h, kids[1..][i], d);
        assert kids[1..][i] == kids[i + 1];
      }
    }
  }

  lemma NoDupConcat(a: seq<int>, b: seq<int>)
    requires NoDup(a) && NoDup(b) && forall x :: x in a ==> x !in b
    ensures NoDup(a + b)
  {
    forall i, j | 0 <= i < j < |a + b| ensures (a + b)[i] != (a + b)[j] {
      if j < |a| {
        assert (a + b)[i] == a[i] && (a + b)[j] == a[j];
      } else if i >= |a| {
        assert (a + b)[i] == b[i - |a|] && (a + b)[j] == b[j - |a|];
      } else {
        assert (a + b)[i] == a[i] && (a + b)[j] == b[j - |a|];
        assert a[i] in a && b[j - |a|] in b;
      }
    }
  }

  /** get_child_categories lists no category twice. */
  lemma {:induction false} SubtreeNoDup(h: Hierarchy, order: seq<int>, c: int)
    requires WellFormed(h) && Acyclic(h) && Listing(h, order) && c in h
    ensures NoDup(Subtree(h, order, c))
    decreases |h| - Depth(h, c), 1, 0
  {
    ForestNoDup(h, order, c, ChildrenOf(h, order, c));
  }

  lemma {:induction false} ForestNoDup(h: Hierarchy, order: seq<int>, c: int, kids: seq<int>)
    requires WellFormed(h) && Acyclic(h) && Listing(h, order) && c in h
    requires forall x :: x in kids ==> x in h && h[x].parent == Some(c)
    requires NoDup(kids)
    ensures NoDup(Forest(h, order, c, kids))
    decreases |h| - Depth(h, c), 0, |kids|
  {
    if kids != [] {
      var k := kids[0];
      var rest := kids[1..];
      ChildIsDeeper(h, c, k);
      var s := Subtree(h, order, k);
      var f := Forest(h, order, c, rest);
      SubtreeNoDup(h, order, k);
      forall i, j | 0 <= i < j < |rest| ensures rest[i] != rest[j] {
        assert rest[i] == kids[i + 1] && rest[j] == kids[j + 1];
      }
      ForestNoDup(h, order, c, rest);
      SubtreeMembers(h, order, k);
      NotOwnDescendant(h, k);
      NoDupConcat([k], s);
      forall d | d in [k] + s ensures d !in f {
        assert d in h && Under(h, k, d);
        ForestBranch(h, order, c, rest, d);
        forall i | 0 <= i < |rest| ensures !Under(h, rest[i], d) {
          BranchUnique(h, c, k, rest[i], d);
          assert rest[i] == kids[i + 1] != kids[0];
        }
      }
      NoDupConcat([k] + s, f);
      assert Forest(h, order, c, kids) == [k] + s + f;
    }
  }

  // ---------------------------------------------------------------------------
  // Writing a parent: the recursion constraint on the written category
  // ---------------------------------------------------------------------------

  /** The hierarchy after `parent` is written on category `c`. */
  function WithParent(h: Hierarchy, c: int, parent: Option<int>): (h2: Hierarchy)
    requires WellFormed(h) && c in h && (parent.Some? ==> parent.value in h)
    ensures WellFormed(h2) && h2.Keys == h.Keys && |h2| == |h|
  {
    h[c := h[c].(parent := parent)]
  }

  /** A walk that does not pass `c` is unaffected by a write on `c`. */
  lemma {:induction false} WalkAvoiding(h: Hierarchy, c: int, parent: Option<int>, x: int, n: nat)
    requires WellFormed(h) && c in h && (parent.Some? ==> parent.value in h) && x in h
    requires c !in Walk(h, x, n)
    ensures Walk(WithParent(h, c, parent), x, n) == Walk(h, x, n)
    decreases n
  {
    assert Walk(h, x, n)[0] == x;
    if n > 0 && h[x].parent.Some? {
      var p := h[x].parent.value;
      assert Walk(h, x, n) == [x] + Walk(h, p, n - 1);
      WalkAvoiding(h, c, parent, p, n - 1);
    }
  }

  /** Making `c` a child of itself or of one of its descendants closes a cycle
      through `c`, so the constraint refuses it. */
  lemma DescendantParentRefused(h: Hierarchy, c: int, p: int)
    requires WellFormed(h) && Acyclic(h) && c in h && p in h
    requires p == c || IsDescendant(h, c, p)
    ensures !ReachesRoot(WithParent(h, c, Some(p)), c)
  {
    var h2 := WithParent(h, c, Some(p));
    var u := Ancestry(h, p);
    var j := IndexOf(u, c);
    assert j < |h| by {
      assert ReachesRoot(h, p);
      DistinctBound(u, h.Keys);
    }
    assert Walk(h2, p, |h| - 1)[j] == c by {
      if j > 0 {
        ChainUpToKept(h, c, p, j);
      }
      WalkMono(h2, p, j, |h| - 1);
    }
    assert Walk(h2, c, |h|) == [c] + Walk(h2, p, |h| - 1) by {
      assert h2[c].parent == Some(p);
    }
    assert Ancestry(h2, c)[0] == Ancestry(h2, c)[j + 1];
  }

  /** Before the chain of `p` meets `c`, writing a parent on `c` leaves it unchanged. */
  lemma ChainUpToKept(h: Hierarchy, c: int, p: int, j: nat)
    requires WellFormed(h) && c in h && p in h && ReachesRoot(h, p)
    requires 0 < j < |Ancestry(h, p)| && Ancestry(h, p)[j] == c
    ensures |Walk(WithParent(h, c, Some(p)), p, j)| == j + 1
    ensures Walk(WithParent(h, c, Some(p)), p, j)[j] == c
  {
    var h2 := WithParent(h, c, Some(p));
    var u := Ancestry(h, p);
    var v := Walk(h, p, j - 1);
    WalkMono(h, p, j - 1, |h|);
    assert |v| == j;
    assert c !in v by {
      forall i | 0 <= i < |v| ensures v[i] != c {
        assert v[i] == u[i] != u[j];
      }
    }
    WalkAvoiding(h, c, Some(p), p, j - 1);
    assert v[j - 1] == u[j - 1] != c;
    WalkExtend(h2, p, j - 1);
  }

  /** Any other parent is accepted: the new chain of `c` is `c` followed by the
      chain of the new parent. */
  lemma OtherParentAccepted(h: Hierarchy, c: int, p: int)
    requires WellFormed(h) && Acyclic(h) && c in h && p in h
    requires p != c && !IsDescendant(h, c, p)
    ensures ReachesRoot(WithParent(h, c, Some(p)), c)
    ensures Ancestry(WithParent(h, c, Some(p)), c) == [c] + Ancestry(h, p)
  {
    var h2 := WithParent(h, c, Some(p));
    var u := Ancestry(h, p);
    assert ReachesRoot(h, p);
    assert c !in u by {
      assert u == [p] + u[1..];
    }
    UniqueChainAvoidingIsShort(h, c, p);
    ChainAvoidingKept(h, c, p);
    assert h2[c].parent == Some(p);
    assert Walk(h2, c, |h|) == [c] + Walk(h2, p, |h| - 1);
    NoDupConcat([c], u);
  }

  /** A chain that never meets `c` is unaffected by a write on `c`, and is short
      enough to fit below `c`. */
  lemma ChainAvoidingKept(h: Hierarchy, c: int, p: int)
    requires WellFormed(h) && c in h && p in h && |Ancestry(h, p)| < |h|
    requires c !in Ancestry(h, p)
    ensures Walk(WithParent(h, c, Some(p)), p, |h| - 1) == Ancestry(h, p)
  {
    var v := Walk(h, p, |h| - 1);
    ShortWalkIsAncestry(h, p);
    WalkAvoiding(h, c, Some(p), p, |h| - 1);
  }

  /** A chain shorter than the hierarchy is reached with one link less of fuel. */
  lemma ShortWalkIsAncestry(h: Hierarchy, p: int)
    requires WellFormed(h) && p in h && |Ancestry(h, p)| < |h|
    ensures Walk(h, p, |h| - 1) == Ancestry(h, p)
  {
    WalkEnoughFuel(h, p, |h| - 1, |h|);
  }

  /** A walk that ends within `n` links is the same with any fuel from `n` on. */
  lemma WalkEnoughFuel(h: Hierarchy, x: int, n: nat, m: nat)
    requires WellFormed(h) && x in h && n <= m && |Walk(h, x, m)| <= n
    ensures Walk(h, x, n) == Walk(h, x, m)
  {
    WalkMono(h, x, n, m);
  }

  lemma UniqueChainAvoidingIsShort(h: Hierarchy, c: int, p: int)
    requires WellFormed(h) && c in h && p in h && ReachesRoot(h, p) && c !in Ancestry(h, p)
    ensures |Ancestry(h, p)| < |h|
  {
    var u := Ancestry(h, p);
    forall i | 0 <= i < |u| ensures u[i] in h.Keys - {c} {
      assert u[i] in u;
    }
    DistinctBound(u, h.Keys - {c});
  }

  /** With no parent, `c` is a root. */
  lemma NoParentAccepted(h: Hierarchy, c: int)
    requires WellFormed(h) && c in h
    ensures ReachesRoot(WithParent(h, c, None), c)
  {
    var h2 := WithParent(h, c, None);
    assert Walk(h2, c, |h2|) == [c];
  }

  /** The position of `x` in `s`. */
  function IndexOf(s: seq<int>, x: int): (i: nat)
    requires x in s
    ensures i < |s| && s[i] == x && x !in s[..i]
  {
    if s[0] == x then 0 else 1 + IndexOf(s[1..], x)
  }

  /** A rank for the hierarchy after reparenting `c`: categories below `c` are ranked
      by their distance to `c` plus `top`; all others by their depth. */
  function RankAfter(h: Hierarchy, c: int, top: nat, x: int): nat
  {
    if WellFormed(h) && x in h then
      var w := Ancestry(h, x);
      if c in w then IndexOf(w, c) + top else |w| - 1
    else 0
  }

  /** When the constraint accepts the write, the whole hierarchy is still acyclic:
      checking the written category alone is enough. */
  lemma ReparentKeepsAcyclic(h: Hierarchy, c: int, parent: Option<int>)
    requires WellFormed(h) && Acyclic(h) && c in h && (parent.Some? ==> parent.value in h)
    requires ReachesRoot(WithParent(h, c, parent), c)
    ensures Acyclic(WithParent(h, c, parent))
  {
    var h2 := WithParent(h, c, parent);
    var top := |Ancestry(h2, c)|;
    var rank := x => RankAfter(h, c, top, x);
    forall x | x in h2 && h2[x].parent.Some? ensures rank(h2[x].parent.value) < rank(x) {
      RankDropsAtParent(h, c, parent, x);
    }
    RankedIsAcyclic(h2, rank);
  }

  /** After an accepted reparenting, the rank drops from every category to its
      parent. */
  lemma RankDropsAtParent(h: Hierarchy, c: int, parent: Option<int>, x: int)
    requires WellFormed(h) && Acyclic(h) && c in h && (parent.Some? ==> parent.value in h)
    requires ReachesRoot(WithParent(h, c, parent), c)
    requires x in WithParent(h, c, parent) && WithParent(h, c, parent)[x].parent.Some?
    ensures var h2 := WithParent(h, c, parent);
      var top := |Ancestry(h2, c)|;
      RankAfter(h, c, top, h2[x].parent.value) < RankAfter(h, c, top, x)
  {
    var h2 := WithParent(h, c, parent);
    if parent.Some? {
      var p := parent.value;
      if p == c || IsDescendant(h, c, p) {
        DescendantParentRefused(h, c, p);
      } else {
        OtherParentAccepted(h, c, p);
      }
    }
    var q := h2[x].parent.value;
    var w := Ancestry(h, x);
    assert w[0] == x;
    if x == c {
      OtherParentAccepted(h, c, q);
      assert IndexOf(w, c) == 0;
      assert c !in Ancestry(h, q) by {
        assert Ancestry(h, q)[0] == q;
        assert Ancestry(h, q) == [q] + Ancestry(h, q)[1..];
      }
    } else {
      assert ReachesRoot(h, q);
      ChildAncestry(h, x);
      assert w[1..] == Ancestry(h, q);
      if c in w {
        assert IndexOf(w, c) == 1 + IndexOf(Ancestry(h, q), c);
      }
    }
  }

  /** Writing a parent on `c` and running the recursion constraint on `c`: the
      write is refused exactly when it would make `c` its own ancestor. */
  method Reparent(h: Hierarchy, c: int, parent: Option<int>) returns (r: Result<Hierarchy, CategoryError>)
    requires WellFormed(h) && c in h && (parent.Some? ==> parent.value in h)
    ensures r.Ok? <==> ReachesRoot(WithParent(h, c, parent), c)
    ensures r.Ok? ==> r.value == WithParent(h, c, parent)
    ensures r.Err? ==> r.error == CycleError
    ensures Acyclic(h) ==>
      (r.Ok? <==> parent.None? || (parent.value != c && !IsDescendant(h, c, parent.value)))
    ensures Acyclic(h) && r.Ok? ==> Acyclic(r.value)
  {
    var h2 := WithParent(h, c, parent);
    var ok := CheckRecursion(h2, c);
    if ok {
      r := Ok(h2);
    } else {
      r := Err(CycleError);
    }
    if Acyclic(h) {
      match parent
      case None => NoParentAccepted(h, c);
      case Some(p) =>
        if p == c || IsDescendant(h, c, p) {
          DescendantParentRefused(h, c, p);
        } else {
          OtherParentAccepted(h, c, p);
        }
    }
    if Acyclic(h) && ok {
      ReparentKeepsAcyclic(h, c, parent);
    }
  }

  // ---------------------------------------------------------------------------
  // Creating a category: code uniqueness and the recursion constraint
  // ---------------------------------------------------------------------------

  /** No two stored categories share a code. */
  predicate CodesUnique(h: Hierarchy) {
    forall a, b :: a in h && b in h && a != b ==> h[a].code != h[b].code
  }

  predicate CodeTaken(h: Hierarchy, code: string) {
    exists a :: a in h && h[a].code == code
  }

  /** A rank for the hierarchy after a category is added: every stored category keeps
      its depth, the new one is ranked `top`. */
  function RankWithNew(h: Hierarchy, top: nat, x: int): nat
  {
    if WellFormed(h) && x in h then |Ancestry(h, x)| - 1 else top
  }

  /** Inserting a new category under an existing parent (or as a root) keeps an
      acyclic hierarchy acyclic. */
  lemma InsertKeepsAcyclic(h: Hierarchy, cat: Category)
    requires WellFormed(h) && Acyclic(h) && cat.id !in h
    requires cat.parent.Some? ==> cat.parent.value in h
    ensures WellFormed(h[cat.id := cat]) && Acyclic(h[cat.id := cat])
  {
    var h2 := h[cat.id := cat];
    var top := if cat.parent.Some? then |Ancestry(h, cat.parent.value)| else 0;
    var rank := x => RankWithNew(h, top, x);
    forall x | x in h2 && h2[x].parent.Some? ensures rank(h2[x].parent.value) < rank(x) {
      var q := h2[x].parent.value;
      if x != cat.id {
        ChildIsDeeper(h, q, x);
      }
    }
    RankedIsAcyclic(h2, rank);
  }

  /** Creating a category: the parent must exist (the foreign key), the code must be
      unused (the SQL constraint), and the recursion constraint runs on the new id. */
  method Create(h: Hierarchy, cat: Category) returns (r: Result<Hierarchy, CategoryError>)
    requires WellFormed(h) && cat.id !in h
    ensures r == Err(UnknownCategory) <==> cat.parent.Some? && cat.parent.value !in h
    ensures r == Err(DuplicateCode) <==>
      (cat.parent.Some? ==> cat.parent.value in h) && CodeTaken(h, cat.code)
    ensures r.Ok? ==> r.value == h[cat.id := cat] && cat.id in r.value
    ensures CodesUnique(h) && r.Ok? ==> CodesUnique(r.value)
    ensures Acyclic(h) ==> r != Err(CycleError)
    ensures Acyclic(h) && r.Ok? ==> WellFormed(r.value) && Acyclic(r.value)
  {
    if cat.parent.Some? && cat.parent.value !in h {
      return Err(UnknownCategory);
    }
    if CodeTaken(h, cat.code) {
      return Err(DuplicateCode);
    }
    var h2 := h[cat.id := cat];
    var ok := CheckRecursion(h2, cat.id);
    if Acyclic(h) {
      InsertKeepsAcyclic(h, cat);
    }
    if !ok {
      return Err(CycleError);
    }
    r := Ok(h2);
  }

  // ---------------------------------------------------------------------------
  // onchange_parent_id
  // ---------------------------------------------------------------------------

  /** What the form receives when a parent is chosen: the type to set on the record,
      and the parent field's domain (categories of `domainKind`, other than
      `excluded` when that is set). */
  datatype ParentSuggestion = ParentSuggestion(kind: CashType, domainKind: CashType, excluded: Option<int>)

  function OnchangeParent(h: Hierarchy, ids: seq<int>, parent: Option<int>): (r: Option<ParentSuggestion>)
    requires parent.Some? ==> parent.value in h
  {
    match parent
    case None => None
    case Some(p) =>
      Some(ParentSuggestion(h[p].kind, h[p].kind, if |ids| > 0 then Some(ids[0]) else None))
  }

  /** A category the parent field offers under the suggested domain. */
  predicate InParentDomain(h: Hierarchy, s: ParentSuggestion, candidate: int)
    requires candidate in h
  {
    h[candidate].kind == s.domainKind && Some(candidate) != s.excluded
  }

  /** Choosing a parent sets the record's type to the parent's type; afterwards the
      parent field offers exactly the categories of that type, never the record
      itself. Clearing the parent changes nothing. */
  lemma OnchangeParentSuggests(h: Hierarchy, ids: seq<int>, parent: Option<int>, candidate: int)
    requires parent.Some? ==> parent.value in h
    requires candidate in h
    ensures parent.None? <==> OnchangeParent(h, ids, parent).None?
    ensures parent.Some? ==> OnchangeParent(h, ids, parent).value.kind == h[parent.value].kind
    ensures parent.Some? ==>
      (InParentDomain(h, OnchangeParent(h, ids, parent).value, candidate) <==>
        h[candidate].kind == h[parent.value].kind && (|ids| > 0 ==> candidate != ids[0]))
  {
  }
}
