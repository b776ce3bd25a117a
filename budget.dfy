/** Budgets: an amount planned for one category over a closed period, the stored
    used / remaining amounts computed from the planned items in that scope, the
    trigger that tells which budgets a changed item affects, the constraints and the
    state buttons. */
module Budgets {
  import opened Wrappers
  import opened Dates
  import opened PlannedItems
  import Categories

  datatype BudgetState = Draft | Confirmed | Closed

  /** A stored budget. `used` and `remaining` are the stored computed fields; they
      are only as fresh as the last recomputation. */
  datatype Budget = Budget(
    id: int,
    name: string,
    category: Option<int>,
    periodStart: Option<Date>,
    periodEnd: Option<Date>,
    plannedAmount: int,
    used: int,
    remaining: int,
    state: BudgetState)

  predicate NoDup(s: seq<int>) {
    forall i, j :: 0 <= i < j < |s| ==> s[i] != s[j]
  }

  // ---------------------------------------------------------------------------
  // _compute_amounts
  // ---------------------------------------------------------------------------

  /** The budget has a category and both ends of its period. */
  predicate HasScope(b: Budget) {
    b.category.Some? && b.periodStart.Some? && b.periodEnd.Some?
  }

  /** `item` is in the budget's category and dated inside its closed period. */
  predicate Covers(b: Budget, item: PlannedItem) {
    HasScope(b) && item.category == b.category.value
    && InRange(item.plannedDate, b.periodStart.value, b.periodEnd.value)
  }

  /** `item` counts towards the budget's used amount: covered and not cancelled. */
  predicate Counts(b: Budget, item: PlannedItem) {
    Covers(b, item) && item.state != Cancelled
  }

  /** The sum of the absolute amounts of the items that count towards `b`. */
  function UsedAmount(b: Budget, items: seq<PlannedItem>): nat {
    if items == [] then 0
    else
      var last := items[|items| - 1];
      UsedAmount(b, items[..|items| - 1]) + (if Counts(b, last) then Abs(last.amount) else 0)
  }

  /** The stored amounts of `b` recomputed from `items`. */
  function Refreshed(b: Budget, items: seq<PlannedItem>): Budget {
    var used := UsedAmount(b, items);
    b.(used := used, remaining := b.plannedAmount - used)
  }

  /** The stored amounts of `b` agree with `items`. */
  predicate Fresh(b: Budget, items: seq<PlannedItem>) {
    b.used == UsedAmount(b, items) && b.remaining == b.plannedAmount - b.used
  }

  /** _compute_amounts for one budget: with a category and a period, add up the
      absolute amounts of the non-cancelled items of that category dated within the
      period (both ends included); remaining is planned minus used. */
  method ComputeAmounts(b: Budget, items: seq<PlannedItem>) returns (used: int, remaining: int)
    ensures used == UsedAmount(b, items)
    ensures remaining == b.plannedAmount - used
    ensures !HasScope(b) ==> used == 0 && remaining == b.plannedAmount
    ensures used >= 0
  {
    used := 0;
    remaining := b.plannedAmount;
    if HasScope(b) {
      var i := 0;
      while i < |items|
        invariant 0 <= i <= |items|
        invariant used == UsedAmount(b, items[..i])
      {
        var item := items[i];
        assert items[..i + 1][..i] == items[..i];
        if item.category == b.category.value
          && NotAfter(b.periodStart.value, item.plannedDate)
          && NotAfter(item.plannedDate, b.periodEnd.value)
          && item.state != Cancelled
        {
          if item.amount != 0 {
            used := used + Abs(item.amount);
          }
        }
        i := i + 1;
      }
      assert items[..|items|] == items;
    } else {
      UsedAmountWithoutScope(b, items);
    }
    remaining := b.plannedAmount - used;
  }

  /** Without a category or a complete period nothing counts. */
  lemma {:induction false} UsedAmountWithoutScope(b: Budget, items: seq<PlannedItem>)
    requires !HasScope(b)
    ensures UsedAmount(b, items) == 0
    decreases |items|
  {
    if items != [] {
      UsedAmountWithoutScope(b, items[..|items| - 1]);
    }
  }

  lemma {:induction false} UsedAmountConcat(b: Budget, xs: seq<PlannedItem>, ys: seq<PlannedItem>)
    ensures UsedAmount(b, xs + ys) == UsedAmount(b, xs) + UsedAmount(b, ys)
    decreases |ys|
  {
    if ys != [] {
      assert (xs + ys)[..|xs + ys| - 1] == xs + ys[..|ys| - 1];
      UsedAmountConcat(b, xs, ys[..|ys| - 1]);
    } else {
      assert xs + ys == xs;
    }
  }

  /** Items outside the budget's category or period, or cancelled, change nothing. */
  lemma {:induction false} UnrelatedItemsIgnored(b: Budget, items: seq<PlannedItem>, others: seq<PlannedItem>)
    requires forall k :: 0 <= k < |others| ==> !Counts(b, others[k])
    ensures UsedAmount(b, items + others) == UsedAmount(b, items)
    decreases |others|
  {
    UsedAmountConcat(b, items, others);
    NothingCounts(b, others);
  }

  lemma {:induction false} NothingCounts(b: Budget, others: seq<PlannedItem>)
    requires forall k :: 0 <= k < |others| ==> !Counts(b, others[k])
    ensures UsedAmount(b, others) == 0
    decreases |others|
  {
    if others != [] {
      NothingCounts(b, others[..|others| - 1]);
    }
  }

  /** The used amount does not depend on the order in which the search returns the
      items. */
  lemma {:induction false} UsedAmountPermutation(b: Budget, xs: seq<PlannedItem>, ys: seq<PlannedItem>)
    requires multiset(xs) == multiset(ys)
    ensures UsedAmount(b, xs) == UsedAmount(b, ys)
    decreases |xs|
  {
    if xs != [] {
      var x := xs[|xs| - 1];
      var rest := xs[..|xs| - 1];
      assert xs == rest + [x];
      assert x in multiset(ys);
      var k :| 0 <= k < |ys| && ys[k] == x;
      var ys' := ys[..k] + ys[k + 1..];
      RemoveOne(rest, x, ys, k);
      UsedAmountPermutation(b, rest, ys');
      UsedAmountWithout(b, ys, k);
    } else {
      assert |ys| == |multiset(ys)| == 0;
    }
  }

  lemma RemoveOne<T>(rest: seq<T>, x: T, ys: seq<T>, k: int)
    requires 0 <= k < |ys| && ys[k] == x && multiset(rest + [x]) == multiset(ys)
    ensures multiset(rest) == multiset(ys[..k] + ys[k + 1..])
  {
    assert ys == ys[..k] + [x] + ys[k + 1..];
    var a, l, r := multiset(rest), multiset(ys[..k]), multiset(ys[k + 1..]);
    assert a + multiset{x} == l + multiset{x} + r;
    forall z ensures a[z] == (l + r)[z] {
      assert (a + multiset{x})[z] == (l + multiset{x} + r)[z];
    }
  }

  lemma UsedAmountWithout(b: Budget, ys: seq<PlannedItem>, k: int)
    requires 0 <= k < |ys|
    ensures UsedAmount(b, ys) == UsedAmount(b, ys[..k] + ys[k + 1..]) + UsedAmount(b, [ys[k]])
  {
    assert ys == ys[..k] + [ys[k]] + ys[k + 1..];
    UsedAmountConcat(b, ys[..k] + [ys[k]], ys[k + 1..]);
    UsedAmountConcat(b, ys[..k], [ys[k]]);
    UsedAmountConcat(b, ys[..k], ys[k + 1..]);
  }

  /** An item dated exactly on the first or the last day of the period counts. */
  lemma PeriodEndsCount(b: Budget, items: seq<PlannedItem>, x: PlannedItem)
    requires HasScope(b) && x.category == b.category.value && x.state != Cancelled
    requires NotAfter(b.periodStart.value, b.periodEnd.value)
    requires x.plannedDate == b.periodStart.value || x.plannedDate == b.periodEnd.value
    ensures UsedAmount(b, items + [x]) == UsedAmount(b, items) + Abs(x.amount)
  {
    assert (items + [x])[..|items|] == items;
  }

  /** Planned 5000.00 against 7000.00 of payments in scope leaves -2000.00. */
  lemma OverspendExample()
    ensures
      var b := Budget(1, "Ops", Some(10), Some(Date(2025, 1, 1)), Some(Date(2025, 1, 31)), 500000, 0, 0, Confirmed);
      var x := PlannedItem(1, "A", Categories.Payment, Date(2025, 1, 1), None, 10, 400000, None, Medium, None, Planned, None, None);
      var y := PlannedItem(2, "B", Categories.Payment, Date(2025, 1, 31), None, 10, 300000, None, Medium, None, Paid, None, None);
      var z := PlannedItem(3, "C", Categories.Payment, Date(2025, 1, 15), None, 10, 900000, None, Medium, None, Cancelled, None, None);
      Refreshed(b, [x, y, z]).used == 700000 && Refreshed(b, [x, y, z]).remaining == -200000
  {
    var b := Budget(1, "Ops", Some(10), Some(Date(2025, 1, 1)), Some(Date(2025, 1, 31)), 500000, 0, 0, Confirmed);
    var x := PlannedItem(1, "A", Categories.Payment, Date(2025, 1, 1), None, 10, 400000, None, Medium, None, Planned, None, None);
    var y := PlannedItem(2, "B", Categories.Payment, Date(2025, 1, 31), None, 10, 300000, None, Medium, None, Paid, None, None);
    var z := PlannedItem(3, "C", Categories.Payment, Date(2025, 1, 15), None, 10, 900000, None, Medium, None, Cancelled, None, None);
    assert [x, y, z][..2] == [x, y] && [x, y][..1] == [x] && [x][..0] == [];
    assert UsedAmount(b, [x]) == 400000;
    assert UsedAmount(b, [x, y]) == 700000;
  }

  // ---------------------------------------------------------------------------
  // _get_budget_ids_from_planned_items
  // ---------------------------------------------------------------------------

  /** A budget the trigger returns for a changed item: it covers the item, whatever
      the item's state. Everything that counts is covered. */
  lemma CountsIsCoveredAndNotCancelled(b: Budget, item: PlannedItem)
    ensures Counts(b, item) <==> Covers(b, item) && item.state != Cancelled
    ensures !Covers(b, item) ==> UsedAmount(b, [item]) == 0
  {
    assert [item][..0] == [];
  }

  /** The ids of the budgets covering a changed item whose search does not raise;
      none when the item model is not loaded yet. */
  function AffectedIds(budgets: seq<Budget>, changed: seq<PlannedItem>, registryReady: bool, failing: set<int>)
    : set<int>
  {
    if !registryReady then {}
    else
      set j, k | 0 <= j < |budgets| && 0 <= k < |changed| && changed[k].id !in failing
                 && Covers(budgets[j], changed[k]) :: budgets[j].id
  }

  /** The ids of the budgets to recompute when `changed` items are written: for each
      item, the budgets of its category whose period covers its date, without
      duplicates. A search that raises for an item (`failing`) skips that item; when
      the item model is not loaded yet (`registryReady` false) the result is empty. */
  method AffectedBudgets(budgets: seq<Budget>, changed: seq<PlannedItem>, registryReady: bool, failing: set<int>)
    returns (r: seq<int>)
    ensures NoDup(r)
    ensures forall id :: id in r <==> id in AffectedIds(budgets, changed, registryReady, failing)
    ensures !registryReady ==> r == []
    ensures registryReady ==> forall id :: id in r <==>
      exists j, k :: 0 <= j < |budgets| && 0 <= k < |changed| && budgets[j].id == id
        && changed[k].id !in failing && Covers(budgets[j], changed[k])
  {
    if !registryReady {
      return [];
    }
    var found: seq<int> := [];
    var k := 0;
    while k < |changed|
      invariant 0 <= k <= |changed|
      invariant NoDup(found)
      invariant forall id :: id in found <==>
        exists j, k' :: 0 <= j < |budgets| && 0 <= k' < k && budgets[j].id == id
          && changed[k'].id !in failing && Covers(budgets[j], changed[k'])
    {
      var item := changed[k];
      if item.id !in failing {
        var j := 0;
        while j < |budgets|
          invariant 0 <= j <= |budgets|
          invariant NoDup(found)
          invariant forall id :: id in found <==>
            (exists j', k' :: 0 <= j' < |budgets| && 0 <= k' < k && budgets[j'].id == id
              && changed[k'].id !in failing && Covers(budgets[j'], changed[k']))
            || (exists j' :: 0 <= j' < j && budgets[j'].id == id && Covers(budgets[j'], item))
        {
          if Covers(budgets[j], item) && budgets[j].id !in found {
            found := found + [budgets[j].id];
          }
          j := j + 1;
        }
      }
      k := k + 1;
    }
    r := found;
  }

  // ---------------------------------------------------------------------------
  // Constraints
  // ---------------------------------------------------------------------------

  datatype BudgetError = PeriodReversed | PlannedNotPositive

  /** The constraint messages a stored budget raises. */
  function Violations(b: Budget): (errs: set<BudgetError>)
    ensures PeriodReversed in errs <==>
      b.periodStart.Some? && b.periodEnd.Some? && Before(b.periodEnd.value, b.periodStart.value)
    ensures PlannedNotPositive in errs <==> b.plannedAmount <= 0
  {
    (if b.periodStart.Some? && b.periodEnd.Some? && Before(b.periodEnd.value, b.periodStart.value)
     then {PeriodReversed} else {})
      + (if b.plannedAmount <= 0 then {PlannedNotPositive} else {})
  }

  /** A budget that passes the constraints has a non-empty period, and its remaining
      amount is below the planned amount exactly when something counts. */
  lemma ValidBudgetShape(b: Budget, items: seq<PlannedItem>)
    requires Violations(b) == {} && HasScope(b)
    ensures InRange(b.periodStart.value, b.periodStart.value, b.periodEnd.value)
    ensures InRange(b.periodEnd.value, b.periodStart.value, b.periodEnd.value)
    ensures Refreshed(b, items).remaining <= b.plannedAmount
    ensures Refreshed(b, items).remaining < b.plannedAmount <==> UsedAmount(b, items) > 0
  {
    assert PeriodReversed !in Violations(b);
  }

  // ---------------------------------------------------------------------------
  // The stored budgets
  // ---------------------------------------------------------------------------

  /** The values a write on budgets puts in place: a state button, a planned amount
      or a period. */
  datatype BudgetWrite = SetStateTo(newState: BudgetState) | SetPlannedTo(amount: int) | SetPeriodTo(start: Date, end: Date)

  function Apply(b: Budget, w: BudgetWrite): Budget {
    match w
    case SetStateTo(s) => b.(state := s)
    case SetPlannedTo(a) => b.(plannedAmount := a)
    case SetPeriodTo(start, end) => b.(periodStart := Some(start), periodEnd := Some(end))
  }

  /** The store after the write `w` on the budgets whose id is in `ids`: those take
      the written values, every other budget stays as it was. */
  function BudgetsWritten(budgets: seq<Budget>, ids: set<int>, w: BudgetWrite): (r: seq<Budget>)
    ensures |r| == |budgets|
    ensures forall i :: 0 <= i < |budgets| ==>
      r[i] == if budgets[i].id in ids then Apply(budgets[i], w) else budgets[i]
  {
    if budgets == [] then []
    else
      var last := budgets[|budgets| - 1];
      BudgetsWritten(budgets[..|budgets| - 1], ids, w) + [if last.id in ids then Apply(last, w) else last]
  }

  /** Every stored budget passes the constraints. */
  predicate AllValid(budgets: seq<Budget>) {
    forall i :: 0 <= i < |budgets| ==> Violations(budgets[i]) == {}
  }

  /** The constraint messages a write on `ids` raises, once the written values are in
      place: each constraint is checked on every written budget. */
  function WriteErrors(budgets: seq<Budget>, ids: set<int>): (errs: set<BudgetError>)
    ensures forall e :: e in errs <==>
      exists i :: 0 <= i < |budgets| && budgets[i].id in ids && e in Violations(budgets[i])
  {
    if budgets == [] then {}
    else
      var last := budgets[|budgets| - 1];
      WriteErrors(budgets[..|budgets| - 1], ids) + (if last.id in ids then Violations(last) else {})
  }

  /** The ORM's check after a write: runs both constraints over the written budgets
      and collects the message of each one that fails. */
  method ValidateWrite(budgets: seq<Budget>, ids: set<int>) returns (errs: set<BudgetError>)
    ensures errs == WriteErrors(budgets, ids)
  {
    errs := {};
    var i := 0;
    while i < |budgets|
      invariant 0 <= i <= |budgets|
      invariant errs == WriteErrors(budgets[..i], ids)
    {
      assert budgets[..i + 1][..i] == budgets[..i];
      if budgets[i].id in ids {
        errs := errs + Violations(budgets[i]);
      }
      i := i + 1;
    }
    assert budgets[..|budgets|] == budgets;
  }

  /** On a store that passes the constraints, writing a planned amount fails exactly
      when the amount is not positive and some budget is selected. */
  lemma AmountWriteErrors(budgets: seq<Budget>, ids: set<int>, amount: int)
    requires AllValid(budgets)
    ensures WriteErrors(BudgetsWritten(budgets, ids, SetPlannedTo(amount)), ids)
      == if amount <= 0 && exists i :: 0 <= i < |budgets| && budgets[i].id in ids then {PlannedNotPositive} else {}
  {
    var w := BudgetsWritten(budgets, ids, SetPlannedTo(amount));
    forall i | 0 <= i < |budgets| && budgets[i].id in ids
      ensures Violations(w[i]) == if amount <= 0 then {PlannedNotPositive} else {}
    {
      assert PeriodReversed !in Violations(budgets[i]);
    }
  }

  /** On a store that passes the constraints, writing a period fails exactly when the
      end comes before the start and some budget is selected. */
  lemma PeriodWriteErrors(budgets: seq<Budget>, ids: set<int>, start: Date, end: Date)
    requires AllValid(budgets)
    ensures WriteErrors(BudgetsWritten(budgets, ids, SetPeriodTo(start, end)), ids)
      == if Before(end, start) && exists i :: 0 <= i < |budgets| && budgets[i].id in ids then {PeriodReversed} else {}
  {
    var w := BudgetsWritten(budgets, ids, SetPeriodTo(start, end));
    forall i | 0 <= i < |budgets| && budgets[i].id in ids
      ensures Violations(w[i]) == if Before(end, start) then {PeriodReversed} else {}
    {
      assert PlannedNotPositive !in Violations(budgets[i]);
    }
  }

  /** The constraints do not read the state, so on a store that passes them a state
      button never fails and keeps the store valid. */
  lemma StateWriteKeepsValid(budgets: seq<Budget>, ids: set<int>, s: BudgetState)
    requires AllValid(budgets)
    ensures WriteErrors(BudgetsWritten(budgets, ids, SetStateTo(s)), ids) == {}
    ensures AllValid(BudgetsWritten(budgets, ids, SetStateTo(s)))
  {
    var w := BudgetsWritten(budgets, ids, SetStateTo(s));
    forall i | 0 <= i < |budgets| ensures Violations(w[i]) == {} {
      assert Violations(w[i]) == Violations(budgets[i]);
    }
  }

  /** A state button changes the state of the selected budgets and nothing else, so
      the stored amounts stay as fresh as they were. */
  lemma StateWriteKeepsAmounts(budgets: seq<Budget>, ids: set<int>, s: BudgetState, items: seq<PlannedItem>, i: int)
    requires 0 <= i < |budgets|
    ensures BudgetsWritten(budgets, ids, SetStateTo(s))[i].(state := budgets[i].state) == budgets[i]
    ensures budgets[i].id in ids ==> BudgetsWritten(budgets, ids, SetStateTo(s))[i].state == s
    ensures Fresh(budgets[i], items) ==> Fresh(BudgetsWritten(budgets, ids, SetStateTo(s))[i], items)
  {
    var b := budgets[i];
    var b' := BudgetsWritten(budgets, ids, SetStateTo(s))[i];
    if b.id in ids {
      assert HasScope(b') == HasScope(b);
      UsedAmountIgnoresState(b, b', items);
    }
  }

  /** The used amount depends on a budget's category and period only. */
  lemma {:induction false} UsedAmountIgnoresState(b: Budget, b': Budget, items: seq<PlannedItem>)
    requires b.category == b'.category && b.periodStart == b'.periodStart && b.periodEnd == b'.periodEnd
    ensures UsedAmount(b, items) == UsedAmount(b', items)
    decreases |items|
  {
    if items != [] {
      UsedAmountIgnoresState(b, b', items[..|items| - 1]);
    }
  }

  /** The budgets as stored, with the state buttons and the writes that trigger (or,
      for the period, fail to trigger) a recomputation of the stored amounts. */
  class BudgetStore {
    var budgets: seq<Budget>

    constructor(initial: seq<Budget>)
      ensures budgets == initial
    {
      budgets := initial;
    }

    method SetState(ids: set<int>, s: BudgetState)
      modifies this
      ensures budgets == BudgetsWritten(old(budgets), ids, SetStateTo(s))
    {
      var i := 0;
      var result: seq<Budget> := [];
      while i < |budgets|
        invariant 0 <= i <= |budgets|
        invariant |result| == i
        invariant forall j :: 0 <= j < i ==>
          result[j] == if budgets[j].id in ids then Apply(budgets[j], SetStateTo(s)) else budgets[j]
      {
        var b := budgets[i];
        result := result + [if b.id in ids then Apply(b, SetStateTo(s)) else b];
        i := i + 1;
      }
      budgets := result;
    }

    /** action_confirm */
    method Confirm(ids: set<int>)
      modifies this
      ensures budgets == BudgetsWritten(old(budgets), ids, SetStateTo(Confirmed))
    {
      SetState(ids, Confirmed);
    }

    /** action_close */
    method Close(ids: set<int>)
      modifies this
      ensures budgets == BudgetsWritten(old(budgets), ids, SetStateTo(Closed))
    {
      SetState(ids, Closed);
    }

    /** action_reopen: back to confirmed. */
    method Reopen(ids: set<int>)
      modifies this
      ensures budgets == BudgetsWritten(old(budgets), ids, SetStateTo(Confirmed))
    {
      SetState(ids, Confirmed);
    }

    /** action_set_to_draft */
    method SetToDraft(ids: set<int>)
      modifies this
      ensures budgets == BudgetsWritten(old(budgets), ids, SetStateTo(Draft))
    {
      SetState(ids, Draft);
    }

    /** Recomputes the stored amounts of the budgets whose id is in `ids`. */
    method Recompute(ids: set<int>, items: seq<PlannedItem>)
      modifies this
      ensures |budgets| == |old(budgets)|
      ensures forall i :: 0 <= i < |budgets| ==>
        budgets[i] == if old(budgets)[i].id in ids then Refreshed(old(budgets)[i], items) else old(budgets)[i]
    {
      var i := 0;
      var result: seq<Budget> := [];
      var current := budgets;
      while i < |current|
        invariant 0 <= i <= |current|
        invariant |result| == i
        invariant forall j :: 0 <= j < i ==>
          result[j] == if current[j].id in ids then Refreshed(current[j], items) else current[j]
      {
        var b := current[i];
        if b.id in ids {
          var used, remaining := ComputeAmounts(b, items);
          b := b.(used := used, remaining := remaining);
        }
        result := result + [b];
        i := i + 1;
      }
      budgets := result;
    }

    /** The write loop of the ORM: the selected budgets take the written values. */
    method WriteValues(ids: set<int>, w: BudgetWrite)
      modifies this
      ensures budgets == BudgetsWritten(old(budgets), ids, w)
    {
      var i := 0;
      var result: seq<Budget> := [];
      while i < |budgets|
        invariant 0 <= i <= |budgets|
        invariant |result| == i
        invariant forall j :: 0 <= j < i ==>
          result[j] == if budgets[j].id in ids then Apply(budgets[j], w) else budgets[j]
      {
        var b := budgets[i];
        result := result + [if b.id in ids then Apply(b, w) else b];
        i := i + 1;
      }
      budgets := result;
    }

    /** Writing the planned amount. When a written budget fails a constraint the
        write raises and is rolled back; otherwise the budget's own trigger
        recomputes the written budgets, which are then fresh. */
    method WritePlannedAmount(ids: set<int>, amount: int, items: seq<PlannedItem>) returns (errs: set<BudgetError>)
      modifies this
      ensures errs == WriteErrors(BudgetsWritten(old(budgets), ids, SetPlannedTo(amount)), ids)
      ensures errs != {} ==> budgets == old(budgets)
      ensures errs == {} ==> |budgets| == |old(budgets)| && forall i :: 0 <= i < |budgets| ==>
        budgets[i] == if old(budgets)[i].id in ids
          then Refreshed(old(budgets)[i].(plannedAmount := amount), items) else old(budgets)[i]
      ensures errs == {} ==> forall i :: 0 <= i < |budgets| && budgets[i].id in ids ==> Fresh(budgets[i], items)
      ensures AllValid(old(budgets)) ==> AllValid(budgets)
    {
      var before := budgets;
      WriteValues(ids, SetPlannedTo(amount));
      errs := ValidateWrite(budgets, ids);
      if errs != {} {
        budgets := before;
        return;
      }
      ghost var written := budgets;
      Recompute(ids, items);
      forall i | 0 <= i < |budgets| && budgets[i].id in ids ensures Fresh(budgets[i], items) {
        RefreshedIsFresh(written[i], items);
      }
    }

    /** Writing the period. When a written budget fails a constraint the write
        raises and is rolled back. Otherwise the period is stored, but the budget's
        trigger only watches the planned amount, so the stored used and remaining
        amounts are left as they were. */
    method WritePeriod(ids: set<int>, start: Date, end: Date) returns (errs: set<BudgetError>)
      modifies this
      ensures errs == WriteErrors(BudgetsWritten(old(budgets), ids, SetPeriodTo(start, end)), ids)
      ensures errs != {} ==> budgets == old(budgets)
      ensures errs == {} ==> budgets == BudgetsWritten(old(budgets), ids, SetPeriodTo(start, end))
      ensures AllValid(old(budgets)) ==> AllValid(budgets)
    {
      var before := budgets;
      WriteValues(ids, SetPeriodTo(start, end));
      errs := ValidateWrite(budgets, ids);
      if errs != {} {
        budgets := before;
      }
    }

    /** A write on planned items: the budgets the trigger returns are recomputed from
        the items as they now are; every other budget keeps its stored values. */
    method ItemsChanged(items: seq<PlannedItem>, changed: seq<PlannedItem>, registryReady: bool, failing: set<int>)
      modifies this
      ensures |budgets| == |old(budgets)|
      ensures forall i :: 0 <= i < |budgets| ==>
        budgets[i] == if old(budgets)[i].id in AffectedIds(old(budgets), changed, registryReady, failing)
          then Refreshed(old(budgets)[i], items) else old(budgets)[i]
      ensures registryReady && failing == {} ==>
        forall i, k :: 0 <= i < |budgets| && 0 <= k < |changed| && Covers(old(budgets)[i], changed[k])
          ==> budgets[i] == Refreshed(old(budgets)[i], items)
    {
      var affected := AffectedBudgets(budgets, changed, registryReady, failing);
      var ids := set x | x in affected;
      Recompute(ids, items);
    }

    /** A write on planned items with the trigger as the source writes it: its budget
        search fails for every changed item, so no budget is recomputed. */
    method ItemsChangedAsWritten(items: seq<PlannedItem>, changed: seq<PlannedItem>, registryReady: bool)
      modifies this
      ensures budgets == old(budgets)
    {
      TriggerAsWrittenFindsNothing(budgets, changed, registryReady);
      ItemsChanged(items, changed, registryReady, SearchFailuresAsWritten(changed));
    }
  }

  /** The items whose budget search raises in the trigger as the source writes it.
      OpenERP 7 calls a store trigger with `self` bound to the model being written,
      here the planned items, so `self.search` runs the budget domain against planned
      items. They have no `period_start` or `period_end` field, the domain is
      refused, and the handler skips the item. A planned item always has a category
      and a planned date, so every changed item is searched. */
  function SearchFailuresAsWritten(changed: seq<PlannedItem>): (failing: set<int>)
    ensures forall k :: 0 <= k < |changed| ==> changed[k].id in failing
  {
    set k | 0 <= k < |changed| :: changed[k].id
  }

  /** As written, the trigger returns no budget at all. */
  lemma TriggerAsWrittenFindsNothing(budgets: seq<Budget>, changed: seq<PlannedItem>, registryReady: bool)
    ensures AffectedIds(budgets, changed, registryReady, SearchFailuresAsWritten(changed)) == {}
  {
  }

  /** A payment of 2000.00 in a budget's category and period, written with the
      trigger as written, leaves the budget's stored used amount at 0, which is
      stale; the intended trigger selects the budget, and refreshing it gives the
      fresh amounts. */
  lemma StaleAmountsExample()
    ensures
      var b := Budget(1, "Ops", Some(10), Some(Date(2025, 1, 1)), Some(Date(2025, 1, 31)), 500000, 0, 500000, Confirmed);
      var x := NewItem(1, "Rent", Categories.Payment, Date(2025, 1, 15), 10, 200000, None, None);
      AffectedIds([b], [x], true, SearchFailuresAsWritten([x])) == {}
      && 1 in AffectedIds([b], [x], true, {})
      && !Fresh(b, [x])
      && Refreshed(b, [x]).used == 200000 && Refreshed(b, [x]).remaining == 300000
  {
    var b := Budget(1, "Ops", Some(10), Some(Date(2025, 1, 1)), Some(Date(2025, 1, 31)), 500000, 0, 500000, Confirmed);
    var x := NewItem(1, "Rent", Categories.Payment, Date(2025, 1, 15), 10, 200000, None, None);
    TriggerAsWrittenFindsNothing([b], [x], true);
    assert Counts(b, x);
    CountsIsCoveredAndNotCancelled(b, x);
    assert UsedAmount(b, [x]) == 200000 by {
      assert [x][..0] == [];
    }
    assert Covers([b][0], [x][0]);
  }

  lemma RefreshedIsFresh(b: Budget, items: seq<PlannedItem>)
    ensures Fresh(Refreshed(b, items), items)
  {
    UsedAmountIgnoresState(b, Refreshed(b, items), items);
  }
}
