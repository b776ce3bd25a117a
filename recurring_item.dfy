/** Recurring items: a schedule (daily, weekly, monthly or yearly, every N units, from
    a start date up to an optional end date) from which planned items are generated,
    by hand or by the periodic sweep. */
module RecurringItems {
  import opened Wrappers
  import opened Dates
  import opened PlannedItems
  import Categories

  type CashType = Categories.CashType

  /** `Unset` stands for a recurrence type outside the four known ones. */
  datatype RecurrenceType = Daily | Weekly | Monthly | Yearly | Unset

  datatype RecurringState = Active | Suspended | Expired

  /** A stored recurring item. `interval` 0 stands for an unset interval. */
  datatype RecurringItem = RecurringItem(
    id: int,
    name: string,
    kind: CashType,
    category: int,
    amount: int,
    currency: Option<Currency>,
    partner: Option<int>,
    recurrence: RecurrenceType,
    interval: int,
    startDate: Date,
    endDate: Option<Date>,
    autoGenerate: bool,
    daysInAdvance: int,
    state: RecurringState)

  /** The signed amount of a recurring item: positive for income, negative for
      payments, and the same as that of every planned item generated from it. */
  function RecurringSignedAmount(item: RecurringItem): (s: int)
    ensures Abs(s) == Abs(item.amount)
    ensures item.kind == Categories.Payment ==> s < 0 || item.amount == 0
    ensures item.kind == Categories.Income ==> s > 0 || item.amount == 0
    ensures forall date, id :: SignedAmount(FromRecurring(item, date, id)) == s
  {
    SignOf(item.kind, item.amount)
  }

  // ---------------------------------------------------------------------------
  // _compute_next_date
  // ---------------------------------------------------------------------------

  /** One recurrence step from `d`: `n` days, `n` weeks, or `n` calendar months or
      years (the day of the month clamped to the target month). */
  function Step(d: Date, rt: RecurrenceType, n: int): (r: Date)
    requires Valid(d) && rt != Unset
    ensures Valid(r)
  {
    match rt
    case Daily => AddDays(d, n)
    case Weekly => AddDays(d, 7 * n)
    case Monthly => AddMonths(d, n)
    case Yearly => AddYears(d, n)
  }

  /** A positive interval always moves the series forward. */
  lemma StepForward(d: Date, rt: RecurrenceType, n: int)
    requires Valid(d) && rt != Unset && n >= 1
    ensures Before(d, Step(d, rt, n))
  {
    match rt
    case Daily =>
    case Weekly =>
    case Monthly => AddMonthsForward(d, n);
    case Yearly => AddYearsForward(d, n);
  }

  /** The date `k` steps after `d`, each step taken from the previous date. */
  function Iterate(d: Date, rt: RecurrenceType, n: int, k: nat): (r: Date)
    requires Valid(d) && rt != Unset
    ensures Valid(r)
  {
    if k == 0 then d else Step(Iterate(d, rt, n, k - 1), rt, n)
  }

  /** A number that grows with calendar order on valid dates. */
  function Ordinal(d: Date): int {
    d.year * 500 + d.month * 32 + d.day
  }

  lemma OrdinalMonotone(a: Date, b: Date)
    requires Valid(a) && Valid(b)
    ensures Before(a, b) ==> Ordinal(a) < Ordinal(b)
    ensures NotAfter(a, b) ==> Ordinal(a) <= Ordinal(b)
  {
    if a.year < b.year {
      assert a.year * 500 + 500 <= b.year * 500;
    }
  }

  /** The first date of the series starting at `d` that falls after `today`; a
      series of unknown type does not move. */
  function AdvancePast(d: Date, rt: RecurrenceType, n: int, today: Date): Date
    requires Valid(d) && Valid(today) && n >= 1
    decreases Ordinal(today) - Ordinal(d)
  {
    if rt == Unset || Before(today, d) then d
    else
      OrdinalMonotone(d, today);
      StepForward(d, rt, n);
      OrdinalMonotone(d, Step(d, rt, n));
      AdvancePast(Step(d, rt, n), rt, n, today)
  }

  /** The interval the computation uses: an unset (zero) interval counts as one. */
  function EffectiveInterval(item: RecurringItem): (n: int)
    requires item.interval >= 0
    ensures n >= 1
    ensures item.interval >= 1 ==> n == item.interval
  {
    if item.interval == 0 then 1 else item.interval
  }

  /** The next generation date: none unless the item is active; otherwise the first
      date of the series after today, unless that is past the end date. */
  function NextDate(item: RecurringItem, today: Date): Option<Date>
    requires Valid(item.startDate) && Valid(today) && item.interval >= 0
  {
    if item.state != Active then None
    else
      var candidate := AdvancePast(item.startDate, item.recurrence, EffectiveInterval(item), today);
      if item.endDate.Some? && Before(item.endDate.value, candidate) then None else Some(candidate)
  }

  /** _compute_next_date for one item: steps the date forward from the start until it
      is after today, then applies the end date. */
  method ComputeNextDate(item: RecurringItem, today: Date) returns (next: Option<Date>)
    requires Valid(item.startDate) && Valid(today) && item.interval >= 0
    ensures next == NextDate(item, today)
    ensures next.Some? ==> item.state == Active
    ensures next.Some? && item.endDate.Some? ==> NotAfter(next.value, item.endDate.value)
  {
    next := None;
    if item.state == Active {
      var interval := if item.interval == 0 then 1 else item.interval;
      var d := item.startDate;
      while NotAfter(d, today)
        invariant Valid(d)
        invariant AdvancePast(d, item.recurrence, interval, today)
          == AdvancePast(item.startDate, item.recurrence, interval, today)
        decreases Ordinal(today) - Ordinal(d)
      {
        var prev := d;
        match item.recurrence {
          case Daily => d := AddDays(d, interval);
          case Weekly => d := AddDays(d, 7 * interval);
          case Monthly => d := AddMonths(d, interval);
          case Yearly => d := AddYears(d, interval);
          case Unset => break;
        }
        assert d == Step(prev, item.recurrence, interval);
        StepForward(prev, item.recurrence, interval);
        OrdinalMonotone(prev, today);
        OrdinalMonotone(prev, d);
      }
      if item.endDate.Some? && Before(item.endDate.value, d) {
        next := None;
      } else {
        next := Some(d);
      }
    }
  }

  /** The date AdvancePast returns is the first of the series after today: it is `k`
      steps from the start, every earlier step is on or before today, and (for a
      known recurrence type) it is after today. */
  lemma {:induction false} AdvancePastIsFirstAfter(d: Date, rt: RecurrenceType, n: int, today: Date)
    returns (k: nat)
    requires Valid(d) && Valid(today) && n >= 1 && rt != Unset
    ensures AdvancePast(d, rt, n, today) == Iterate(d, rt, n, k)
    ensures Before(today, Iterate(d, rt, n, k))
    ensures forall j :: 0 <= j < k ==> NotAfter(Iterate(d, rt, n, j), today)
    decreases Ordinal(today) - Ordinal(d)
  {
    if Before(today, d) {
      k := 0;
    } else {
      var s := Step(d, rt, n);
      OrdinalMonotone(d, today);
      StepForward(d, rt, n);
      OrdinalMonotone(d, s);
      var k' := AdvancePastIsFirstAfter(s, rt, n, today);
      k := k' + 1;
      IterateShift(d, rt, n, k');
      forall j | 0 <= j < k ensures NotAfter(Iterate(d, rt, n, j), today) {
        if j > 0 {
          IterateShift(d, rt, n, j - 1);
        }
      }
    }
  }

  /** Stepping once and then `j` times is stepping `j + 1` times. */
  lemma {:induction false} IterateShift(d: Date, rt: RecurrenceType, n: int, j: nat)
    requires Valid(d) && rt != Unset
    ensures Iterate(Step(d, rt, n), rt, n, j) == Iterate(d, rt, n, j + 1)
  {
    if j > 0 {
      IterateShift(d, rt, n, j - 1);
    }
  }

  /** A start after today is its own next date; an unknown recurrence type never
      moves the start. */
  lemma AdvancePastFixedPoints(d: Date, rt: RecurrenceType, n: int, today: Date)
    requires Valid(d) && Valid(today) && n >= 1
    ensures Before(today, d) ==> AdvancePast(d, rt, n, today) == d
    ensures rt == Unset ==> AdvancePast(d, rt, n, today) == d
  {
  }

  /** A monthly series from 2025-10-01 seen on 2025-10-15 is next due on 2025-11-01. */
  lemma NextDateMonthlyExample()
    ensures NextDate(Sample(Monthly, Date(2025, 10, 1), None), Date(2025, 10, 15)) == Some(Date(2025, 11, 1))
  {
    MonthEndClampExamples();
    assert Step(Date(2025, 10, 1), Monthly, 1) == Date(2025, 11, 1);
  }

  /** A series whose start and end date are the same past day has no next date. */
  lemma NextDateExpiredExample()
    ensures NextDate(Sample(Monthly, Date(2025, 1, 1), Some(Date(2025, 1, 1))), Date(2025, 10, 15)) == None
  {
    var k := AdvancePastIsFirstAfter(Date(2025, 1, 1), Monthly, 1, Date(2025, 10, 15));
  }

  /** Each monthly step is taken from the previous date, so a series from a 31st keeps
      the day it was clamped to: 2025-01-31, 2025-02-28, 2025-03-28. */
  lemma NextDateClampExample()
    ensures NextDate(Sample(Monthly, Date(2025, 1, 31), None), Date(2025, 3, 15)) == Some(Date(2025, 3, 28))
  {
    MonthEndClampExamples();
    assert Step(Date(2025, 1, 31), Monthly, 1) == Date(2025, 2, 28);
    assert AddMonths(Date(2025, 2, 28), 1) == Date(2025, 3, 28);
    assert Step(Date(2025, 2, 28), Monthly, 1) == Date(2025, 3, 28);
  }

  function Sample(rt: RecurrenceType, start: Date, end: Option<Date>): RecurringItem {
    RecurringItem(1, "Rent", Categories.Payment, 7, 100000, None, None, rt, 1, start, end, true, 0, Active)
  }

  // ---------------------------------------------------------------------------
  // Constraints
  // ---------------------------------------------------------------------------

  datatype RecurringError = EndBeforeStart | NonPositiveAmount | IntervalBelowOne

  function Violations(item: RecurringItem): (errs: set<RecurringError>)
    ensures EndBeforeStart in errs <==> item.endDate.Some? && Before(item.endDate.value, item.startDate)
    ensures NonPositiveAmount in errs <==> item.amount <= 0
    ensures IntervalBelowOne in errs <==> item.interval < 1
  {
    (if item.endDate.Some? && Before(item.endDate.value, item.startDate) then {EndBeforeStart} else {})
      + (if item.amount <= 0 then {NonPositiveAmount} else {})
      + (if item.interval < 1 then {IntervalBelowOne} else {})
  }

  /** An active item that passes the constraints and whose end date is still ahead
      always has a next date, and it lies between today (exclusive) and the end. */
  lemma ValidItemHasNextDate(item: RecurringItem, today: Date)
    requires Valid(item.startDate) && Valid(today) && Violations(item) == {}
    requires item.state == Active && item.recurrence != Unset
    requires item.endDate.None?
    ensures NextDate(item, today).Some?
    ensures Before(today, NextDate(item, today).value)
    ensures NotAfter(item.startDate, NextDate(item, today).value)
  {
    assert IntervalBelowOne !in Violations(item);
    var k := AdvancePastIsFirstAfter(item.startDate, item.recurrence, item.interval, today);
    IterateNotBefore(item.startDate, item.recurrence, item.interval, k);
  }

  /** The series never goes back before its start. */
  lemma {:induction false} IterateNotBefore(d: Date, rt: RecurrenceType, n: int, k: nat)
    requires Valid(d) && rt != Unset && n >= 1
    ensures NotAfter(d, Iterate(d, rt, n, k))
  {
    if k > 0 {
      IterateNotBefore(d, rt, n, k - 1);
      StepForward(Iterate(d, rt, n, k - 1), rt, n);
    }
  }

  // ---------------------------------------------------------------------------
  // Generation
  // ---------------------------------------------------------------------------

  /** The planned item generated from `item` on `date`: name, type, category,
      amount, currency and partner copied; planned, medium priority. */
  function FromRecurring(item: RecurringItem, date: Date, id: int): (p: PlannedItem)
    ensures p.id == id && p.state == Planned && p.priority == Medium && p.plannedDate == date
    ensures p.name == item.name && p.kind == item.kind && p.category == item.category
    ensures p.amount == item.amount && p.currency == item.currency && p.partner == item.partner
    ensures p.actualDate.None? && p.budget.None? && p.invoice.None?
  {
    NewItem(id, item.name, item.kind, date, item.category, item.amount, item.currency, item.partner)
  }

  /** The date generate-now uses: the next date, or else the start date. */
  function GenerationDate(item: RecurringItem, today: Date): Date
    requires Valid(item.startDate) && Valid(today) && item.interval >= 0
  {
    NextDate(item, today).GetOr(item.startDate)
  }

  predicate Generable(items: seq<RecurringItem>, today: Date) {
    Valid(today) && forall i :: 0 <= i < |items| ==> Valid(items[i].startDate) && items[i].interval >= 0
  }

  /** What action_generate_now creates for the selected items, with database ids
      handed out from `nextId` on. */
  function GeneratedNow(items: seq<RecurringItem>, today: Date, nextId: int): seq<PlannedItem>
    requires Generable(items, today)
  {
    if items == [] then []
    else
      var prev := GeneratedNow(items[..|items| - 1], today, nextId);
      var last := items[|items| - 1];
      if last.state != Active then prev
      else prev + [FromRecurring(last, GenerationDate(last, today), nextId + |prev|)]
  }

  /** The active items among `items`, in order. */
  function ActiveOnly(items: seq<RecurringItem>): (r: seq<RecurringItem>)
    ensures forall k :: 0 <= k < |r| ==> r[k].state == Active && r[k] in items
    ensures forall x :: x in items && x.state == Active ==> x in r
    ensures forall x :: multiset(r)[x] == if x.state == Active then multiset(items)[x] else 0
  {
    if items == [] then []
    else
      var last := items[|items| - 1];
      var prev := ActiveOnly(items[..|items| - 1]);
      assert items == items[..|items| - 1] + [last];
      if last.state == Active then prev + [last] else prev
  }

  /** generate-now creates exactly one planned item per active selected item, in
      order, dated by GenerationDate, and nothing for the others. */
  lemma {:induction false} GeneratedNowIsOnePerActive(items: seq<RecurringItem>, today: Date, nextId: int)
    requires Generable(items, today)
    ensures |GeneratedNow(items, today, nextId)| == |ActiveOnly(items)|
    ensures forall k :: 0 <= k < |ActiveOnly(items)| ==>
      GeneratedNow(items, today, nextId)[k]
        == FromRecurring(ActiveOnly(items)[k], GenerationDate(ActiveOnly(items)[k], today), nextId + k)
  {
    if items != [] {
      GeneratedNowIsOnePerActive(items[..|items| - 1], today, nextId);
    }
  }

  /** The recurring items as stored. */
  class RecurringStore {
    var items: seq<RecurringItem>

    constructor(initial: seq<RecurringItem>)
      ensures items == initial
    {
      items := initial;
    }

    method SetState(ids: set<int>, s: RecurringState)
      modifies this
      ensures items == StateWritten(old(items), ids, s)
    {
      var i := 0;
      var result: seq<RecurringItem> := [];
      while i < |items|
        invariant 0 <= i <= |items|
        invariant |result| == i
        invariant forall j :: 0 <= j < i ==>
          result[j] == if items[j].id in ids then items[j].(state := s) else items[j]
      {
        var item := items[i];
        result := result + [if item.id in ids then item.(state := s) else item];
        i := i + 1;
      }
      items := result;
    }

    /** action_suspend */
    method Suspend(ids: set<int>)
      modifies this
      ensures items == StateWritten(old(items), ids, Suspended)
    {
      SetState(ids, Suspended);
    }

    /** action_activate */
    method Activate(ids: set<int>)
      modifies this
      ensures items == StateWritten(old(items), ids, Active)
    {
      SetState(ids, Active);
    }

    /** action_expire */
    method Expire(ids: set<int>)
      modifies this
      ensures items == StateWritten(old(items), ids, Expired)
    {
      SetState(ids, Expired);
    }
  }

  function StateWritten(items: seq<RecurringItem>, ids: set<int>, s: RecurringState): (r: seq<RecurringItem>)
    ensures |r| == |items|
    ensures forall i :: 0 <= i < |items| ==>
      r[i] == if items[i].id in ids then items[i].(state := s) else items[i]
  {
    if items == [] then []
    else
      var last := items[|items| - 1];
      StateWritten(items[..|items| - 1], ids, s) + [if last.id in ids then last.(state := s) else last]
  }

  /** Suspending or expiring an item takes away its next date; activating it gives
      it back whatever it had as an active item. */
  lemma StateDecidesNextDate(item: RecurringItem, today: Date)
    requires Valid(item.startDate) && Valid(today) && item.interval >= 0
    ensures NextDate(item.(state := Suspended), today) == None
    ensures NextDate(item.(state := Expired), today) == None
    ensures NextDate(item.(state := Active), today).Some? <==>
      !(item.endDate.Some? && Before(item.endDate.value,
          AdvancePast(item.startDate, item.recurrence, EffectiveInterval(item), today)))
  {
  }

  /** The items generate-now creates for a prefix of the selection come first
      among those it creates for the whole selection. */
  lemma {:induction false} GeneratedNowPrefix(items: seq<RecurringItem>, i: nat, today: Date, nextId: int)
    requires Generable(items, today) && i <= |items|
    ensures GeneratedNow(items[..i], today, nextId) <= GeneratedNow(items, today, nextId)
    decreases |items|
  {
    if i < |items| {
      var init := items[..|items| - 1];
      assert init[..i] == items[..i];
      GeneratedNowPrefix(init, i, today, nextId);
    } else {
      assert items[..i] == items;
    }
  }

  /** Every planned item a recurring item generates passes the planned item's
      constraints when the recurring item's amount is positive and its type is its
      category's type. */
  lemma FromMatchingItemPasses(h: Categories.Hierarchy, item: RecurringItem, date: Date, id: int)
    requires item.amount > 0 && (item.category in h ==> h[item.category].kind == item.kind)
    ensures PlannedItems.Violations(h, FromRecurring(item, date, id)) == {}
  {
  }

  /** Generate-now never fails on items whose amounts are positive and whose types
      are their categories' types. */
  lemma GenerateNowPassesWhenTypesMatch(h: Categories.Hierarchy, items: seq<RecurringItem>, today: Date, nextId: int)
    requires Generable(items, today)
    requires forall k :: 0 <= k < |items| ==>
      items[k].amount > 0 && (items[k].category in h ==> h[items[k].category].kind == items[k].kind)
    ensures CreateErrors(h, GeneratedNow(items, today, nextId)) == {}
  {
    GeneratedNowIsOnePerActive(items, today, nextId);
    var g := GeneratedNow(items, today, nextId);
    var act := ActiveOnly(items);
    forall k | 0 <= k < |g| ensures PlannedItems.Violations(h, g[k]) == {} {
      assert act[k] in items;
      FromMatchingItemPasses(h, act[k], GenerationDate(act[k], today), nextId + k);
    }
    CreateErrorsIsFirstFailure(h, g);
  }

  /** A payment scheduled under an income category: every field of the recurring
      item passes its own constraints, yet the planned item generated from it has
      the wrong type for its category, so generate-now fails with that message. */
  lemma MismatchedTypeFailsGeneration()
    ensures
      var h := map[10 := Categories.Category(10, "Sales", "S", Categories.Income, None)];
      var item := Sample(Monthly, Date(2025, 1, 1), None).(category := 10);
      Violations(item) == {}
      && CreateErrors(h, GeneratedNow([item], Date(2025, 1, 15), 1)) == {PlannedItems.TypeMismatch}
  {
    var h := map[10 := Categories.Category(10, "Sales", "S", Categories.Income, None)];
    var item := Sample(Monthly, Date(2025, 1, 1), None).(category := 10);
    var today := Date(2025, 1, 15);
    assert [item][..0] == [];
    assert GeneratedNow([], today, 1) == [];
    var p := FromRecurring(item, GenerationDate(item, today), 1);
    assert GeneratedNow([item], today, 1) == [p];
    assert PlannedItems.Violations(h, p) == {PlannedItems.TypeMismatch};
    CreateErrorsAppend(h, [], p);
    assert [] + [p] == [p];
  }

  /** One turn of generate-now appends the planned item of an active item, with the
      next id, and nothing for any other item. */
  lemma GenerateNowStep(selected: seq<RecurringItem>, i: nat, today: Date, nextId: int, prev: seq<PlannedItem>)
    requires Generable(selected, today) && i < |selected| && prev == GeneratedNow(selected[..i], today, nextId)
    ensures GeneratedNow(selected[..i + 1], today, nextId)
      == if selected[i].state == Active
         then prev + [FromRecurring(selected[i], GenerationDate(selected[i], today), nextId + |prev|)]
         else prev
  {
    assert selected[..i + 1][..i] == selected[..i];
  }

  /** action_generate_now: one planned item per active selected item, dated on its
      next date or else its start date; non-active items are skipped. Each create
      checks the planned item's constraints: the first that fails raises, and the
      whole action is rolled back. Returns the ids of the created items. */
  method GenerateNow(selected: seq<RecurringItem>, today: Date, nextId: int, h: Categories.Hierarchy,
                     planned: PlannedItemStore)
    returns (r: Result<seq<int>, set<ItemError>>)
    requires Generable(selected, today)
    modifies planned
    ensures r.Err? <==> CreateErrors(h, GeneratedNow(selected, today, nextId)) != {}
    ensures r.Err? ==> r.error == CreateErrors(h, GeneratedNow(selected, today, nextId))
                       && planned.items == old(planned.items)
    ensures r.Ok? ==> planned.items == old(planned.items) + GeneratedNow(selected, today, nextId)
    ensures r.Ok? ==> |r.value| == |GeneratedNow(selected, today, nextId)|
                      && forall k :: 0 <= k < |r.value| ==> r.value[k] == nextId + k
  {
    var added, created, errs := GenerateItems(selected, today, nextId, h);
    if errs != {} {
      return Err(errs);
    }
    planned.items := planned.items + added;
    r := Ok(created);
  }

  /** The loop of generate-now over the selected items: the planned items it
      creates, in order, with their ids, or the messages of the first create that
      fails. */
  method GenerateItems(selected: seq<RecurringItem>, today: Date, nextId: int, h: Categories.Hierarchy)
    returns (added: seq<PlannedItem>, created: seq<int>, errs: set<ItemError>)
    requires Generable(selected, today)
    ensures errs == CreateErrors(h, GeneratedNow(selected, today, nextId))
    ensures errs == {} ==> added == GeneratedNow(selected, today, nextId)
    ensures errs == {} ==> |created| == |added| && forall k :: 0 <= k < |created| ==> created[k] == nextId + k
  {
    added, created, errs := [], [], {};
    var i := 0;
    while i < |selected|
      invariant 0 <= i <= |selected|
      invariant added == GeneratedNow(selected[..i], today, nextId)
      invariant CreateErrors(h, added) == {}
      invariant |created| == |added| && forall k :: 0 <= k < |created| ==> created[k] == nextId + k
    {
      var item := selected[i];
      GenerateNowStep(selected, i, today, nextId, added);
      if item.state == Active {
        var next := ComputeNextDate(item, today);
        var date := if next.Some? then next.value else item.startDate;
        assert date == GenerationDate(item, today);
        var id := nextId + |created|;
        var p := FromRecurring(item, date, id);
        assert GeneratedNow(selected[..i + 1], today, nextId) == added + [p];
        var e := ValidateCreate(h, added, p);
        if e != {} {
          GeneratedNowPrefix(selected, i + 1, today, nextId);
          CreateErrorsOfPrefix(h, added + [p], GeneratedNow(selected, today, nextId));
          errs := e;
          return;
        }
        added := added + [p];
        created := created + [id];
      }
      i := i + 1;
    }
    assert selected[..|selected|] == selected;
  }

  // ---------------------------------------------------------------------------
  // cron_generate_planned_items
  // ---------------------------------------------------------------------------

  /** The date the sweep generates `item` for, if any: the item is active and set to
      auto-generate, and its next date is no later than today plus its days in
      advance. */
  function DueDate(item: RecurringItem, today: Date): (due: Option<Date>)
    requires Valid(item.startDate) && Valid(today) && item.interval >= 0
    ensures due.Some? ==> item.state == Active && item.autoGenerate && due == NextDate(item, today)
    ensures due.Some? <==> item.state == Active && item.autoGenerate && NextDate(item, today).Some?
                           && NotAfter(NextDate(item, today).value, AddDays(today, item.daysInAdvance))
  {
    if item.state == Active && item.autoGenerate then
      var next := NextDate(item, today);
      if next.Some? && NotAfter(next.value, AddDays(today, item.daysInAdvance)) then next else None
    else None
  }

  /** The due date of each item, in order. */
  function DueDates(items: seq<RecurringItem>, today: Date): (dues: seq<Option<Date>>)
    requires Generable(items, today)
    ensures |dues| == |items|
    ensures forall i :: 0 <= i < |items| ==> dues[i] == DueDate(items[i], today)
  {
    if items == [] then []
    else DueDates(items[..|items| - 1], today) + [DueDate(items[|items| - 1], today)]
  }

  /** A planned item with the same name, date and category already exists. */
  predicate AlreadyPlanned(planned: seq<PlannedItem>, item: RecurringItem, date: Date) {
    exists p :: p in planned && p.name == item.name && p.plannedDate == date && p.category == item.category
  }

  /** The planned items the sweep appends, in order, to `existing` after the first
      `n` recurring items (with due dates `dues`) have had their turn; each item looks
      at the planned items as they are when its turn comes, including the ones the
      sweep created before it. */
  function Swept(existing: seq<PlannedItem>, items: seq<RecurringItem>, dues: seq<Option<Date>>, n: nat, nextId: int)
    : seq<PlannedItem>
    requires |dues| == |items| && n <= |items|
  {
    if n == 0 then []
    else
      var prev := Swept(existing, items, dues, n - 1, nextId);
      prev + SweepTurn(existing + prev, items[n - 1], dues[n - 1], nextId + |prev|)
  }

  /** What the sweep appends for `item` when the planned items are `current`: one
      item, with id `id`, if it is due and not yet planned, and nothing otherwise. */
  function SweepTurn(current: seq<PlannedItem>, item: RecurringItem, due: Option<Date>, id: int): seq<PlannedItem>
  {
    if due.Some? && !AlreadyPlanned(current, item, due.value)
    then [FromRecurring(item, due.value, id)]
    else []
  }

  /** cron_generate_planned_items: for each active auto-generating item whose next
      date falls within its horizon, create a planned item unless one with the same
      name, date and category exists. A create that fails the planned item's
      constraints raises and the whole run is rolled back. Returns the number
      created. */
  method Sweep(items: seq<RecurringItem>, today: Date, nextId: int, h: Categories.Hierarchy, planned: PlannedItemStore)
    returns (r: Result<nat, set<ItemError>>)
    requires Generable(items, today)
    modifies planned
    ensures r.Err? <==>
      CreateErrors(h, Swept(old(planned.items), items, DueDates(items, today), |items|, nextId)) != {}
    ensures r.Err? ==>
      r.error == CreateErrors(h, Swept(old(planned.items), items, DueDates(items, today), |items|, nextId))
      && planned.items == old(planned.items)
    ensures r.Ok? ==>
      planned.items == old(planned.items) + Swept(old(planned.items), items, DueDates(items, today), |items|, nextId)
    ensures r.Ok? ==> r.value == |Swept(old(planned.items), items, DueDates(items, today), |items|, nextId)|
  {
    var added, errs := SweepItems(planned.items, items, today, nextId, h);
    if errs != {} {
      return Err(errs);
    }
    planned.items := planned.items + added;
    r := Ok(|added|);
  }

  /** The loop of the sweep over the recurring items, given the planned items
      stored before it starts; returns the planned items it creates, in order, or
      the messages of the first create that fails. */
  method SweepItems(start: seq<PlannedItem>, items: seq<RecurringItem>, today: Date, nextId: int,
                    h: Categories.Hierarchy)
    returns (added: seq<PlannedItem>, errs: set<ItemError>)
    requires Generable(items, today)
    ensures errs == CreateErrors(h, Swept(start, items, DueDates(items, today), |items|, nextId))
    ensures errs == {} ==> added == Swept(start, items, DueDates(items, today), |items|, nextId)
  {
    added := [];
    errs := {};
    ghost var dues := DueDates(items, today);
    var i := 0;
    while i < |items|
      invariant 0 <= i <= |items|
      invariant added == Swept(start, items, dues, i, nextId)
      invariant CreateErrors(h, added) == {}
    {
      assert dues[i] == DueDate(items[i], today);
      var add, e := RunSweepTurn(start, items, dues, i, today, nextId, h, added);
      if e != {} {
        SweptPrefix(start, items, dues, i + 1, |items|, nextId);
        CreateErrorsOfPrefix(h, added + add, Swept(start, items, dues, |items|, nextId));
        errs := e;
        return;
      }
      added := added + add;
      i := i + 1;
    }
  }

  /** Turn `i` of the sweep: what it appends to the items created so far, `added`,
      or the messages of the create that fails, which are then those of the whole
      run. */
  method RunSweepTurn(start: seq<PlannedItem>, items: seq<RecurringItem>, ghost dues: seq<Option<Date>>, i: nat,
                      today: Date, nextId: int, h: Categories.Hierarchy, added: seq<PlannedItem>)
    returns (add: seq<PlannedItem>, errs: set<ItemError>)
    requires |dues| == |items| && i < |items|
    requires Valid(today) && Valid(items[i].startDate) && items[i].interval >= 0 && dues[i] == DueDate(items[i], today)
    requires added == Swept(start, items, dues, i, nextId) && CreateErrors(h, added) == {}
    ensures added + add == Swept(start, items, dues, i + 1, nextId)
    ensures errs == CreateErrors(h, added + add)
  {
    var due := ComputeDueDate(items[i], today);
    assert due == dues[i];
    add := SweepOne(start + added, items[i], due, nextId + |added|);
    SweptStep(start, items, dues, i, nextId, added);
    assert Swept(start, items, dues, i + 1, nextId) == added + add;
    errs := {};
    if add != [] {
      assert add == [add[0]];
      errs := ValidateCreate(h, added, add[0]);
    } else {
      assert added + add == added;
    }
  }

  /** Turn `n` of the sweep appends what SweepTurn gives for the planned items as
      they are after the turns before it. */
  lemma SweptStep(existing: seq<PlannedItem>, items: seq<RecurringItem>, dues: seq<Option<Date>>, n: nat, nextId: int,
                  prev: seq<PlannedItem>)
    requires |dues| == |items| && n < |items| && prev == Swept(existing, items, dues, n, nextId)
    ensures Swept(existing, items, dues, n + 1, nextId) == prev + SweepTurn(existing + prev, items[n], dues[n], nextId + |prev|)
  {
  }

  /** The items a sweep creates for its first `n` turns come first among those it
      creates for `m >= n` turns. */
  lemma {:induction false} SweptPrefix(existing: seq<PlannedItem>, items: seq<RecurringItem>,
                                       dues: seq<Option<Date>>, n: nat, m: nat, nextId: int)
    requires |dues| == |items| && n <= m <= |items|
    ensures Swept(existing, items, dues, n, nextId) <= Swept(existing, items, dues, m, nextId)
    decreases m
  {
    if n < m {
      SweptPrefix(existing, items, dues, n, m - 1, nextId);
    }
  }

  /** Every planned item a sweep creates is generated from one of the recurring
      items. */
  lemma {:induction false} SweptFromItems(existing: seq<PlannedItem>, items: seq<RecurringItem>,
                                          dues: seq<Option<Date>>, n: nat, nextId: int)
    requires |dues| == |items| && n <= |items|
    ensures forall p :: p in Swept(existing, items, dues, n, nextId) ==>
      exists i, date, id :: 0 <= i < n && p == FromRecurring(items[i], date, id)
  {
    if n > 0 {
      SweptFromItems(existing, items, dues, n - 1, nextId);
    }
  }

  /** The sweep never fails on items whose amounts are positive and whose types are
      their categories' types. */
  lemma SweepPassesWhenTypesMatch(h: Categories.Hierarchy, existing: seq<PlannedItem>, items: seq<RecurringItem>,
                                  today: Date, nextId: int)
    requires Generable(items, today)
    requires forall k :: 0 <= k < |items| ==>
      items[k].amount > 0 && (items[k].category in h ==> h[items[k].category].kind == items[k].kind)
    ensures CreateErrors(h, Swept(existing, items, DueDates(items, today), |items|, nextId)) == {}
  {
    var dues := DueDates(items, today);
    var s := Swept(existing, items, dues, |items|, nextId);
    SweptFromItems(existing, items, dues, |items|, nextId);
    forall k | 0 <= k < |s| ensures PlannedItems.Violations(h, s[k]) == {} {
      assert s[k] in s;
      var i, date, id :| 0 <= i < |items| && s[k] == FromRecurring(items[i], date, id);
      FromMatchingItemPasses(h, items[i], date, id);
    }
    CreateErrorsIsFirstFailure(h, s);
  }

  /** The horizon test of the sweep for one item. */
  method ComputeDueDate(item: RecurringItem, today: Date) returns (due: Option<Date>)
    requires Valid(item.startDate) && Valid(today) && item.interval >= 0
    ensures due == DueDate(item, today)
  {
    due := None;
    if item.state == Active && item.autoGenerate {
      var target := AddDays(today, item.daysInAdvance);
      var next := ComputeNextDate(item, today);
      if next.Some? && NotAfter(next.value, target) {
        due := next;
      }
    }
  }

  /** One turn of the sweep: the planned item to create for `item`, if it is due and
      not yet planned. */
  method SweepOne(current: seq<PlannedItem>, item: RecurringItem, due: Option<Date>, id: int)
    returns (add: seq<PlannedItem>)
    ensures add == SweepTurn(current, item, due, id)
  {
    add := [];
    if due.Some? {
      var found := Exists(current, item, due.value);
      if !found {
        add := [FromRecurring(item, due.value, id)];
      }
    }
  }

  /** The duplicate search: is there a planned item with this name, date and
      category? */
  method Exists(planned: seq<PlannedItem>, item: RecurringItem, date: Date) returns (found: bool)
    ensures found <==> AlreadyPlanned(planned, item, date)
  {
    found := false;
    var i := 0;
    while i < |planned|
      invariant 0 <= i <= |planned|
      invariant found <==> exists k :: 0 <= k < i && planned[k].name == item.name
                                        && planned[k].plannedDate == date && planned[k].category == item.category
    {
      var p := planned[i];
      if p.name == item.name && p.plannedDate == date && p.category == item.category {
        found := true;
      }
      i := i + 1;
    }
  }

  /** After a sweep every due item has its planned item. */
  lemma {:induction false} SweptCoversDue(existing: seq<PlannedItem>, items: seq<RecurringItem>,
                                          dues: seq<Option<Date>>, n: nat, nextId: int)
    requires |dues| == |items| && n <= |items|
    ensures forall i :: 0 <= i < n && dues[i].Some? ==>
      AlreadyPlanned(existing + Swept(existing, items, dues, n, nextId), items[i], dues[i].value)
  {
    if n > 0 {
      SweptCoversDue(existing, items, dues, n - 1, nextId);
      var prev := Swept(existing, items, dues, n - 1, nextId);
      var all := Swept(existing, items, dues, n, nextId);
      assert existing + prev <= existing + all;
      forall i | 0 <= i < n && dues[i].Some?
        ensures AlreadyPlanned(existing + all, items[i], dues[i].value)
      {
        var date := dues[i].value;
        if i < n - 1 || AlreadyPlanned(existing + prev, items[i], date) {
          var p :| p in existing + prev && p.name == items[i].name && p.plannedDate == date
            && p.category == items[i].category;
          assert p in existing + all;
        } else {
          var p := FromRecurring(items[i], date, nextId + |prev|);
          assert (existing + all)[|existing + all| - 1] == p;
        }
      }
    }
  }

  /** A sweep over planned items that already cover every due item creates nothing. */
  lemma {:induction false} SweptNothingWhenCovered(existing: seq<PlannedItem>, items: seq<RecurringItem>,
                                                   dues: seq<Option<Date>>, n: nat, nextId: int)
    requires |dues| == |items| && n <= |items|
    requires forall i :: 0 <= i < n && dues[i].Some? ==> AlreadyPlanned(existing, items[i], dues[i].value)
    ensures Swept(existing, items, dues, n, nextId) == []
  {
    if n > 0 {
      SweptNothingWhenCovered(existing, items, dues, n - 1, nextId);
      var prev := Swept(existing, items, dues, n - 1, nextId);
      assert existing + prev == existing;
      assert SweepTurn(existing, items[n - 1], dues[n - 1], nextId) == [];
    }
  }

  /** A second sweep on the same day creates nothing. */
  lemma SweepIsIdempotent(existing: seq<PlannedItem>, items: seq<RecurringItem>, today: Date, id1: int, id2: int)
    requires Generable(items, today)
    ensures var dues := DueDates(items, today);
      Swept(existing + Swept(existing, items, dues, |items|, id1), items, dues, |items|, id2) == []
  {
    var dues := DueDates(items, today);
    SweptCoversDue(existing, items, dues, |items|, id1);
    SweptNothingWhenCovered(existing + Swept(existing, items, dues, |items|, id1), items, dues, |items|, id2);
  }
}
