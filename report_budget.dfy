/** The budget analysis screen: a reload replaces the report's lines with one line per
    budget whose period starts or ends inside the chosen range, in the chosen category
    and state, and that passes the variance filter; each line copies the budget's
    amounts and adds its usage percentage, and the report sums the kept lines. */
module ReportBudget {
  import opened Wrappers
  import opened Dates
  import opened Budgets

  datatype VarianceFilter = AnyVariance | OverBudgetOnly | UnderBudgetOnly | WithinNinety

  /** The report's filter fields; an unset state filter stands for 'all'. */
  datatype BudgetFilter = BudgetFilter(
    dateFrom: Date,
    dateTo: Date,
    category: Option<int>,
    state: Option<BudgetState>,
    variance: VarianceFilter)

  predicate DateInRange(d: Option<Date>, lo: Date, hi: Date) {
    d.Some? && InRange(d.value, lo, hi)
  }

  /** The period test of the search: the budget's start or its end lies inside the
      range. A budget that starts before the range and ends after it is not
      selected. */
  predicate PeriodSelected(f: BudgetFilter, b: Budget) {
    DateInRange(b.periodStart, f.dateFrom, f.dateTo) || DateInRange(b.periodEnd, f.dateFrom, f.dateTo)
  }

  /** The whole search domain: period, then the category and state filters. */
  predicate BudgetSelected(f: BudgetFilter, b: Budget) {
    && PeriodSelected(f, b)
    && (f.category.Some? ==> b.category == Some(f.category.value))
    && (f.state.Some? ==> b.state == f.state.value)
  }

  /** The budgets the search returns, in store order. */
  function Search(f: BudgetFilter, budgets: seq<Budget>): (found: seq<Budget>)
    ensures forall b :: b in found <==> b in budgets && BudgetSelected(f, b)
  {
    if budgets == [] then []
    else
      var last := budgets[|budgets| - 1];
      Search(f, budgets[..|budgets| - 1]) + (if BudgetSelected(f, last) then [last] else [])
  }

  /** Used as a percentage of planned, or 0 when nothing positive is planned. */
  function UsagePercent(b: Budget): real {
    if b.plannedAmount > 0 then (b.used as real / b.plannedAmount as real) * 100.0 else 0.0
  }

  /** The variance filter: over keeps overspent budgets, under keeps budgets with
      money left, within keeps budgets used to 90 % or more. */
  predicate Kept(variance: VarianceFilter, b: Budget) {
    match variance
    case AnyVariance => true
    case OverBudgetOnly => b.remaining < 0
    case UnderBudgetOnly => b.remaining > 0
    case WithinNinety => UsagePercent(b) >= 90.0
  }

  datatype BudgetLine = BudgetLine(
    budget: int,
    name: string,
    category: Option<int>,
    periodStart: Option<Date>,
    periodEnd: Option<Date>,
    planned: int,
    used: int,
    remaining: int,
    usage: real,
    state: BudgetState)

  function LineOf(b: Budget): BudgetLine {
    BudgetLine(b.id, b.name, b.category, b.periodStart, b.periodEnd, b.plannedAmount, b.used, b.remaining,
      UsagePercent(b), b.state)
  }

  /** The lines for the found budgets that pass the variance filter, in order. */
  function KeptLines(f: BudgetFilter, found: seq<Budget>): seq<BudgetLine> {
    if found == [] then []
    else
      var last := found[|found| - 1];
      KeptLines(f, found[..|found| - 1]) + (if Kept(f.variance, last) then [LineOf(last)] else [])
  }

  function ReportLines(f: BudgetFilter, budgets: seq<Budget>): seq<BudgetLine> {
    KeptLines(f, Search(f, budgets))
  }

  datatype Totals = Totals(planned: int, used: int, remaining: int)

  function SumLines(lines: seq<BudgetLine>): Totals {
    if lines == [] then Totals(0, 0, 0)
    else
      var t := SumLines(lines[..|lines| - 1]);
      var l := lines[|lines| - 1];
      Totals(t.planned + l.planned, t.used + l.used, t.remaining + l.remaining)
  }

  class BudgetReport {
    var lines: seq<BudgetLine>
    var totalPlanned: int
    var totalUsed: int
    var totalRemaining: int

    constructor()
      ensures lines == [] && totalPlanned == 0 && totalUsed == 0 && totalRemaining == 0
    {
      lines := [];
      totalPlanned := 0;
      totalUsed := 0;
      totalRemaining := 0;
    }

    /** display_items: the old lines are dropped, the found budgets are walked with
        a skip flag for the variance filter, and the kept ones are summed. */
    method DisplayItems(f: BudgetFilter, budgets: seq<Budget>)
      modifies this
      ensures lines == ReportLines(f, budgets)
      ensures Totals(totalPlanned, totalUsed, totalRemaining) == SumLines(lines)
    {
      var found := Search(f, budgets);
      var ls, planned, used, remaining := WalkBudgets(f, found);
      lines := ls;
      totalPlanned, totalUsed, totalRemaining := planned, used, remaining;
    }
  }

  /** The loop of display_items over the found budgets: the usage percentage, the
      skip flag of the variance filter, the kept line and the running totals. */
  method WalkBudgets(f: BudgetFilter, found: seq<Budget>)
    returns (ls: seq<BudgetLine>, planned: int, used: int, remaining: int)
    ensures ls == KeptLines(f, found)
    ensures Totals(planned, used, remaining) == SumLines(ls)
  {
    ls := [];
    planned, used, remaining := 0, 0, 0;
    var i := 0;
    while i < |found|
      invariant 0 <= i <= |found|
      invariant ls == KeptLines(f, found[..i])
      invariant Totals(planned, used, remaining) == SumLines(ls)
    {
      var b := found[i];
      KeptStep(f, found, i);
      var usage := UsagePercent(b);
      var skip := VarianceSkip(f.variance, b, usage);
      if !skip {
        var line := BudgetLine(b.id, b.name, b.category, b.periodStart, b.periodEnd, b.plannedAmount,
          b.used, b.remaining, usage, b.state);
        assert line == LineOf(b);
        SumStep(ls, line);
        ls := ls + [line];
        planned := planned + b.plannedAmount;
        used := used + b.used;
        remaining := remaining + b.remaining;
      }
      i := i + 1;
    }
    assert found[..i] == found;
  }

  /** The skip flag of the variance filter for one budget, whose usage percentage
      is `usage`: it is set exactly for the budgets the filter drops. */
  method VarianceSkip(variance: VarianceFilter, b: Budget, usage: real) returns (skip: bool)
    requires usage == UsagePercent(b)
    ensures skip <==> !Kept(variance, b)
  {
    skip := false;
    match variance {
      case OverBudgetOnly =>
        if b.remaining >= 0 {
          skip := true;
        }
      case UnderBudgetOnly =>
        if b.remaining <= 0 {
          skip := true;
        }
      case WithinNinety =>
        if usage < 90.0 {
          skip := true;
        }
      case AnyVariance =>
    }
  }

  lemma KeptStep(f: BudgetFilter, found: seq<Budget>, i: int)
    requires 0 <= i < |found|
    ensures KeptLines(f, found[..i + 1])
      == KeptLines(f, found[..i]) + (if Kept(f.variance, found[i]) then [LineOf(found[i])] else [])
  {
    assert found[..i + 1][..i] == found[..i];
  }

  lemma SumStep(ls: seq<BudgetLine>, l: BudgetLine)
    ensures SumLines(ls + [l]) == Totals(SumLines(ls).planned + l.planned, SumLines(ls).used + l.used,
      SumLines(ls).remaining + l.remaining)
  {
    assert (ls + [l])[..|ls|] == ls;
  }

  // ---------------------------------------------------------------------------
  // Properties
  // ---------------------------------------------------------------------------

  lemma {:induction false} KeptLinesFacts(f: BudgetFilter, found: seq<Budget>)
    ensures forall l :: l in KeptLines(f, found) ==> exists b :: b in found && Kept(f.variance, b) && l == LineOf(b)
    ensures forall b :: b in found && Kept(f.variance, b) ==> LineOf(b) in KeptLines(f, found)
    decreases |found|
  {
    if found != [] {
      var init := found[..|found| - 1];
      KeptLinesFacts(f, init);
      assert found == init + [found[|found| - 1]];
    }
  }

  /** A budget gets a line exactly when the search selects it and it passes the
      variance filter; the line carries the budget's own planned, used and remaining
      amounts and state. */
  lemma LineIff(f: BudgetFilter, budgets: seq<Budget>, b: Budget)
    requires b in budgets
    ensures LineOf(b) in ReportLines(f, budgets) <==> BudgetSelected(f, b) && Kept(f.variance, b)
  {
    var found := Search(f, budgets);
    KeptLinesFacts(f, found);
    if LineOf(b) in ReportLines(f, budgets) {
      var c :| c in found && Kept(f.variance, c) && LineOf(b) == LineOf(c);
      assert b == c;
    }
  }

  /** Every line is the line of a budget of the store that the search selects and
      the variance filter keeps. */
  lemma LinesComeFromKeptBudgets(f: BudgetFilter, budgets: seq<Budget>)
    ensures forall l :: l in ReportLines(f, budgets) ==>
      exists b :: b in budgets && BudgetSelected(f, b) && Kept(f.variance, b) && l == LineOf(b)
  {
    KeptLinesFacts(f, Search(f, budgets));
  }

  /** The variance filter as seen on the lines: over leaves only negative remaining
      amounts, under only positive ones, within only usage of 90 % or more. */
  lemma VarianceFilterOnLines(f: BudgetFilter, budgets: seq<Budget>)
    ensures forall l :: l in ReportLines(f, budgets) ==>
      && (f.variance == OverBudgetOnly ==> l.remaining < 0)
      && (f.variance == UnderBudgetOnly ==> l.remaining > 0)
      && (f.variance == WithinNinety ==> l.usage >= 90.0)
  {
    KeptLinesFacts(f, Search(f, budgets));
  }

  /** A budget whose period encloses the whole range is not selected: the period
      test only looks at whether the start or the end falls inside the range. */
  lemma EnclosingBudgetMissed(f: BudgetFilter, b: Budget)
    requires b.periodStart.Some? && b.periodEnd.Some?
    requires Before(b.periodStart.value, f.dateFrom) && Before(f.dateTo, b.periodEnd.value)
    ensures !BudgetSelected(f, b)
  {
    BeforeIsStrictTotalOrder(b.periodStart.value, f.dateFrom, f.dateTo);
    BeforeIsStrictTotalOrder(f.dateFrom, f.dateTo, b.periodEnd.value);
  }

  lemma EnclosingBudgetExample()
    ensures var f := BudgetFilter(Date(2025, 3, 1), Date(2025, 3, 31), None, None, AnyVariance);
      var b := Budget(1, "Marketing 2025", Some(4), Some(Date(2025, 1, 1)), Some(Date(2025, 12, 31)),
        1200000, 300000, 900000, Confirmed);
      ReportLines(f, [b]) == []
  {
    var f := BudgetFilter(Date(2025, 3, 1), Date(2025, 3, 31), None, None, AnyVariance);
    var b := Budget(1, "Marketing 2025", Some(4), Some(Date(2025, 1, 1)), Some(Date(2025, 12, 31)),
      1200000, 300000, 900000, Confirmed);
    EnclosingBudgetMissed(f, b);
    assert [b][..0] == [];
    assert Search(f, [b]) == [];
  }

  lemma {:induction false} SumLinesConcat(a: seq<BudgetLine>, c: seq<BudgetLine>)
    ensures SumLines(a + c).planned == SumLines(a).planned + SumLines(c).planned
    ensures SumLines(a + c).used == SumLines(a).used + SumLines(c).used
    ensures SumLines(a + c).remaining == SumLines(a).remaining + SumLines(c).remaining
    decreases |c|
  {
    if c != [] {
      var init := c[..|c| - 1];
      assert (a + c)[..|a + c| - 1] == a + init;
      assert (a + c)[|a + c| - 1] == c[|c| - 1];
      SumLinesConcat(a, init);
    } else {
      assert a + c == a;
    }
  }

  /** Lines whose remaining amount is planned minus used add up the same way: the
      total remaining is the total planned minus the total used. */
  lemma {:induction false} TotalsOfFreshLines(lines: seq<BudgetLine>)
    requires forall l :: l in lines ==> l.remaining == l.planned - l.used
    ensures SumLines(lines).remaining == SumLines(lines).planned - SumLines(lines).used
    decreases |lines|
  {
    if lines != [] {
      assert lines[|lines| - 1] in lines;
      TotalsOfFreshLines(lines[..|lines| - 1]);
    }
  }

  /** When the stored amounts of every budget are fresh, the report's total remaining
      is its total planned minus its total used. */
  lemma ReportTotalsOfFreshBudgets(f: BudgetFilter, budgets: seq<Budget>)
    requires forall b :: b in budgets ==> b.remaining == b.plannedAmount - b.used
    ensures var t := SumLines(ReportLines(f, budgets));
      t.remaining == t.planned - t.used
  {
    LinesComeFromKeptBudgets(f, budgets);
    TotalsOfFreshLines(ReportLines(f, budgets));
  }

  /** With no budget selected the search finds nothing. */
  lemma {:induction false} SearchFindsNothing(f: BudgetFilter, budgets: seq<Budget>)
    requires forall b :: b in budgets ==> !BudgetSelected(f, b)
    ensures Search(f, budgets) == []
    decreases |budgets|
  {
    if budgets != [] {
      var init := budgets[..|budgets| - 1];
      assert budgets[|budgets| - 1] in budgets;
      assert forall b :: b in init ==> b in budgets;
      SearchFindsNothing(f, init);
    }
  }

  /** With no budget selected there are no lines and every total is zero. */
  lemma NothingSelected(f: BudgetFilter, budgets: seq<Budget>)
    requires forall b :: b in budgets ==> !BudgetSelected(f, b)
    ensures ReportLines(f, budgets) == []
    ensures SumLines(ReportLines(f, budgets)) == Totals(0, 0, 0)
  {
    SearchFindsNothing(f, budgets);
  }

  /** 3000.00 used of 10000.00 planned is 30 %. */
  lemma UsageExample()
    ensures UsagePercent(Budget(1, "Office", Some(2), Some(Date(2025, 1, 1)), Some(Date(2025, 12, 31)),
      1000000, 300000, 700000, Confirmed)) == 30.0
    ensures UsagePercent(Budget(2, "Empty", None, None, None, 0, 0, 0, Draft)) == 0.0
  {
  }
}
