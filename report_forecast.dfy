/** The cashflow forecast screen: a reload replaces the report's lines with one line
    per selected planned item in planned-date, type, id order, each carrying the
    balance after it (the opening balance plus every amount so far, incomes added and
    payments subtracted), and writes the totals and the closing balance. */
module ReportForecast {
  import opened Wrappers
  import opened Dates
  import opened PlannedItems
  import opened ItemOrder
  import Categories

  type CashType = Categories.CashType

  /** The report's filter fields and its opening balance. */
  datatype ForecastFilter = ForecastFilter(
    dateFrom: Date,
    dateTo: Date,
    category: Option<int>,
    includePlanned: bool,
    openingBalance: int)

  /** The search domain: dated inside the period and in the chosen category. Only
      when planned items are included is the state restricted, to planned or paid;
      otherwise items in every state, cancelled ones too, are selected. */
  predicate ForecastSelected(f: ForecastFilter, item: PlannedItem) {
    && InRange(item.plannedDate, f.dateFrom, f.dateTo)
    && (f.category.Some? ==> item.category == f.category.value)
    && (f.includePlanned ==> item.state == Planned || item.state == Paid)
  }

  function Matching(f: ForecastFilter, items: seq<PlannedItem>): (r: seq<PlannedItem>)
    ensures forall x :: x in r <==> x in items && ForecastSelected(f, x)
  {
    if items == [] then []
    else
      var last := items[|items| - 1];
      Matching(f, items[..|items| - 1]) + (if ForecastSelected(f, last) then [last] else [])
  }

  /** The records the search returns, in the order it returns them. */
  function ForecastSearch(f: ForecastFilter, items: seq<PlannedItem>): (found: seq<PlannedItem>)
    ensures Sorted(found)
    ensures forall x :: x in found <==> x in items && ForecastSelected(f, x)
  {
    var kept := Matching(f, items);
    var found := SortByKey(kept);
    assert forall x :: x in found <==> x in kept by {
      forall x
        ensures x in found <==> x in kept
      {
        SortByKeyKeepsRecords(kept, x);
      }
    }
    found
  }

  /** What an item does to the balance: an income adds its amount, anything else
      subtracts it. */
  function Flow(item: PlannedItem): int {
    if item.kind == Categories.Income then item.amount else -item.amount
  }

  function FlowSum(s: seq<PlannedItem>): int {
    if s == [] then 0 else FlowSum(s[..|s| - 1]) + Flow(s[|s| - 1])
  }

  /** The sum of the amounts of the items of one type. */
  function AmountOfKind(s: seq<PlannedItem>, kind: CashType): int {
    if s == [] then 0
    else
      var last := s[|s| - 1];
      AmountOfKind(s[..|s| - 1], kind) + (if last.kind == kind then last.amount else 0)
  }

  datatype ForecastLine = ForecastLine(
    item: int,
    plannedDate: Date,
    name: string,
    kind: CashType,
    category: int,
    partner: Option<int>,
    amount: int,
    signed: int,
    currency: Option<int>,
    balanceAfter: int,
    state: ItemState)

  function LineOf(item: PlannedItem, balance: int): ForecastLine {
    ForecastLine(item.id, item.plannedDate, item.name, item.kind, item.category, item.partner,
      item.amount, SignedAmount(item), if item.currency.Some? then Some(item.currency.value.id) else None,
      balance, item.state)
  }

  /** One line per found item; the i-th line's balance is the opening balance plus
      the flows of the first i + 1 items. */
  function ForecastLines(opening: int, found: seq<PlannedItem>): (lines: seq<ForecastLine>)
    ensures |lines| == |found|
  {
    if found == [] then []
    else ForecastLines(opening, found[..|found| - 1]) + [LineOf(found[|found| - 1], opening + FlowSum(found))]
  }

  /** The i-th line shows the i-th found item with the opening balance plus the flows
      of the items up to and including it: the running balance is a prefix sum. */
  lemma {:induction false} ForecastLinesAt(opening: int, found: seq<PlannedItem>, i: int)
    requires 0 <= i < |found|
    ensures ForecastLines(opening, found)[i] == LineOf(found[i], opening + FlowSum(found[..i + 1]))
    decreases |found|
  {
    var init := found[..|found| - 1];
    if i < |init| {
      ForecastLinesAt(opening, init, i);
      assert init[..i + 1] == found[..i + 1];
    } else {
      assert found[..i + 1] == found;
    }
  }

  /** The last line's balance, or the opening balance when there are no lines. */
  function LastBalance(opening: int, lines: seq<ForecastLine>): int {
    if lines == [] then opening else lines[|lines| - 1].balanceAfter
  }

  class ForecastReport {
    var lines: seq<ForecastLine>
    var totalIncome: int
    var totalPayment: int
    var netCashflow: int
    var closingBalance: int

    constructor()
      ensures lines == [] && totalIncome == 0 && totalPayment == 0 && netCashflow == 0 && closingBalance == 0
    {
      lines := [];
      totalIncome := 0;
      totalPayment := 0;
      netCashflow := 0;
      closingBalance := 0;
    }

    /** display_items: the old lines are dropped and the found items are walked in
        order with a running balance. */
    method DisplayItems(f: ForecastFilter, items: seq<PlannedItem>)
      modifies this
      ensures var found := ForecastSearch(f, items);
        && lines == ForecastLines(f.openingBalance, found)
        && totalIncome == AmountOfKind(found, Categories.Income)
        && totalPayment == AmountOfKind(found, Categories.Payment)
        && netCashflow == totalIncome - totalPayment
        && closingBalance == f.openingBalance + FlowSum(found)
    {
      var found := ForecastSearch(f, items);
      var ls, income, payment, running := WalkItems(f.openingBalance, found);
      lines := ls;
      totalIncome := income;
      totalPayment := payment;
      netCashflow := income - payment;
      closingBalance := running;
    }
  }

  /** The loop over the found items: the running balance moves by each item's flow,
      the item's amount goes to the income or the payment total, and each line
      records the balance after its item. */
  method WalkItems(opening: int, found: seq<PlannedItem>)
    returns (ls: seq<ForecastLine>, income: int, payment: int, running: int)
    ensures ls == ForecastLines(opening, found)
    ensures income == AmountOfKind(found, Categories.Income)
    ensures payment == AmountOfKind(found, Categories.Payment)
    ensures running == opening + FlowSum(found)
  {
    ls, income, payment, running := [], 0, 0, opening;
    var i := 0;
    while i < |found|
      invariant 0 <= i <= |found|
      invariant ls == ForecastLines(opening, found[..i])
      invariant income == AmountOfKind(found[..i], Categories.Income)
      invariant payment == AmountOfKind(found[..i], Categories.Payment)
      invariant running == opening + FlowSum(found[..i])
    {
      var item := found[i];
      WalkStep(opening, found, i);
      if item.kind == Categories.Income {
        running := running + item.amount;
        income := income + item.amount;
      } else {
        running := running - item.amount;
        payment := payment + item.amount;
      }
      ls := ls + [LineOf(item, running)];
      i := i + 1;
    }
    assert found[..i] == found;
  }

  // ---------------------------------------------------------------------------
  // Properties
  // ---------------------------------------------------------------------------

  /** The balances step by the flows: the first line's balance is the opening balance
      plus the first item's flow, and each next balance is the previous one plus the
      next item's flow. */
  lemma BalanceSteps(opening: int, found: seq<PlannedItem>)
    ensures var lines := ForecastLines(opening, found);
      && |lines| == |found|
      && (|lines| > 0 ==> lines[0].balanceAfter == opening + Flow(found[0]))
      && (forall i :: 0 < i < |lines| ==> lines[i].balanceAfter == lines[i - 1].balanceAfter + Flow(found[i]))
  {
    var lines := ForecastLines(opening, found);
    if |found| > 0 {
      ForecastLinesAt(opening, found, 0);
      PrefixStep(found, 0);
    }
    forall i | 0 < i < |lines|
      ensures lines[i].balanceAfter == lines[i - 1].balanceAfter + Flow(found[i])
    {
      ForecastLinesAt(opening, found, i);
      ForecastLinesAt(opening, found, i - 1);
      PrefixStep(found, i);
    }
  }

  /** One turn of the walk: what the next item adds to the lines, the balance and
      the totals. */
  lemma WalkStep(opening: int, s: seq<PlannedItem>, i: int)
    requires 0 <= i < |s|
    ensures ForecastLines(opening, s[..i + 1]) == ForecastLines(opening, s[..i]) + [LineOf(s[i], opening + FlowSum(s[..i + 1]))]
    ensures FlowSum(s[..i + 1]) == FlowSum(s[..i]) + Flow(s[i])
    ensures AmountOfKind(s[..i + 1], Categories.Income)
      == AmountOfKind(s[..i], Categories.Income) + (if s[i].kind == Categories.Income then s[i].amount else 0)
    ensures AmountOfKind(s[..i + 1], Categories.Payment)
      == AmountOfKind(s[..i], Categories.Payment) + (if s[i].kind == Categories.Payment then s[i].amount else 0)
  {
    var next := s[..i + 1];
    assert next[..|next| - 1] == s[..i] && next[|next| - 1] == s[i];
  }

  lemma PrefixStep(s: seq<PlannedItem>, i: int)
    requires 0 <= i < |s|
    ensures FlowSum(s[..i + 1]) == FlowSum(s[..i]) + Flow(s[i])
    ensures forall kind ::
      AmountOfKind(s[..i + 1], kind) == AmountOfKind(s[..i], kind) + (if s[i].kind == kind then s[i].amount else 0)
  {
    assert s[..i + 1][..i] == s[..i];
  }

  /** The net flow is total income minus total payments. */
  lemma {:induction false} FlowSumIsIncomeMinusPayments(s: seq<PlannedItem>)
    ensures FlowSum(s) == AmountOfKind(s, Categories.Income) - AmountOfKind(s, Categories.Payment)
  {
    if s != [] {
      FlowSumIsIncomeMinusPayments(s[..|s| - 1]);
    }
  }

  /** The closing balance is the last line's balance, or the opening balance when
      there are no lines, and it is the opening balance plus the net cashflow. */
  lemma ClosingBalance(opening: int, found: seq<PlannedItem>)
    ensures opening + FlowSum(found) == LastBalance(opening, ForecastLines(opening, found))
    ensures opening + FlowSum(found)
      == opening + (AmountOfKind(found, Categories.Income) - AmountOfKind(found, Categories.Payment))
  {
    if found != [] {
      assert found[..|found|] == found;
    }
    FlowSumIsIncomeMinusPayments(found);
  }

  /** The i-th line shows the i-th record the search found, an item of the store
      that passes the filter, with the balance after it. */
  lemma LinesShowSelectedItems(f: ForecastFilter, items: seq<PlannedItem>, i: int)
    requires 0 <= i < |ForecastSearch(f, items)|
    ensures var found := ForecastSearch(f, items);
      var lines := ForecastLines(f.openingBalance, found);
      && found[i] in items && ForecastSelected(f, found[i])
      && lines[i] == LineOf(found[i], lines[i].balanceAfter)
  {
    var found := ForecastSearch(f, items);
    assert found[i] in found;
    LineShowsItem(f.openingBalance, found, i);
  }

  lemma LineShowsItem(opening: int, found: seq<PlannedItem>, i: int)
    requires 0 <= i < |found|
    ensures ForecastLines(opening, found)[i] == LineOf(found[i], ForecastLines(opening, found)[i].balanceAfter)
  {
    ForecastLinesAt(opening, found, i);
  }

  /** The lines come in search order, so their dates never decrease. */
  lemma LinesInDateOrder(f: ForecastFilter, items: seq<PlannedItem>)
    ensures var lines := ForecastLines(f.openingBalance, ForecastSearch(f, items));
      forall i, j :: 0 <= i < j < |lines| ==> NotAfter(lines[i].plannedDate, lines[j].plannedDate)
  {
    SortedLinesInDateOrder(f.openingBalance, ForecastSearch(f, items));
  }

  lemma SortedLinesInDateOrder(opening: int, found: seq<PlannedItem>)
    requires Sorted(found)
    ensures var lines := ForecastLines(opening, found);
      forall i, j :: 0 <= i < j < |lines| ==> NotAfter(lines[i].plannedDate, lines[j].plannedDate)
  {
    var lines := ForecastLines(opening, found);
    forall i, j | 0 <= i < j < |lines|
      ensures NotAfter(lines[i].plannedDate, lines[j].plannedDate)
    {
      ForecastLinesAt(opening, found, i);
      ForecastLinesAt(opening, found, j);
      assert KeyLe(found[i], found[j]);
      BeforeIsStrictTotalOrder(found[i].plannedDate, found[j].plannedDate, found[j].plannedDate);
    }
  }

  /** Without 'include planned' a cancelled item inside the period is listed (and so
      moves the balance); with it, the same item is not. */
  lemma CancelledItemsCountWithoutStateFilter(f: ForecastFilter, items: seq<PlannedItem>, x: PlannedItem)
    requires !f.includePlanned && x in items && x.state == Cancelled
    requires InRange(x.plannedDate, f.dateFrom, f.dateTo) && (f.category.Some? ==> x.category == f.category.value)
    ensures x in ForecastSearch(f, items)
    ensures x !in ForecastSearch(f.(includePlanned := true), items)
  {
  }

  /** No items: no lines, and the closing balance is the opening balance. */
  lemma EmptyForecast(f: ForecastFilter)
    ensures ForecastLines(f.openingBalance, ForecastSearch(f, [])) == []
    ensures f.openingBalance + FlowSum(ForecastSearch(f, [])) == f.openingBalance
  {
    assert ForecastSearch(f, []) == [] by {
      assert Matching(f, []) == [];
    }
  }

  /** An opening balance of 10000.00 with an income of 5000.00 and then a payment of
      2000.00 closes at 13000.00. */
  lemma RunningBalanceExample()
    ensures var income := NewItem(1, "Sale", Categories.Income, Date(2025, 1, 16), 10, 500000, None, None);
      var payment := NewItem(2, "Rent", Categories.Payment, Date(2025, 1, 22), 20, 200000, None, None);
      var lines := ForecastLines(1000000, [income, payment]);
      && lines[0].balanceAfter == 1500000
      && lines[1].balanceAfter == 1300000
      && LastBalance(1000000, lines) == 1300000
  {
    var income := NewItem(1, "Sale", Categories.Income, Date(2025, 1, 16), 10, 500000, None, None);
    var payment := NewItem(2, "Rent", Categories.Payment, Date(2025, 1, 22), 20, 200000, None, None);
    BalanceSteps(1000000, [income, payment]);
  }

  // ---------------------------------------------------------------------------
  // onchange_forecast_months
  // ---------------------------------------------------------------------------

  /** The end date the form proposes for a start date and a number of months: the
      start moved by that many calendar months, or no proposal (the end date stays)
      when the start is unset or the number of months is zero. */
  function OnchangeForecastMonths(dateFrom: Option<Date>, months: int): (dateTo: Option<Date>)
    requires dateFrom.Some? ==> Valid(dateFrom.value)
    ensures dateTo.Some? <==> dateFrom.Some? && months != 0
    ensures dateTo.Some? ==> Valid(dateTo.value) && MonthIndex(dateTo.value) == MonthIndex(dateFrom.value) + months
  {
    if dateFrom.Some? && months != 0 then Some(AddMonths(dateFrom.value, months)) else None
  }

  /** A positive number of months proposes a later end date, on the same day of the
      month where that month has it and on its last day otherwise. */
  lemma ForecastMonthsMovesForward(dateFrom: Date, months: int)
    requires Valid(dateFrom) && months >= 1
    ensures var dateTo := OnchangeForecastMonths(Some(dateFrom), months).value;
      && Before(dateFrom, dateTo)
      && (dateTo.day == dateFrom.day || dateTo.day == DaysInMonth(dateTo.year, dateTo.month))
  {
    AddMonthsForward(dateFrom, months);
  }

  lemma ForecastMonthsExample()
    ensures OnchangeForecastMonths(Some(Date(2025, 11, 30)), 3) == Some(Date(2026, 2, 28))
    ensures OnchangeForecastMonths(Some(Date(2025, 1, 15)), 3) == Some(Date(2025, 4, 15))
    ensures OnchangeForecastMonths(None, 3) == None
    ensures OnchangeForecastMonths(Some(Date(2025, 1, 15)), 0) == None
  {
  }
}
