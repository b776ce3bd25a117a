/** The figures of the budget analysis spreadsheet: for each report line a usage
    percentage, a status label and the colour of its number and text cells, a
    variance of used minus planned, and a totals row. Writing the cells is not part
    of the model. */
module BudgetSheet {
  import opened Wrappers
  import opened ReportBudget
  import Budgets

  /** Used as a percentage of planned, or 0 when planned is zero. */
  function Percent(used: int, planned: int): (pct: real)
    ensures planned == 0 ==> pct == 0.0
    ensures planned != 0 ==> pct * (planned as real) == (used as real) * 100.0
  {
    if planned != 0 then (used as real / planned as real) * 100.0 else 0.0
  }

  datatype Status = Good | OnTrack | Warning | OverBudget

  /** The status label: four bands of the percentage, tested in the order
      below 50, 100 or more, 90 or more, and the rest. */
  function StatusOf(pct: real): (s: Status)
    ensures s == Good <==> pct < 50.0
    ensures s == OnTrack <==> 50.0 <= pct < 90.0
    ensures s == Warning <==> 90.0 <= pct < 100.0
    ensures s == OverBudget <==> 100.0 <= pct
  {
    if pct < 50.0 then Good
    else if pct >= 100.0 then OverBudget
    else if pct >= 90.0 then Warning
    else OnTrack
  }

  /** The styles of the number cells: green, plain, orange and red. */
  datatype NumberStyle = DecimalGreen | Decimal | DecimalOrange | DecimalRed

  /** The styles of the status text cell. */
  datatype TextStyle = LeftGreen | LeftBorder | LeftOrange | LeftRed

  function VarianceStyle(pct: real): NumberStyle {
    if pct < 50.0 then DecimalGreen
    else if pct >= 100.0 then DecimalRed
    else if pct >= 90.0 then DecimalOrange
    else Decimal
  }

  function StatusStyle(pct: real): TextStyle {
    if pct < 50.0 then LeftGreen
    else if pct >= 100.0 then LeftRed
    else if pct >= 90.0 then LeftOrange
    else LeftBorder
  }

  /** The colour that goes with each status. */
  function NumberColour(s: Status): NumberStyle {
    match s
    case Good => DecimalGreen
    case OnTrack => Decimal
    case Warning => DecimalOrange
    case OverBudget => DecimalRed
  }

  function TextColour(s: Status): TextStyle {
    match s
    case Good => LeftGreen
    case OnTrack => LeftBorder
    case Warning => LeftOrange
    case OverBudget => LeftRed
  }

  /** Both cell styles split the percentages into the same four bands as the status
      label, so a row's colours always match its label. */
  lemma StylesFollowStatus(pct: real)
    ensures VarianceStyle(pct) == NumberColour(StatusOf(pct))
    ensures StatusStyle(pct) == TextColour(StatusOf(pct))
    ensures VarianceStyle(pct) == DecimalGreen <==> pct < 50.0
    ensures VarianceStyle(pct) == DecimalRed <==> pct >= 100.0
    ensures StatusStyle(pct) == LeftOrange <==> 90.0 <= pct < 100.0
  {
  }

  /** The computed part of one spreadsheet row. */
  datatype SheetRow = SheetRow(
    percent: real,
    numberStyle: NumberStyle,
    textStyle: TextStyle,
    status: Status,
    variance: int)

  function RowOf(l: BudgetLine): SheetRow {
    var pct := Percent(l.used, l.planned);
    SheetRow(pct, VarianceStyle(pct), StatusStyle(pct), StatusOf(pct), l.used - l.planned)
  }

  datatype SheetTotals = SheetTotals(planned: int, used: int, remaining: int, variance: int, percent: real)

  /** The sum of the rows' variances. */
  function VarianceSum(lines: seq<BudgetLine>): int {
    if lines == [] then 0
    else VarianceSum(lines[..|lines| - 1]) + (lines[|lines| - 1].used - lines[|lines| - 1].planned)
  }

  /** The loop of the spreadsheet over the report lines: one computed row per line,
      and the totals row, whose percentage is taken over the planned and used
      totals. */
  method SheetFigures(lines: seq<BudgetLine>) returns (rows: seq<SheetRow>, totals: SheetTotals)
    ensures |rows| == |lines|
    ensures forall i :: 0 <= i < |lines| ==> rows[i] == RowOf(lines[i])
    ensures totals.planned == SumLines(lines).planned
    ensures totals.used == SumLines(lines).used
    ensures totals.remaining == SumLines(lines).remaining
    ensures totals.variance == VarianceSum(lines)
    ensures totals.percent == Percent(totals.used, totals.planned)
  {
    rows := [];
    var planned, used, remaining, variance := 0, 0, 0, 0;
    var i := 0;
    while i < |lines|
      invariant 0 <= i <= |lines|
      invariant |rows| == i
      invariant forall k :: 0 <= k < i ==> rows[k] == RowOf(lines[k])
      invariant Totals(planned, used, remaining) == SumLines(lines[..i])
      invariant variance == VarianceSum(lines[..i])
    {
      var l := lines[i];
      var pct := 0.0;
      if l.planned != 0 {
        pct := (l.used as real / l.planned as real) * 100.0;
      }
      var numberStyle := VarianceStyle(pct);
      var textStyle := StatusStyle(pct);
      var status := StatusOf(pct);
      var v := l.used - l.planned;
      SheetStep(lines, i);
      planned := planned + l.planned;
      used := used + l.used;
      remaining := remaining + l.remaining;
      variance := variance + v;
      rows := rows + [SheetRow(pct, numberStyle, textStyle, status, v)];
      i := i + 1;
    }
    assert lines[..i] == lines;
    var pct := 0.0;
    if planned != 0 {
      pct := (used as real / planned as real) * 100.0;
    }
    totals := SheetTotals(planned, used, remaining, variance, pct);
  }

  lemma SheetStep(lines: seq<BudgetLine>, i: int)
    requires 0 <= i < |lines|
    ensures SumLines(lines[..i + 1]) == Totals(SumLines(lines[..i]).planned + lines[i].planned,
      SumLines(lines[..i]).used + lines[i].used, SumLines(lines[..i]).remaining + lines[i].remaining)
    ensures VarianceSum(lines[..i + 1]) == VarianceSum(lines[..i]) + (lines[i].used - lines[i].planned)
  {
    assert lines[..i + 1][..i] == lines[..i];
  }

  /** The total variance is the total used minus the total planned. */
  lemma {:induction false} VarianceSumIsUsedMinusPlanned(lines: seq<BudgetLine>)
    ensures VarianceSum(lines) == SumLines(lines).used - SumLines(lines).planned
    decreases |lines|
  {
    if lines != [] {
      VarianceSumIsUsedMinusPlanned(lines[..|lines| - 1]);
    }
  }

  /** On lines whose remaining amount is planned minus used, each row's variance is
      the negated remaining amount, and so is the total variance. */
  lemma VarianceIsNegatedRemaining(lines: seq<BudgetLine>)
    requires forall l :: l in lines ==> l.remaining == l.planned - l.used
    ensures forall l :: l in lines ==> RowOf(l).variance == -l.remaining
    ensures VarianceSum(lines) == -SumLines(lines).remaining
  {
    VarianceSumIsUsedMinusPlanned(lines);
    TotalsOfFreshLines(lines);
  }

  /** The spreadsheet's percentage is the report line's usage whenever the planned
      amount is not negative; the report tests for a positive planned amount and
      the spreadsheet for a nonzero one, so the two part only below zero. */
  lemma PercentMatchesUsage(b: Budgets.Budget)
    ensures b.plannedAmount >= 0 ==> RowOf(LineOf(b)).percent == LineOf(b).usage
    ensures b.plannedAmount < 0 ==> LineOf(b).usage == 0.0
  {
  }

  lemma PercentMatchesUsageExample()
    ensures var b := Budgets.Budget(7, "Refunds", None, None, None, -10000, 5000, -15000, Budgets.Draft);
      RowOf(LineOf(b)).percent == -50.0 && LineOf(b).usage == 0.0
  {
  }

  /** A line using 3000.00 of 10000.00 is on the good side; 9500.00 is a warning;
      10000.00 is over budget. */
  lemma StatusExample()
    ensures StatusOf(Percent(300000, 1000000)) == Good
    ensures StatusOf(Percent(700000, 1000000)) == OnTrack
    ensures StatusOf(Percent(950000, 1000000)) == Warning
    ensures StatusOf(Percent(1000000, 1000000)) == OverBudget
    ensures StatusOf(Percent(500, 0)) == Good
  {
  }
}
