/** The cashflow overview screen: a reload replaces the report's lines with one line
    per selected planned item (in planned-date, type, id order) followed by one line
    per open or paid customer invoice and then per supplier invoice with money still
    due, and writes the income, payment and net totals onto the report. */
module ReportOverview {
  import opened Wrappers
  import opened Dates
  import opened PlannedItems
  import opened ItemOrder
  import Categories

  type CashType = Categories.CashType

  datatype TypeFilter = AllTypes | IncomeOnly | PaymentsOnly

  datatype StateFilter = AllStates | PlannedOnly | PaidOnly

  /** The report's filter fields. An empty partner set is an unset partner filter. */
  datatype OverviewFilter = OverviewFilter(
    dateFrom: Date,
    dateTo: Date,
    typeFilter: TypeFilter,
    stateFilter: StateFilter,
    category: Option<int>,
    partners: set<int>,
    includePlanned: bool,
    includeInvoices: bool)

  predicate TypeAllows(tf: TypeFilter, kind: CashType) {
    match tf
    case AllTypes => true
    case IncomeOnly => kind == Categories.Income
    case PaymentsOnly => kind == Categories.Payment
  }

  /** A record passes the partner filter when the filter is unset or the record's
      partner is one of the chosen partners; a record without partner never passes a
      set filter. */
  predicate PartnerAllows(partners: set<int>, partner: Option<int>) {
    partners != {} ==> partner.Some? && partner.value in partners
  }

  // ---------------------------------------------------------------------------
  // Lines
  // ---------------------------------------------------------------------------

  datatype LineSource = FromPlannedItem(item: int) | FromInvoice(invoice: int)

  datatype OverviewLine = OverviewLine(
    source: LineSource,
    document: string,
    plannedDate: Option<Date>,
    actualDate: Option<Date>,
    name: string,
    kind: CashType,
    category: Option<int>,
    partner: Option<int>,
    amount: int,
    residual: int,
    signed: int,
    currency: Option<int>,
    priority: Priority,
    state: ItemState)

  function CurrencyId(c: Option<Currency>): Option<int> {
    match c
    case None => None
    case Some(cur) => Some(cur.id)
  }

  // ---------------------------------------------------------------------------
  // Planned items
  // ---------------------------------------------------------------------------

  /** The search domain for planned items: dated inside the period, and matching the
      type, state, category and partner filters that are set. */
  predicate PlannedSelected(f: OverviewFilter, item: PlannedItem) {
    && InRange(item.plannedDate, f.dateFrom, f.dateTo)
    && TypeAllows(f.typeFilter, item.kind)
    && (f.stateFilter == PlannedOnly ==> item.state == Planned)
    && (f.stateFilter == PaidOnly ==> item.state == Paid)
    && (f.category.Some? ==> item.category == f.category.value)
    && PartnerAllows(f.partners, item.partner)
  }

  /** The items the search domain matches, in store order. */
  function Matching(f: OverviewFilter, items: seq<PlannedItem>): (r: seq<PlannedItem>)
    ensures forall x :: x in r <==> x in items && PlannedSelected(f, x)
  {
    if items == [] then []
    else
      var last := items[|items| - 1];
      Matching(f, items[..|items| - 1]) + (if PlannedSelected(f, last) then [last] else [])
  }

  /** The records the search returns, in the order it returns them. */
  function PlannedSearch(f: OverviewFilter, items: seq<PlannedItem>): (found: seq<PlannedItem>)
    ensures Sorted(found)
    ensures forall x :: x in found <==> x in items && PlannedSelected(f, x)
  {
    var kept := Matching(f, items);
    var found := SortByKey(kept);
    assert forall x :: x in found <==> x in kept by {
      forall x
        ensures x in found <==> x in kept
      {
        SortByKeyKeepsRecords(kept, x);
      }
    }
    found
  }

  function PlannedLine(item: PlannedItem): OverviewLine {
    OverviewLine(FromPlannedItem(item.id), "Planned Item", Some(item.plannedDate), item.actualDate,
      item.name, item.kind, Some(item.category), item.partner, item.amount, item.amount,
      SignedAmount(item), CurrencyId(item.currency), item.priority, item.state)
  }

  function PlannedLines(found: seq<PlannedItem>): seq<OverviewLine> {
    seq(|found|, i requires 0 <= i < |found| => PlannedLine(found[i]))
  }

  function PlannedSection(f: OverviewFilter, items: seq<PlannedItem>): seq<OverviewLine> {
    if f.includePlanned then PlannedLines(PlannedSearch(f, items)) else []
  }

  // ---------------------------------------------------------------------------
  // Invoices
  // ---------------------------------------------------------------------------

  datatype InvoiceState = DraftInvoice | ProFormaInvoice | OpenInvoice | PaidInvoice | CancelledInvoice

  /** One row of the invoice table as the report reads it. An empty number is a
      missing number. */
  datatype InvoiceRow = InvoiceRow(
    id: int,
    number: string,
    supplierNumber: string,
    kind: InvoiceType,
    state: InvoiceState,
    dateDue: Option<Date>,
    dateInvoice: Option<Date>,
    partner: Option<int>,
    amountTotal: int,
    residual: int,
    currency: Option<int>,
    probability: Option<Priority>,
    paymentVerified: bool,
    excluded: bool)

  /** The invoice states a state filter lets through: open ones for 'planned', paid
      ones for 'paid', both otherwise. */
  predicate StateListed(sf: StateFilter, s: InvoiceState) {
    match sf
    case AllStates => s == OpenInvoice || s == PaidInvoice
    case PlannedOnly => s == OpenInvoice
    case PaidOnly => s == PaidInvoice
  }

  /** The invoice query of one direction: customer invoices for income, supplier
      invoices for payments, in a listed state, not excluded from cash reports, due
      inside the period (a row without due date never matches), and with a chosen
      partner when partners are chosen. */
  predicate InvoiceQueried(f: OverviewFilter, dir: CashType, row: InvoiceRow) {
    && StateListed(f.stateFilter, row.state)
    && row.kind == (if dir == Categories.Income then OutInvoice else InInvoice)
    && !row.excluded
    && row.dateDue.Some? && InRange(row.dateDue.value, f.dateFrom, f.dateTo)
    && PartnerAllows(f.partners, row.partner)
  }

  /** 'Customer Invoice <number>' or 'Supplier Invoice <supplier number>'. */
  function InvoiceDocument(dir: CashType, row: InvoiceRow): string {
    if dir == Categories.Payment then "Supplier Invoice " + row.supplierNumber
    else "Customer Invoice " + row.number
  }

  function InvoiceLineState(row: InvoiceRow): ItemState {
    if row.paymentVerified || row.state == PaidInvoice then Paid else Planned
  }

  function InvoiceLine(dir: CashType, row: InvoiceRow): OverviewLine {
    var doc := InvoiceDocument(dir, row);
    var state := InvoiceLineState(row);
    OverviewLine(FromInvoice(row.id), doc, row.dateDue, if state == Paid then row.dateInvoice else None,
      doc, dir, None, row.partner, row.residual, row.residual,
      if dir == Categories.Income then row.residual else -row.residual,
      row.currency, if row.probability.Some? then row.probability.value else Medium, state)
  }

  /** A queried row yields a line unless nothing is left to pay on it. */
  predicate YieldsLine(f: OverviewFilter, dir: CashType, row: InvoiceRow) {
    InvoiceQueried(f, dir, row) && row.residual != 0
  }

  /** The lines of one direction's query, in row order. */
  function InvoiceLines(f: OverviewFilter, dir: CashType, rows: seq<InvoiceRow>): seq<OverviewLine> {
    if rows == [] then []
    else
      var last := rows[|rows| - 1];
      InvoiceLines(f, dir, rows[..|rows| - 1]) + (if YieldsLine(f, dir, last) then [InvoiceLine(dir, last)] else [])
  }

  /** The invoice lines of the directions `dirs`, taken in turn; a direction the type
      filter excludes adds nothing. */
  function InvoiceSection(f: OverviewFilter, rows: seq<InvoiceRow>, dirs: seq<CashType>): seq<OverviewLine> {
    if dirs == [] then []
    else
      var d := dirs[|dirs| - 1];
      InvoiceSection(f, rows, dirs[..|dirs| - 1]) + (if TypeAllows(f.typeFilter, d) then InvoiceLines(f, d, rows) else [])
  }

  const Directions: seq<CashType> := [Categories.Income, Categories.Payment]

  /** All lines of a reload: the planned items' lines, then the customer invoices',
      then the supplier invoices'. */
  function ReportLines(f: OverviewFilter, items: seq<PlannedItem>, rows: seq<InvoiceRow>): seq<OverviewLine> {
    PlannedSection(f, items) + (if f.includeInvoices then InvoiceSection(f, rows, Directions) else [])
  }

  /** The sum of the amounts of the lines of one type. */
  function KindTotal(lines: seq<OverviewLine>, kind: CashType): int {
    if lines == [] then 0
    else
      var last := lines[|lines| - 1];
      KindTotal(lines[..|lines| - 1], kind) + (if last.kind == kind then last.amount else 0)
  }

  function SignedTotal(lines: seq<OverviewLine>): int {
    if lines == [] then 0 else SignedTotal(lines[..|lines| - 1]) + lines[|lines| - 1].signed
  }

  // ---------------------------------------------------------------------------
  // The report record
  // ---------------------------------------------------------------------------

  class OverviewReport {
    var lines: seq<OverviewLine>
    var totalIncome: int
    var totalPayment: int
    var netCashflow: int

    constructor()
      ensures lines == [] && totalIncome == 0 && totalPayment == 0 && netCashflow == 0
    {
      lines := [];
      totalIncome := 0;
      totalPayment := 0;
      netCashflow := 0;
    }

    /** display_items: the old lines are dropped, so the new ones depend only on the
        filter and on the current items and invoices. */
    method DisplayItems(f: OverviewFilter, items: seq<PlannedItem>, rows: seq<InvoiceRow>)
      modifies this
      ensures lines == ReportLines(f, items, rows)
      ensures totalIncome == KindTotal(lines, Categories.Income)
      ensures totalPayment == KindTotal(lines, Categories.Payment)
      ensures netCashflow == totalIncome - totalPayment
    {
      var ls: seq<OverviewLine> := [];
      var income, payment := 0, 0;
      if f.includePlanned {
        ls, income, payment := CollectPlannedLines(PlannedSearch(f, items));
      }
      if f.includeInvoices {
        var more, inc, pay := CollectInvoiceSection(f, rows);
        KindTotalConcat(ls, more, Categories.Income);
        KindTotalConcat(ls, more, Categories.Payment);
        ls := ls + more;
        income := income + inc;
        payment := payment + pay;
      }
      lines := ls;
      totalIncome := income;
      totalPayment := payment;
      netCashflow := income - payment;
    }
  }

  /** The loop over the found planned items: one line each, and each amount added to
      the income or the payment total by the item's type. */
  method CollectPlannedLines(found: seq<PlannedItem>) returns (ls: seq<OverviewLine>, income: int, payment: int)
    ensures ls == PlannedLines(found)
    ensures income == KindTotal(ls, Categories.Income)
    ensures payment == KindTotal(ls, Categories.Payment)
  {
    ls, income, payment := [], 0, 0;
    var i := 0;
    while i < |found|
      invariant 0 <= i <= |found|
      invariant |ls| == i
      invariant forall j :: 0 <= j < i ==> ls[j] == PlannedLine(found[j])
      invariant income == KindTotal(ls, Categories.Income)
      invariant payment == KindTotal(ls, Categories.Payment)
    {
      var item := found[i];
      var prev := ls;
      ls := ls + [PlannedLine(item)];
      assert ls[..|ls| - 1] == prev;
      if item.kind == Categories.Income {
        income := income + item.amount;
      } else {
        payment := payment + item.amount;
      }
      i := i + 1;
    }
  }

  /** The loop over the two invoice queries, customer invoices first: a direction
      the type filter excludes is skipped. */
  method CollectInvoiceSection(f: OverviewFilter, rows: seq<InvoiceRow>)
    returns (ls: seq<OverviewLine>, income: int, payment: int)
    ensures ls == InvoiceSection(f, rows, Directions)
    ensures income == KindTotal(ls, Categories.Income)
    ensures payment == KindTotal(ls, Categories.Payment)
  {
    ls, income, payment := [], 0, 0;
    var k := 0;
    while k < |Directions|
      invariant 0 <= k <= |Directions|
      invariant ls == InvoiceSection(f, rows, Directions[..k])
      invariant income == KindTotal(ls, Categories.Income)
      invariant payment == KindTotal(ls, Categories.Payment)
    {
      var dir := Directions[k];
      assert Directions[..k + 1][..k] == Directions[..k];
      if TypeAllows(f.typeFilter, dir) {
        var more, inc, pay := CollectInvoiceLines(f, dir, rows);
        KindTotalConcat(ls, more, Categories.Income);
        KindTotalConcat(ls, more, Categories.Payment);
        ls := ls + more;
        income := income + inc;
        payment := payment + pay;
      }
      k := k + 1;
    }
    assert Directions[..k] == Directions;
  }

  /** The loop over the rows of one direction's invoice query: the lines it creates
      and what it adds to the income and payment totals. */
  method CollectInvoiceLines(f: OverviewFilter, dir: CashType, rows: seq<InvoiceRow>)
    returns (ls: seq<OverviewLine>, income: int, payment: int)
    ensures ls == InvoiceLines(f, dir, rows)
    ensures income == KindTotal(ls, Categories.Income)
    ensures payment == KindTotal(ls, Categories.Payment)
  {
    ls, income, payment := [], 0, 0;
    var i := 0;
    while i < |rows|
      invariant 0 <= i <= |rows|
      invariant ls == InvoiceLines(f, dir, rows[..i])
      invariant income == KindTotal(ls, Categories.Income)
      invariant payment == KindTotal(ls, Categories.Payment)
    {
      var row := rows[i];
      assert rows[..i + 1][..i] == rows[..i];
      if InvoiceQueried(f, dir, row) {
        if row.residual != 0 {
          ls := ls + [InvoiceLine(dir, row)];
          assert ls[..|ls| - 1] == InvoiceLines(f, dir, rows[..i]);
          if dir == Categories.Income {
            income := income + row.residual;
          } else {
            payment := payment + row.residual;
          }
        }
      }
      i := i + 1;
    }
    assert rows[..i] == rows;
  }

  // ---------------------------------------------------------------------------
  // Properties
  // ---------------------------------------------------------------------------

  lemma {:induction false} KindTotalConcat(a: seq<OverviewLine>, b: seq<OverviewLine>, kind: CashType)
    ensures KindTotal(a + b, kind) == KindTotal(a, kind) + KindTotal(b, kind)
    decreases |b|
  {
    if b != [] {
      var c := b[..|b| - 1];
      assert (a + b)[..|a + b| - 1] == a + c;
      assert (a + b)[|a + b| - 1] == b[|b| - 1];
      KindTotalConcat(a, c, kind);
    } else {
      assert a + b == a;
    }
  }

  lemma {:induction false} SignedTotalConcat(a: seq<OverviewLine>, b: seq<OverviewLine>)
    ensures SignedTotal(a + b) == SignedTotal(a) + SignedTotal(b)
    decreases |b|
  {
    if b != [] {
      var c := b[..|b| - 1];
      assert (a + b)[..|a + b| - 1] == a + c;
      assert (a + b)[|a + b| - 1] == b[|b| - 1];
      SignedTotalConcat(a, c);
    } else {
      assert a + b == a;
    }
  }

  /** A line's signed amount is its amount, negated for a payment. */
  predicate SignFollowsType(l: OverviewLine) {
    l.signed == if l.kind == Categories.Income then l.amount else -l.amount
  }

  /** When every line's sign follows its type, the net (income minus payments) is
      the sum of the signed amounts. */
  lemma {:induction false} NetIsSignedTotal(lines: seq<OverviewLine>)
    requires forall l :: l in lines ==> SignFollowsType(l)
    ensures KindTotal(lines, Categories.Income) - KindTotal(lines, Categories.Payment) == SignedTotal(lines)
    decreases |lines|
  {
    if lines != [] {
      assert lines[|lines| - 1] in lines;
      NetIsSignedTotal(lines[..|lines| - 1]);
    }
  }

  lemma {:induction false} InvoiceLinesFacts(f: OverviewFilter, dir: CashType, rows: seq<InvoiceRow>)
    ensures forall l :: l in InvoiceLines(f, dir, rows) ==>
      exists r :: r in rows && YieldsLine(f, dir, r) && l == InvoiceLine(dir, r)
    ensures forall r :: r in rows && YieldsLine(f, dir, r) ==> InvoiceLine(dir, r) in InvoiceLines(f, dir, rows)
    decreases |rows|
  {
    if rows != [] {
      var init := rows[..|rows| - 1];
      InvoiceLinesFacts(f, dir, init);
      assert rows == init + [rows[|rows| - 1]];
    }
  }

  lemma {:induction false} InvoiceSectionFacts(f: OverviewFilter, rows: seq<InvoiceRow>, dirs: seq<CashType>)
    ensures forall l :: l in InvoiceSection(f, rows, dirs) ==>
      exists r :: r in rows && TypeAllows(f.typeFilter, l.kind) && l.kind in dirs
        && YieldsLine(f, l.kind, r) && l == InvoiceLine(l.kind, r)
    ensures forall r, d :: r in rows && d in dirs && TypeAllows(f.typeFilter, d) && YieldsLine(f, d, r) ==>
      InvoiceLine(d, r) in InvoiceSection(f, rows, dirs)
    decreases |dirs|
  {
    if dirs != [] {
      var init := dirs[..|dirs| - 1];
      var d := dirs[|dirs| - 1];
      InvoiceSectionFacts(f, rows, init);
      InvoiceLinesFacts(f, d, rows);
      assert dirs == init + [d];
    }
  }

  /** Every invoice line comes from a row of the query of its own direction that
      the type filter allows and that still has money due; and every such row of
      the rows yields its line. */
  lemma InvoiceLinesAreTheQueriedRows(f: OverviewFilter, items: seq<PlannedItem>, rows: seq<InvoiceRow>)
    ensures forall l :: l in ReportLines(f, items, rows) && l.source.FromInvoice? ==>
      f.includeInvoices && TypeAllows(f.typeFilter, l.kind)
      && exists r :: r in rows && YieldsLine(f, l.kind, r) && l == InvoiceLine(l.kind, r)
    ensures forall r, d :: r in rows && TypeAllows(f.typeFilter, d) && YieldsLine(f, d, r) ==>
      (InvoiceLine(d, r) in ReportLines(f, items, rows) <==> f.includeInvoices)
  {
    var lines := ReportLines(f, items, rows);
    var planned := PlannedSection(f, items);
    var invoices := if f.includeInvoices then InvoiceSection(f, rows, Directions) else [];
    assert lines == planned + invoices;
    PlannedLinesOf(PlannedSearch(f, items));
    assert forall l :: l in planned ==> l.source.FromPlannedItem?;
    InvoiceSectionFacts(f, rows, Directions);
    forall d: CashType
      ensures d in Directions
    {
      if d == Categories.Income {
        assert Directions[0] == d;
      } else {
        assert Directions[1] == d;
      }
    }
  }

  /** An item gets a line exactly when planned items are included and the item
      passes the date, type, state, category and partner filters. */
  lemma PlannedLineIff(f: OverviewFilter, items: seq<PlannedItem>, rows: seq<InvoiceRow>, x: PlannedItem)
    requires x in items
    ensures PlannedLine(x) in ReportLines(f, items, rows) <==> f.includePlanned && PlannedSelected(f, x)
  {
    var lines := ReportLines(f, items, rows);
    var invoices := if f.includeInvoices then InvoiceSection(f, rows, Directions) else [];
    assert lines == PlannedSection(f, items) + invoices;
    InvoiceSectionFacts(f, rows, Directions);
    var found := PlannedSearch(f, items);
    if f.includePlanned && PlannedSelected(f, x) {
      var i :| 0 <= i < |found| && found[i] == x;
      assert PlannedLines(found)[i] == PlannedLine(x);
    }
    if PlannedLine(x) in lines {
      assert PlannedLine(x) !in invoices;
      assert PlannedLine(x) in PlannedSection(f, items);
      var i :| 0 <= i < |found| && PlannedLines(found)[i] == PlannedLine(x);
      assert found[i] in found;
    }
  }

  /** Planned lines come first, one per found record in search order, so their
      dates never decrease. */
  lemma PlannedLinesInDateOrder(f: OverviewFilter, items: seq<PlannedItem>, rows: seq<InvoiceRow>)
    ensures var lines := ReportLines(f, items, rows);
      var n := |PlannedSection(f, items)|;
      && n <= |lines|
      && (forall i :: 0 <= i < n ==> lines[i].source.FromPlannedItem? && lines[i].plannedDate.Some?)
      && (forall i, j :: 0 <= i < j < n ==> NotAfter(lines[i].plannedDate.value, lines[j].plannedDate.value))
  {
    var found := PlannedSearch(f, items);
    var lines := ReportLines(f, items, rows);
    var n := |PlannedSection(f, items)|;
    forall i, j | 0 <= i < j < n
      ensures NotAfter(lines[i].plannedDate.value, lines[j].plannedDate.value)
    {
      assert KeyLe(found[i], found[j]);
      BeforeIsStrictTotalOrder(found[i].plannedDate, found[j].plannedDate, found[j].plannedDate);
    }
  }

  lemma PlannedLinesOf(found: seq<PlannedItem>)
    ensures forall l :: l in PlannedLines(found) ==> exists x :: x in found && l == PlannedLine(x)
  {
    forall l | l in PlannedLines(found)
      ensures exists x :: x in found && l == PlannedLine(x)
    {
      var i :| 0 <= i < |found| && PlannedLines(found)[i] == l;
      assert found[i] in found;
    }
  }

  /** Every line that comes from a planned item is the line of a record of the store
      that the search selects, and planned items are included. */
  lemma PlannedLinesComeFromSelectedItems(f: OverviewFilter, items: seq<PlannedItem>, rows: seq<InvoiceRow>)
    ensures forall l :: l in ReportLines(f, items, rows) && l.source.FromPlannedItem? ==>
      f.includePlanned && exists x :: x in items && PlannedSelected(f, x) && l == PlannedLine(x)
  {
    var lines := ReportLines(f, items, rows);
    var invoices := if f.includeInvoices then InvoiceSection(f, rows, Directions) else [];
    assert lines == PlannedSection(f, items) + invoices;
    InvoiceSectionFacts(f, rows, Directions);
    var found := PlannedSearch(f, items);
    PlannedLinesOf(found);
    forall l | l in lines && l.source.FromPlannedItem?
      ensures f.includePlanned && exists x :: x in items && PlannedSelected(f, x) && l == PlannedLine(x)
    {
      assert l !in invoices;
      var x :| x in found && l == PlannedLine(x);
      assert x in items && PlannedSelected(f, x);
    }
  }

  /** In a store whose amounts pass the positive-amount constraint, every line
      carries its residual as its amount, its sign follows its type, an invoice line
      has money due, and only a paid invoice line has an actual date; so the net
      total is the sum of the signed amounts. */
  lemma LinesAreConsistent(f: OverviewFilter, items: seq<PlannedItem>, rows: seq<InvoiceRow>)
    requires forall x :: x in items ==> x.amount > 0
    ensures forall l :: l in ReportLines(f, items, rows) ==>
      && l.residual == l.amount && SignFollowsType(l)
      && (l.source.FromInvoice? ==> l.amount != 0 && (l.actualDate.Some? ==> l.state == Paid))
    ensures var lines := ReportLines(f, items, rows);
      KindTotal(lines, Categories.Income) - KindTotal(lines, Categories.Payment) == SignedTotal(lines)
  {
    var lines := ReportLines(f, items, rows);
    InvoiceLinesAreTheQueriedRows(f, items, rows);
    PlannedLinesComeFromSelectedItems(f, items, rows);
    NetIsSignedTotal(lines);
  }

  /** The type filter keeps the other direction out entirely. */
  lemma TypeFilterExcludesOtherDirection(f: OverviewFilter, items: seq<PlannedItem>, rows: seq<InvoiceRow>)
    requires f.typeFilter != AllTypes
    ensures forall l :: l in ReportLines(f, items, rows) ==> TypeAllows(f.typeFilter, l.kind)
  {
    InvoiceLinesAreTheQueriedRows(f, items, rows);
    PlannedLinesComeFromSelectedItems(f, items, rows);
  }

  /** With the 'paid' state filter every line is paid. */
  lemma PaidFilterGivesPaidLines(f: OverviewFilter, items: seq<PlannedItem>, rows: seq<InvoiceRow>)
    requires f.stateFilter == PaidOnly
    ensures forall l :: l in ReportLines(f, items, rows) ==> l.state == Paid
  {
    InvoiceLinesAreTheQueriedRows(f, items, rows);
    PlannedLinesComeFromSelectedItems(f, items, rows);
  }

  /** The 'planned' state filter queries open invoices only, yet an open invoice
      whose payment is verified still shows as a paid line. */
  lemma PlannedFilterShowsVerifiedInvoiceAsPaid()
    ensures var f := OverviewFilter(Date(2025, 1, 1), Date(2025, 1, 31), AllTypes, PlannedOnly, None, {}, false, true);
      var row := InvoiceRow(7, "INV/001", "", OutInvoice, OpenInvoice, Some(Date(2025, 1, 20)), Some(Date(2025, 1, 5)),
        None, 120000, 120000, None, None, true, false);
      var lines := ReportLines(f, [], [row]);
      |lines| == 1 && lines[0].state == Paid && lines[0].actualDate == Some(Date(2025, 1, 5))
      && lines[0].document == "Customer Invoice INV/001"
  {
    var f := OverviewFilter(Date(2025, 1, 1), Date(2025, 1, 31), AllTypes, PlannedOnly, None, {}, false, true);
    var row := InvoiceRow(7, "INV/001", "", OutInvoice, OpenInvoice, Some(Date(2025, 1, 20)), Some(Date(2025, 1, 5)),
      None, 120000, 120000, None, None, true, false);
    assert [row][..0] == [];
    assert InvoiceLines(f, Categories.Income, [row]) == [InvoiceLine(Categories.Income, row)];
    assert InvoiceLines(f, Categories.Payment, [row]) == [];
    assert Directions[..1] == [Categories.Income];
    assert Directions[..1][..0] == [];
    assert InvoiceSection(f, [row], Directions[..1]) == [InvoiceLine(Categories.Income, row)];
    assert InvoiceSection(f, [row], Directions) == [InvoiceLine(Categories.Income, row)];
    assert ReportLines(f, [], [row]) == [InvoiceLine(Categories.Income, row)];
  }

  const SampleFilter := OverviewFilter(Date(2025, 1, 1), Date(2025, 2, 28), AllTypes, AllStates, None, {}, true, true)
  const Salary := NewItem(1, "Salary Payment", Categories.Income, Date(2025, 1, 16), 10, 500000, None, None)
  const Rent := NewItem(2, "Rent Payment", Categories.Payment, Date(2025, 1, 22), 20, 200000, None, None)
  const Utilities := NewItem(3, "Utilities", Categories.Payment, Date(2025, 1, 22), 20, 50000, None, None)

  /** The sample items are all selected and already in date, type, id order, so the
      search returns them as they are. */
  lemma SampleSearch()
    ensures PlannedSearch(SampleFilter, [Salary, Rent, Utilities]) == [Salary, Rent, Utilities]
  {
    var items := [Salary, Rent, Utilities];
    SampleMatching();
    assert StrictlySorted(items) by {
      assert !KeyLe(Rent, Salary) && !KeyLe(Utilities, Salary) && !KeyLe(Utilities, Rent);
    }
    SortKeepsStrictlySorted(items);
  }

  lemma SampleMatching()
    ensures Matching(SampleFilter, [Salary, Rent, Utilities]) == [Salary, Rent, Utilities]
  {
    var items := [Salary, Rent, Utilities];
    var f := SampleFilter;
    assert items[..2] == [Salary, Rent] && items[..2][..1] == [Salary] && [Salary][..0] == [];
    assert PlannedSelected(f, Salary) && PlannedSelected(f, Rent) && PlannedSelected(f, Utilities);
    assert Matching(f, [Salary]) == [Salary];
    assert Matching(f, [Salary, Rent]) == [Salary, Rent];
  }

  /** One income of 5000.00 and payments of 2000.00 and 500.00 inside the period give
      three lines, income 5000.00 and payments 2500.00, so a net of 2500.00. */
  lemma OverviewTotalsExample()
    ensures var lines := ReportLines(SampleFilter, [Salary, Rent, Utilities], []);
      && |lines| == 3
      && KindTotal(lines, Categories.Income) == 500000
      && KindTotal(lines, Categories.Payment) == 250000
  {
    var f := SampleFilter;
    var items := [Salary, Rent, Utilities];
    SampleSearch();
    assert InvoiceLines(f, Categories.Income, []) == [] && InvoiceLines(f, Categories.Payment, []) == [];
    assert Directions[..1] == [Categories.Income];
    assert Directions[..1][..0] == [];
    assert InvoiceSection(f, [], Directions) == [];
    var lines := ReportLines(f, items, []);
    assert PlannedSection(f, items) == PlannedLines(items);
    PlannedLinesOfThree(Salary, Rent, Utilities);
    assert lines == PlannedLines(items) + [];
    var a, b, c := PlannedLine(Salary), PlannedLine(Rent), PlannedLine(Utilities);
    assert lines == [a, b, c];
    assert a.kind == Categories.Income && a.amount == 500000;
    assert b.kind == Categories.Payment && b.amount == 200000;
    assert c.kind == Categories.Payment && c.amount == 50000;
    KindTotalOfThree(a, b, c, Categories.Income);
    KindTotalOfThree(a, b, c, Categories.Payment);
  }

  lemma KindTotalOfThree(a: OverviewLine, b: OverviewLine, c: OverviewLine, kind: CashType)
    ensures KindTotal([a, b, c], kind)
      == (if a.kind == kind then a.amount else 0) + (if b.kind == kind then b.amount else 0)
        + (if c.kind == kind then c.amount else 0)
  {
    assert [a, b, c][..2] == [a, b] && [a, b][..1] == [a] && [a][..0] == [];
    assert KindTotal([a], kind) == (if a.kind == kind then a.amount else 0);
    assert KindTotal([a, b], kind) == KindTotal([a], kind) + (if b.kind == kind then b.amount else 0);
  }

  lemma PlannedLinesOfThree(x: PlannedItem, y: PlannedItem, z: PlannedItem)
    ensures PlannedLines([x, y, z]) == [PlannedLine(x), PlannedLine(y), PlannedLine(z)]
  {
  }
}
