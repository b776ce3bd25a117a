/** Planned items: single expected incomes and payments, their signed amounts, their
    validation, the paid / cancelled / planned transitions and the form helpers that
    fill an item from a partner or an invoice. */
module PlannedItems {
  import opened Wrappers
  import opened Dates
  import opened Text
  import Categories

  type CashType = Categories.CashType

  datatype ItemState = Planned | Paid | Cancelled

  datatype Priority = Low | Medium | High

  datatype Currency = Currency(id: int, symbol: string, name: string)

  /** A stored planned item. Amounts are in cents; an empty name is an unset name. */
  datatype PlannedItem = PlannedItem(
    id: int,
    name: string,
    kind: CashType,
    plannedDate: Date,
    actualDate: Option<Date>,
    category: int,
    amount: int,
    currency: Option<Currency>,
    priority: Priority,
    partner: Option<int>,
    state: ItemState,
    budget: Option<int>,
    invoice: Option<int>)

  function Abs(x: int): nat {
    if x < 0 then -x else x
  }

  // ---------------------------------------------------------------------------
  // _compute_signed_amount
  // ---------------------------------------------------------------------------

  /** The sign rule shared by planned and recurring items: the absolute amount,
      negated for a payment. */
  function SignOf(kind: CashType, amount: int): int {
    var a: int := Abs(amount);
    if kind == Categories.Payment then -a else a
  }

  /** The signed amount: money coming in counts positive, money going out negative,
      whatever the sign of the stored amount. */
  function SignedAmount(item: PlannedItem): (s: int)
    ensures Abs(s) == Abs(item.amount)
    ensures item.kind == Categories.Payment ==> s <= 0
    ensures item.kind == Categories.Income ==> s >= 0
  {
    SignOf(item.kind, item.amount)
  }

  function SumSigned(items: seq<PlannedItem>): int {
    if items == [] then 0 else SumSigned(items[..|items| - 1]) + SignedAmount(items[|items| - 1])
  }

  /** The sum of the absolute amounts of the items of one type. */
  function TotalOfKind(items: seq<PlannedItem>, kind: CashType): nat {
    if items == [] then 0
    else
      var last := items[|items| - 1];
      TotalOfKind(items[..|items| - 1], kind) + (if last.kind == kind then Abs(last.amount) else 0)
  }

  /** Net cashflow: the sum of signed amounts is total income minus total payments. */
  lemma {:induction false} SignedSumIsIncomeMinusPayments(items: seq<PlannedItem>)
    ensures SumSigned(items) == TotalOfKind(items, Categories.Income) - TotalOfKind(items, Categories.Payment)
    decreases |items|
  {
    if items != [] {
      SignedSumIsIncomeMinusPayments(items[..|items| - 1]);
    }
  }

  lemma SignedSumExample()
    ensures
      var cat := 1;
      var inc := PlannedItem(1, "Sale", Categories.Income, Date(2025, 1, 10), None, cat, 500000, None, Medium, None, Planned, None, None);
      var pay := PlannedItem(2, "Rent", Categories.Payment, Date(2025, 1, 12), None, cat, 200000, None, Medium, None, Planned, None, None);
      SumSigned([inc, pay]) == 300000
  {
    var inc := PlannedItem(1, "Sale", Categories.Income, Date(2025, 1, 10), None, 1, 500000, None, Medium, None, Planned, None, None);
    var pay := PlannedItem(2, "Rent", Categories.Payment, Date(2025, 1, 12), None, 1, 200000, None, Medium, None, Planned, None, None);
    assert [inc, pay][..1] == [inc] && [inc][..0] == [];
    assert SumSigned([inc]) == 500000;
    assert SumSigned([inc, pay]) == SumSigned([inc]) + SignedAmount(pay);
  }

  // ---------------------------------------------------------------------------
  // Constraints
  // ---------------------------------------------------------------------------

  datatype ItemError = AmountNotPositive | TypeMismatch

  /** The constraint messages a stored item raises: the amount must be positive, and
      the item's type must equal its category's type. */
  function Violations(h: Categories.Hierarchy, item: PlannedItem): (errs: set<ItemError>)
    ensures AmountNotPositive in errs <==> item.amount <= 0
    ensures TypeMismatch in errs <==> item.category in h && h[item.category].kind != item.kind
  {
    (if item.amount <= 0 then {AmountNotPositive} else {})
      + (if item.category in h && h[item.category].kind != item.kind then {TypeMismatch} else {})
  }

  /** An item that passes both constraints carries the sign of its category: positive
      under an income category, negative under a payment category. */
  lemma ValidItemFollowsCategorySign(h: Categories.Hierarchy, item: PlannedItem)
    requires Violations(h, item) == {} && item.category in h
    ensures SignedAmount(item) != 0
    ensures SignedAmount(item) > 0 <==> h[item.category].kind == Categories.Income
  {
    assert AmountNotPositive !in Violations(h, item);
    assert TypeMismatch !in Violations(h, item);
  }

  /** The constraint messages that abort a run creating `ps` one after the other:
      those of the first item that fails a constraint (its create raises and the
      transaction is rolled back), or none when every item passes. */
  function CreateErrors(h: Categories.Hierarchy, ps: seq<PlannedItem>): set<ItemError> {
    if ps == [] then {}
    else
      var prev := CreateErrors(h, ps[..|ps| - 1]);
      if prev != {} then prev else Violations(h, ps[|ps| - 1])
  }

  /** A run fails exactly when one of its items fails a constraint, and then with
      the messages of the first such item. */
  lemma {:induction false} CreateErrorsIsFirstFailure(h: Categories.Hierarchy, ps: seq<PlannedItem>)
    ensures CreateErrors(h, ps) == {} <==> forall k :: 0 <= k < |ps| ==> Violations(h, ps[k]) == {}
    ensures CreateErrors(h, ps) != {} ==>
      exists k :: 0 <= k < |ps| && CreateErrors(h, ps) == Violations(h, ps[k])
                  && (forall j :: 0 <= j < k ==> Violations(h, ps[j]) == {})
    decreases |ps|
  {
    if ps != [] {
      var init := ps[..|ps| - 1];
      CreateErrorsIsFirstFailure(h, init);
      assert forall k :: 0 <= k < |init| ==> init[k] == ps[k];
    }
  }

  /** Creating one more item: a run that has not failed yet fails exactly with that
      item's messages. */
  lemma CreateErrorsAppend(h: Categories.Hierarchy, xs: seq<PlannedItem>, p: PlannedItem)
    ensures CreateErrors(h, xs + [p]) == if CreateErrors(h, xs) != {} then CreateErrors(h, xs) else Violations(h, p)
  {
    assert (xs + [p])[..|xs|] == xs;
  }

  /** A run that has not failed and then creates a failing `p`, inside any longer
      run: the longer run fails with `p`'s messages. */
  lemma CreateErrorsFailAt(h: Categories.Hierarchy, prev: seq<PlannedItem>, p: PlannedItem, whole: seq<PlannedItem>)
    requires CreateErrors(h, prev) == {} && prev + [p] <= whole && Violations(h, p) != {}
    ensures CreateErrors(h, whole) == Violations(h, p)
  {
    CreateErrorsAppend(h, prev, p);
    CreateErrorsOfPrefix(h, prev + [p], whole);
  }

  /** The ORM's check on one create in a run that has not failed yet: the messages
      of the new item, which are then the messages of the run up to this create. */
  method ValidateCreate(h: Categories.Hierarchy, prev: seq<PlannedItem>, p: PlannedItem)
    returns (errs: set<ItemError>)
    requires CreateErrors(h, prev) == {}
    ensures errs == Violations(h, p)
    ensures CreateErrors(h, prev + [p]) == errs
  {
    errs := Violations(h, p);
    CreateErrorsAppend(h, prev, p);
  }

  /** Once a run has failed, creating more items does not change its error. */
  lemma {:induction false} CreateErrorsOfPrefix(h: Categories.Hierarchy, xs: seq<PlannedItem>, ys: seq<PlannedItem>)
    requires xs <= ys && CreateErrors(h, xs) != {}
    ensures CreateErrors(h, ys) == CreateErrors(h, xs)
    decreases |ys|
  {
    if |ys| > |xs| {
      assert xs <= ys[..|ys| - 1];
      CreateErrorsOfPrefix(h, xs, ys[..|ys| - 1]);
    } else {
      assert xs == ys;
    }
  }

  // ---------------------------------------------------------------------------
  // onchange_partner_id and onchange_invoice_id
  // ---------------------------------------------------------------------------

  datatype Partner = Partner(customer: bool, supplier: bool)

  /** The type suggested for a partner: a customer suggests income, otherwise a
      supplier suggests payment, otherwise nothing is suggested. */
  function OnchangePartner(partner: Option<Partner>): (kind: Option<CashType>)
  {
    match partner
    case None => None
    case Some(p) =>
      if p.customer then Some(Categories.Income)
      else if p.supplier then Some(Categories.Payment)
      else None
  }

  lemma OnchangePartnerSuggests(partner: Option<Partner>)
    ensures OnchangePartner(partner) == Some(Categories.Income) <==> partner.Some? && partner.value.customer
    ensures OnchangePartner(partner) == Some(Categories.Payment) <==>
      partner.Some? && !partner.value.customer && partner.value.supplier
    ensures OnchangePartner(partner).None? <==>
      partner.None? || (!partner.value.customer && !partner.value.supplier)
  {
  }

  datatype InvoiceType = OutInvoice | OutRefund | InInvoice | InRefund

  /** The direction of money an invoice type stands for: customer documents bring
      money in, supplier documents send it out. */
  function InvoiceDirection(t: InvoiceType): (kind: CashType)
    ensures kind == Categories.Income <==> t == OutInvoice || t == OutRefund
  {
    if t == OutInvoice || t == OutRefund then Categories.Income else Categories.Payment
  }

  datatype Invoice = Invoice(
    name: string,
    number: string,
    partner: Option<int>,
    amountTotal: int,
    currency: Option<int>,
    dateDue: Option<Date>,
    dateInvoice: Option<Date>,
    kind: InvoiceType)

  /** The values the form receives when an invoice is chosen. */
  datatype InvoiceValues = InvoiceValues(
    name: string,
    partner: Option<int>,
    amount: int,
    currency: Option<int>,
    plannedDate: Option<Date>,
    kind: CashType)

  function FirstNonEmpty(a: string, b: string, fallback: string): string {
    if a != "" then a else if b != "" then b else fallback
  }

  function OnchangeInvoice(invoice: Option<Invoice>): (r: Option<InvoiceValues>)
    ensures r.Some? <==> invoice.Some?
  {
    match invoice
    case None => None
    case Some(inv) =>
      Some(InvoiceValues(
        FirstNonEmpty(inv.name, inv.number, "Invoice"),
        inv.partner,
        inv.amountTotal,
        inv.currency,
        if inv.dateDue.Some? then inv.dateDue else inv.dateInvoice,
        InvoiceDirection(inv.kind)))
  }

  /** Choosing an invoice copies its partner, total and currency, takes the due date
      (falling back to the invoice date), the name (falling back to the number, then
      'Invoice') and the direction of its type. */
  lemma OnchangeInvoiceFills(inv: Invoice)
    ensures var v := OnchangeInvoice(Some(inv)).value;
      && v.partner == inv.partner && v.amount == inv.amountTotal && v.currency == inv.currency
      && (inv.dateDue.Some? ==> v.plannedDate == inv.dateDue)
      && (inv.dateDue.None? ==> v.plannedDate == inv.dateInvoice)
      && (v.kind == Categories.Income <==> inv.kind in {OutInvoice, OutRefund})
      && v.name != ""
      && (inv.name != "" ==> v.name == inv.name)
      && (inv.name == "" && inv.number != "" ==> v.name == inv.number)
  {
  }

  // ---------------------------------------------------------------------------
  // name_get
  // ---------------------------------------------------------------------------

  function BaseName(item: PlannedItem): string {
    if item.name != "" then item.name else "Planned Item"
  }

  /** ' (amount symbol)' for a nonzero amount with a currency, showing the currency
      symbol, or its name when it has no symbol; empty otherwise. */
  function AmountPart(item: PlannedItem): (part: string)
    ensures part == "" <==> item.amount == 0 || item.currency.None?
  {
    if item.amount != 0 && item.currency.Some? then
      var cur := item.currency.value;
      " (" + FormatCents(item.amount) + " " + (if cur.symbol != "" then cur.symbol else cur.name) + ")"
    else ""
  }

  function DatePart(item: PlannedItem): string {
    " [" + FormatDate(item.plannedDate) + "]"
  }

  /** 'Name (amount symbol) [date]', the name falling back to 'Planned Item'. */
  function DisplayName(item: PlannedItem): string {
    BaseName(item) + AmountPart(item) + DatePart(item)
  }

  /** The display name starts with the name, ends with the bracketed date, and is
      longer than the two only when an amount with a currency is shown. */
  lemma DisplayNameShape(item: PlannedItem)
    ensures var n := DisplayName(item);
      && |n| >= |BaseName(item)| + |DatePart(item)|
      && n[..|BaseName(item)|] == BaseName(item)
      && n[|n| - |DatePart(item)|..] == DatePart(item)
      && (|n| == |BaseName(item)| + |DatePart(item)| <==> item.amount == 0 || item.currency.None?)
      && BaseName(item) != ""
  {
    ThreePartShape(BaseName(item), AmountPart(item), DatePart(item));
  }

  lemma ThreePartShape(b: string, a: string, d: string)
    ensures |b + a + d| == |b| + |a| + |d|
    ensures (b + a + d)[..|b|] == b
    ensures (b + a + d)[|b + a + d| - |d|..] == d
  {
    assert (b + a + d)[|b + a|..] == d;
  }

  // ---------------------------------------------------------------------------
  // Workflow buttons
  // ---------------------------------------------------------------------------

  datatype ItemAction = MarkPaid(today: Date) | CancelItem | SetPlanned

  /** The fields one button writes: paid with today's date, cancelled, or planned
      again with the actual date cleared. */
  function Act(item: PlannedItem, action: ItemAction): PlannedItem {
    match action
    case MarkPaid(today) => item.(state := Paid, actualDate := Some(today))
    case CancelItem => item.(state := Cancelled)
    case SetPlanned => item.(state := Planned, actualDate := None)
  }

  /** Every button only writes the state and, for paid and planned, the actual date;
      it leaves amounts, and so the signed amount, alone. Pressing it twice is the
      same as pressing it once. */
  lemma ActWritesOnlyStateAndDate(item: PlannedItem, action: ItemAction)
    ensures Act(item, action).(state := item.state, actualDate := item.actualDate) == item
    ensures SignedAmount(Act(item, action)) == SignedAmount(item)
    ensures Act(Act(item, action), action) == Act(item, action)
    ensures action.MarkPaid? ==> Act(item, action).state == Paid && Act(item, action).actualDate == Some(action.today)
    ensures action.CancelItem? ==> Act(item, action).state == Cancelled && Act(item, action).actualDate == item.actualDate
    ensures action.SetPlanned? ==> Act(item, action).state == Planned && Act(item, action).actualDate.None?
  {
  }

  /** Paying and then setting back to planned leaves the item as it was, except that
      it is planned with no actual date. */
  lemma PaidThenPlanned(item: PlannedItem, today: Date)
    ensures Act(Act(item, MarkPaid(today)), SetPlanned) == item.(state := Planned, actualDate := None)
  {
  }

  /** The store after a button is pressed on the records `ids`. */
  function Written(items: seq<PlannedItem>, ids: set<int>, action: ItemAction): (r: seq<PlannedItem>)
    ensures |r| == |items|
    ensures forall i :: 0 <= i < |items| ==>
      r[i] == if items[i].id in ids then Act(items[i], action) else items[i]
  {
    if items == [] then []
    else
      Written(items[..|items| - 1], ids, action)
        + [if items[|items| - 1].id in ids then Act(items[|items| - 1], action) else items[|items| - 1]]
  }

  /** The planned items as stored: a button writes its fields onto each selected
      record in turn. */
  class PlannedItemStore {
    var items: seq<PlannedItem>

    constructor(initial: seq<PlannedItem>)
      ensures items == initial
    {
      items := initial;
    }

    method Write(ids: set<int>, action: ItemAction)
      modifies this
      ensures items == Written(old(items), ids, action)
    {
      var i := 0;
      var result: seq<PlannedItem> := [];
      while i < |items|
        invariant 0 <= i <= |items|
        invariant |result| == i
        invariant forall j :: 0 <= j < i ==>
          result[j] == if items[j].id in ids then Act(items[j], action) else items[j]
      {
        var item := items[i];
        result := result + [if item.id in ids then Act(item, action) else item];
        i := i + 1;
      }
      items := result;
    }

    /** action_mark_as_paid */
    method MarkAsPaid(ids: set<int>, today: Date)
      modifies this
      ensures items == Written(old(items), ids, MarkPaid(today))
    {
      Write(ids, MarkPaid(today));
    }

    /** action_cancel */
    method Cancel(ids: set<int>)
      modifies this
      ensures items == Written(old(items), ids, CancelItem)
    {
      Write(ids, CancelItem);
    }

    /** action_set_to_planned */
    method SetToPlanned(ids: set<int>)
      modifies this
      ensures items == Written(old(items), ids, SetPlanned)
    {
      Write(ids, SetPlanned);
    }
  }

  /** The default values of a new item: planned, medium priority. */
  function NewItem(id: int, name: string, kind: CashType, plannedDate: Date, category: int,
                   amount: int, currency: Option<Currency>, partner: Option<int>): (item: PlannedItem)
    ensures item.state == Planned && item.priority == Medium && item.actualDate.None?
    ensures item.budget.None? && item.invoice.None?
  {
    PlannedItem(id, name, kind, plannedDate, None, category, amount, currency, Medium, partner, Planned, None, None)
  }
}
