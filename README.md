# Cashflow planner: a verified model of the planning engine

This project models the planning engine of the Odoo module `eo_cashflow_planner_v2` in Dafny:

- the category hierarchy;
- budget usage, the constraints checked on every write, and the trigger that recomputes usage when planned items change (see "## Findings" for how that trigger behaves as written);
- planned items;
- recurring items, with their next-date computation and the generation of planned items;
- three report screens: the cashflow overview, the forecast with a running balance, and the budget analysis;
- the figures of the budget analysis spreadsheet.

The records of the database are values. A table the source writes in place is a `seq` field of a small store class whose methods carry `modifies` clauses:

- `PlannedItemStore`, `BudgetStore` and `RecurringStore` hold the three tables;
- each report screen is a class whose `DisplayItems` method replaces its lines and totals.

The loops of the source are methods with loop invariants. Each is proved against a specification function, and the properties the source promises are proved as lemmas about those functions.

Modelling conventions:

- Money is an `int` number of cents.
- Usage percentages are `real`.
- A date is `Date(year, month, day)`, ordered as the ORM's `YYYY-MM-DD` strings are. Calendar month and year steps clamp the day to the end of the target month.
- "Today" is always a parameter.

The files, one module each:

| file | module | models |
|---|---|---|
| `wrappers.dfy` | `Wrappers` | `Option` and `Result` |
| `dates.dfy` | `Dates` | calendar dates, day steps, calendar month and year steps |
| `text.dfy` | `Text` | printing of amounts (`{:.2f}`) and dates |
| `category.dfy` | `Categories` | `eo_cfp_category.py` |
| `planned_item.dfy` | `PlannedItems` | `eo_cfp_planned_item.py` |
| `budget.dfy` | `Budgets` | `eo_cfp_budget.py` |
| `recurring_item.dfy` | `RecurringItems` | `eo_cfp_recurring_item.py` |
| `item_order.dfy` | `ItemOrder` | the search order `planned_date, type, id` of the report screens |
| `report_overview.dfy` | `ReportOverview` | `eo_cfp_report_overview.py` |
| `report_forecast.dfy` | `ReportForecast` | `eo_cfp_report_forecast.py` |
| `report_budget.dfy` | `ReportBudget` | `eo_cfp_report_budget.py` |
| `budget_sheet.dfy` | `BudgetSheet` | the figures of `eo_cfp_report_budget_xls.py` |

The quirks of the source are modelled as written, and the lemmas spell out what they mean:

- `ReportBudget.EnclosingBudgetMissed`: a budget whose period strictly encloses the report's range is not selected.
- `ReportForecast.CancelledItemsCountWithoutStateFilter`: the forecast keeps cancelled items when "include planned" is off.
- `RecurringItems.GenerateNow`: generate-now skips items that are not active.
- `Budgets.BudgetStore.WritePeriod`: a budget's stored amounts are recomputed when its planned amount is written, not when its period is.
- `RecurringItems.MismatchedTypeFailsGeneration`: recurring items have no type/category constraint of their own, so a payment scheduled under an income category is accepted, and generating from it fails.
- `ReportOverview.PlannedFilterShowsVerifiedInvoiceAsPaid`: under the "planned" state filter, an open invoice whose payment is verified still shows as a paid line.
- `BudgetSheet.PercentMatchesUsage`: the spreadsheet tests the planned amount for nonzero, the screen for positive.

## Model

Paths are relative to the repository root.

| member | source | states |
|---|---|---|
| Categories.Walk | eo_cashflow_planner_v2/models/eo_cfp_category.py:108-118 | the parent walk from a category: it starts at the category, consecutive entries are child and parent, and it stops early only at a root |
| Categories.CheckRecursion | eo_cashflow_planner_v2/models/eo_cfp_category.py:79-120 | the recursion constraint holds exactly when the parent walk reaches a root without revisiting an id, the category itself included; a category without parent always passes |
| Categories.CheckRecursionAll | eo_cashflow_planner_v2/models/eo_cfp_category.py:100-120 | the constraint over all written ids holds exactly when each of them passes |
| Categories.RootedChainEndsAtRoot | eo_cashflow_planner_v2/models/eo_cfp_category.py:111-120 | when the check holds, the chain is no longer than the hierarchy and ends at a root, so the walk terminates |
| Categories.ChildAncestry | eo_cashflow_planner_v2/models/eo_cfp_category.py:108-118 | the chain of a child is the child followed by the chain of its parent |
| Categories.RankDecreasesAlongWalk | eo_cashflow_planner_v2/models/eo_cfp_category.py:108-118 | under any rank that drops from child to parent, the rank strictly decreases along every walk |
| Categories.RankedIsAcyclic | eo_cashflow_planner_v2/models/eo_cfp_category.py:79-120 | a hierarchy with such a rank passes the recursion check for every category |
| Categories.NotOwnDescendant | eo_cashflow_planner_v2/models/eo_cfp_category.py:79-120 | in an acyclic hierarchy no category is its own descendant |
| Categories.ParentCategories | eo_cashflow_planner_v2/models/eo_cfp_category.py:313-334 | get_parent_categories returns the chain above the category, up to its root |
| Categories.ParentCategoriesShape | eo_cashflow_planner_v2/models/eo_cfp_category.py:326-334 | the ancestors come nearest first and never include the start category; the list is empty exactly for a root, ends at a root, and is shorter than the hierarchy |
| Categories.ChildIsDeeper | eo_cashflow_planner_v2/models/eo_cfp_category.py:313-334 | a child lies one level deeper than its parent, and no category is deeper than the hierarchy has levels |
| Categories.RootFirstNames | eo_cashflow_planner_v2/models/eo_cfp_category.py:143-149 | the names collected while walking up, each ancestor's name put in front: the chain's names, root first |
| Categories.DisplayName | eo_cashflow_planner_v2/models/eo_cfp_category.py:122-155 | name_get's loop yields the root-first names joined by ' / ' |
| Categories.FullNameOfChild | eo_cashflow_planner_v2/models/eo_cfp_category.py:143-152 | a root shows its own name; any other category shows its parent's display name, ' / ' and its own name, so the last segment is its own name |
| Categories.ChildrenOf | eo_cashflow_planner_v2/models/eo_cfp_category.py:306 | the direct children are exactly the stored categories whose parent is the category, each once |
| Categories.SubtreeIsDescendants | eo_cashflow_planner_v2/models/eo_cfp_category.py:290-311 | get_child_categories returns exactly the descendants of the category |
| Categories.BranchUnique | eo_cashflow_planner_v2/models/eo_cfp_category.py:306-311 | a category lies below at most one child of a given category, so the children's subtrees are disjoint |
| Categories.SubtreeNoDup | eo_cashflow_planner_v2/models/eo_cfp_category.py:290-311 | get_child_categories lists no category twice |
| Categories.Reparent | eo_cashflow_planner_v2/models/eo_cfp_category.py:251-258 | writing a parent is refused with the cycle error exactly when the category would become its own ancestor; otherwise the result is the written hierarchy, and it is still acyclic |
| Categories.DescendantParentRefused | eo_cashflow_planner_v2/models/eo_cfp_category.py:108-118 | making a category its own parent, or a child of one of its descendants, fails the check |
| Categories.OtherParentAccepted | eo_cashflow_planner_v2/models/eo_cfp_category.py:108-120 | any other parent passes, and the new chain is the category followed by the new parent's chain |
| Categories.NoParentAccepted | eo_cashflow_planner_v2/models/eo_cfp_category.py:103-105 | clearing the parent always passes |
| Categories.ReparentKeepsAcyclic | eo_cashflow_planner_v2/models/eo_cfp_category.py:251-258 | when the check on the written category passes, every category of the hierarchy passes it |
| Categories.InsertKeepsAcyclic | eo_cashflow_planner_v2/models/eo_cfp_category.py:251-258 | a new category under an existing parent, or as a root, keeps an acyclic hierarchy acyclic |
| Categories.Create | eo_cashflow_planner_v2/models/eo_cfp_category.py:242-258 | creation fails on an unknown parent or a code already in use (each error exactly on its condition), never with a cycle in an acyclic hierarchy, and keeps codes unique and the hierarchy acyclic |
| Categories.OnchangeParentSuggests | eo_cashflow_planner_v2/models/eo_cfp_category.py:264-284 | choosing a parent proposes its type, and the parent domain offers exactly the categories of that type other than the record itself; clearing the parent proposes nothing |
| Dates.DaysInMonth | eo_cashflow_planner_v2/models/eo_cfp_recurring_item.py:103-106 | months have 28 to 31 days, and 29 exactly for February of a leap year |
| Dates.BeforeIsStrictTotalOrder | eo_cashflow_planner_v2/models/eo_cfp_recurring_item.py:98-113 | date comparison is a strict total order |
| Dates.NextDay | eo_cashflow_planner_v2/models/eo_cfp_recurring_item.py:99-100 | the next day is a valid, later date |
| Dates.PrevDay | eo_cashflow_planner_v2/models/eo_cfp_recurring_item.py:99-100 | the previous day is a valid, earlier date |
| Dates.NextPrevInverse | eo_cashflow_planner_v2/models/eo_cfp_recurring_item.py:99-100 | stepping one day forward and one back, in either order, returns the date |
| Dates.AddDays | eo_cashflow_planner_v2/models/eo_cfp_recurring_item.py:99-102 | adding days gives a valid date that is later for a positive and earlier for a negative count |
| Dates.AddMonths | eo_cashflow_planner_v2/models/eo_cfp_recurring_item.py:103-104 | calendar-month addition moves the month index by the count and keeps the day, clamped to the last day of a shorter month |
| Dates.AddYears | eo_cashflow_planner_v2/models/eo_cfp_recurring_item.py:105-106 | calendar-year addition gives a valid date |
| Dates.AddYearsIsTwelveMonths | eo_cashflow_planner_v2/models/eo_cfp_recurring_item.py:103-106 | adding n years is adding 12 n months |
| Dates.AddMonthsForward | eo_cashflow_planner_v2/models/eo_cfp_recurring_item.py:103-104 | a positive month count gives a later date |
| Dates.AddYearsForward | eo_cashflow_planner_v2/models/eo_cfp_recurring_item.py:105-106 | a positive year count gives a later date |
| Dates.MonthEndClampExamples | eo_cashflow_planner_v2/models/eo_cfp_recurring_item.py:103-106 | worked cases: 31 January plus a month is 28 or 29 February, and 29 February plus a year is 28 February |
| Text.FormatCents | eo_cashflow_planner_v2/models/eo_cfp_planned_item.py:511-516 | an amount printed with two decimals: a minus sign exactly for negative amounts, then digits that read as the whole units of the absolute amount, a point, and two digits that read as its cents |
| Text.ParseNatToString | eo_cashflow_planner_v2/models/eo_cfp_planned_item.py:511-516 | reading back the printed digits gives the number |
| Text.PaddedNat | eo_cashflow_planner_v2/models/eo_cfp_planned_item.py:519-520 | a zero-padded number, as in a printed date, has at least the width and reads back as the number |
| Text.TwoDigits | eo_cashflow_planner_v2/models/eo_cfp_planned_item.py:519-520 | a month or day is printed as two digits that read back as the number |
| PlannedItems.SignedAmount | eo_cashflow_planner_v2/models/eo_cfp_planned_item.py:56-79 | the signed amount has the size of the amount, is never positive for a payment and never negative for income |
| PlannedItems.SignedSumIsIncomeMinusPayments | eo_cashflow_planner_v2/models/eo_cfp_planned_item.py:56-79 | the sum of signed amounts is total income minus total payments |
| PlannedItems.SignedSumExample | eo_cashflow_planner_v2/tests/test_planned_item.py:181-199 | an income of 5000.00 and a payment of 2000.00 sum to 3000.00 |
| PlannedItems.Violations | eo_cashflow_planner_v2/models/eo_cfp_planned_item.py:364-424 | a stored item is refused for a non-positive amount, and for a type that differs from its category's type; each error is raised exactly on its condition |
| PlannedItems.ValidItemFollowsCategorySign | eo_cashflow_planner_v2/models/eo_cfp_planned_item.py:364-424 | an item passing both constraints has a nonzero signed amount, positive exactly under an income category |
| PlannedItems.CreateErrorsIsFirstFailure | eo_cashflow_planner_v2/models/eo_cfp_planned_item.py:413-424 | a run of creates (CreateErrors) fails exactly when some created item fails a constraint, and then with the messages of the first such item |
| PlannedItems.CreateErrorsAppend | eo_cashflow_planner_v2/models/eo_cfp_planned_item.py:413-424 | one more create in a run that has not failed fails exactly with that item's messages |
| PlannedItems.CreateErrorsOfPrefix | eo_cashflow_planner_v2/models/eo_cfp_planned_item.py:413-424 | once a run has failed, the creates after it do not change its messages |
| PlannedItems.CreateErrorsFailAt | eo_cashflow_planner_v2/models/eo_cfp_planned_item.py:413-424 | a run that has not failed and then creates an item failing a constraint fails, however long it goes on, with that item's messages |
| PlannedItems.ValidateCreate | eo_cashflow_planner_v2/models/eo_cfp_planned_item.py:413-424 | the check on one create returns the new item's constraint messages, which are the messages of the run up to and including it |
| PlannedItems.OnchangePartnerSuggests | eo_cashflow_planner_v2/models/eo_cfp_planned_item.py:107-128 | a customer partner proposes income; otherwise a supplier proposes payment; otherwise nothing is proposed |
| PlannedItems.InvoiceDirection | eo_cashflow_planner_v2/models/eo_cfp_planned_item.py:154-158 | customer invoices and refunds mean income, supplier invoices and refunds mean payment |
| PlannedItems.OnchangeInvoice | eo_cashflow_planner_v2/models/eo_cfp_planned_item.py:130-160 | values are proposed exactly when an invoice is chosen |
| PlannedItems.OnchangeInvoiceFills | eo_cashflow_planner_v2/models/eo_cfp_planned_item.py:141-158 | a chosen invoice proposes its partner, total and currency; the due date, falling back to the invoice date; the name, falling back to the number and then to a fixed text, so it is never empty; and the direction of its type |
| PlannedItems.AmountPart | eo_cashflow_planner_v2/models/eo_cfp_planned_item.py:510-516 | the amount part of the display name is empty exactly when the amount is zero or there is no currency |
| PlannedItems.DisplayNameShape | eo_cashflow_planner_v2/models/eo_cfp_planned_item.py:489-524 | the display name starts with the name (never empty, 'Planned Item' by default) and ends with the bracketed date; it is longer than the two only when an amount with a currency is shown |
| PlannedItems.ActWritesOnlyStateAndDate | eo_cashflow_planner_v2/models/eo_cfp_planned_item.py:430-483 | paid sets the state and today's date; cancel sets only the state; planned sets the state and clears the date; nothing else changes, the signed amount is kept, and pressing a button twice equals pressing it once |
| PlannedItems.PaidThenPlanned | eo_cashflow_planner_v2/models/eo_cfp_planned_item.py:430-483 | paying and then resetting to planned leaves the item planned, without actual date, and otherwise as it was |
| PlannedItems.Written | eo_cashflow_planner_v2/models/eo_cfp_planned_item.py:430-483 | after a button, the records whose ids were chosen are acted on and every other record is unchanged |
| PlannedItems.PlannedItemStore.Write | eo_cashflow_planner_v2/models/eo_cfp_planned_item.py:441-448 | the write loop leaves the table as Written describes |
| PlannedItems.PlannedItemStore.MarkAsPaid | eo_cashflow_planner_v2/models/eo_cfp_planned_item.py:430-448 | action_mark_as_paid on the chosen ids |
| PlannedItems.PlannedItemStore.Cancel | eo_cashflow_planner_v2/models/eo_cfp_planned_item.py:450-463 | action_cancel on the chosen ids |
| PlannedItems.PlannedItemStore.SetToPlanned | eo_cashflow_planner_v2/models/eo_cfp_planned_item.py:465-483 | action_set_to_planned on the chosen ids |
| Budgets.ComputeAmounts | eo_cashflow_planner_v2/models/eo_cfp_budget.py:46-107 | the loop's used amount is the sum of absolute amounts of the budget's counted items and is never negative; remaining is planned minus used; without category or complete period, used is 0 and remaining is the planned amount |
| Budgets.UsedAmountWithoutScope | eo_cashflow_planner_v2/models/eo_cfp_budget.py:64-70 | without a category or a complete period nothing is used |
| Budgets.UsedAmountConcat | eo_cashflow_planner_v2/models/eo_cfp_budget.py:86-91 | the used amount of two lists of items is the sum of their used amounts |
| Budgets.UnrelatedItemsIgnored | eo_cashflow_planner_v2/models/eo_cfp_budget.py:74-79 | items of another category, outside the period, or cancelled change nothing |
| Budgets.UsedAmountPermutation | eo_cashflow_planner_v2/models/eo_cfp_budget.py:82-91 | the used amount does not depend on the order in which the search returns the items |
| Budgets.PeriodEndsCount | eo_cashflow_planner_v2/models/eo_cfp_budget.py:76-77 | an item dated on the first or the last day of the period adds its absolute amount |
| Budgets.OverspendExample | eo_cashflow_planner_v2/tests/test_budget.py:145-165 | 5000.00 planned against 7000.00 of counted payments leaves -2000.00; a cancelled item is left out |
| Budgets.CountsIsCoveredAndNotCancelled | eo_cashflow_planner_v2/models/eo_cfp_budget.py:127-135 | an item counts exactly when the budget covers it (same category, date within the period) and it is not cancelled |
| Budgets.AffectedBudgets | eo_cashflow_planner_v2/models/eo_cfp_budget.py:109-162 | the trigger (with its search run on budgets) returns, without duplicates, exactly the budgets covering a changed item whose search succeeds, and nothing when the registry is not ready |
| Budgets.Violations | eo_cashflow_planner_v2/models/eo_cfp_budget.py:320-362 | a budget is refused for an end before its start and for a non-positive planned amount, each exactly on its condition |
| Budgets.ValidBudgetShape | eo_cashflow_planner_v2/models/eo_cfp_budget.py:320-362 | a valid budget's period contains both its ends, and its remaining amount is below the planned amount exactly when something is used |
| Budgets.BudgetsWritten | eo_cashflow_planner_v2/models/eo_cfp_budget.py:368-426 | a write sets the written values on the chosen budgets and leaves the others unchanged |
| Budgets.WriteErrors | eo_cashflow_planner_v2/models/eo_cfp_budget.py:351-362 | a write raises a constraint's message exactly when some written budget fails that constraint |
| Budgets.ValidateWrite | eo_cashflow_planner_v2/models/eo_cfp_budget.py:320-362 | the check after a write collects exactly WriteErrors of the written budgets |
| Budgets.AmountWriteErrors | eo_cashflow_planner_v2/models/eo_cfp_budget.py:336-362 | on a store that passes the constraints, writing a planned amount fails, with the planned-amount message only, exactly when the amount is not positive and some budget is selected |
| Budgets.PeriodWriteErrors | eo_cashflow_planner_v2/models/eo_cfp_budget.py:320-362 | on a store that passes the constraints, writing a period fails, with the period message only, exactly when the end is before the start and some budget is selected |
| Budgets.StateWriteKeepsValid | eo_cashflow_planner_v2/models/eo_cfp_budget.py:351-426 | the constraints ignore the state, so on a store that passes them a state button never fails and the store still passes |
| Budgets.StateWriteKeepsAmounts | eo_cashflow_planner_v2/models/eo_cfp_budget.py:368-426 | a state button changes nothing but the state, so fresh amounts stay fresh |
| Budgets.UsedAmountIgnoresState | eo_cashflow_planner_v2/models/eo_cfp_budget.py:70-91 | the used amount depends only on the budget's category and period |
| Budgets.RefreshedIsFresh | eo_cashflow_planner_v2/models/eo_cfp_budget.py:93-100 | recomputed amounts agree with the items they were computed from |
| Budgets.BudgetStore.SetState | eo_cashflow_planner_v2/models/eo_cfp_budget.py:368-426 | the state write loop leaves the table as BudgetsWritten describes |
| Budgets.BudgetStore.Confirm | eo_cashflow_planner_v2/models/eo_cfp_budget.py:368-381 | action_confirm sets the chosen budgets to confirmed, whatever their state |
| Budgets.BudgetStore.Close | eo_cashflow_planner_v2/models/eo_cfp_budget.py:383-396 | action_close sets them to closed |
| Budgets.BudgetStore.Reopen | eo_cashflow_planner_v2/models/eo_cfp_budget.py:398-411 | action_reopen sets them back to confirmed |
| Budgets.BudgetStore.SetToDraft | eo_cashflow_planner_v2/models/eo_cfp_budget.py:413-426 | action_set_to_draft sets them to draft |
| Budgets.BudgetStore.Recompute | eo_cashflow_planner_v2/models/eo_cfp_budget.py:46-107 | the chosen budgets get freshly computed amounts; the others are unchanged |
| Budgets.BudgetStore.WriteValues | eo_cashflow_planner_v2/models/eo_cfp_budget.py:368-426 | the write loop leaves the table as BudgetsWritten describes |
| Budgets.BudgetStore.WritePlannedAmount | eo_cashflow_planner_v2/models/eo_cfp_budget.py:217-226 | writing a planned amount fails with WriteErrors and leaves the table unchanged when a written budget fails a constraint; otherwise the written budgets are recomputed and fresh and the others unchanged; a valid table stays valid |
| Budgets.BudgetStore.WritePeriod | eo_cashflow_planner_v2/models/eo_cfp_budget.py:217-226 | writing a period fails with WriteErrors and leaves the table unchanged when a written budget fails a constraint; otherwise the period is stored and nothing is recomputed; a valid table stays valid |
| Budgets.BudgetStore.ItemsChanged | eo_cashflow_planner_v2/models/eo_cfp_budget.py:109-162 | after a write on planned items exactly the budgets of AffectedIds are recomputed and every other budget keeps its values; with a ready registry and no failed search every budget covering a changed item is recomputed |
| Budgets.BudgetStore.ItemsChangedAsWritten | eo_cashflow_planner_v2/models/eo_cfp_budget.py:136-147 | with the trigger as written, a write on planned items leaves every budget as it was |
| Budgets.SearchFailuresAsWritten | eo_cashflow_planner_v2/models/eo_cfp_budget.py:127-147 | as written, the budget search raises for every changed item |
| Budgets.TriggerAsWrittenFindsNothing | eo_cashflow_planner_v2/models/eo_cfp_budget.py:127-162 | as written, the trigger returns no budget |
| Budgets.StaleAmountsExample | eo_cashflow_planner_v2/models/eo_cfp_budget.py:127-162 | a covering payment written with the trigger as written leaves the budget's used amount at 0, while the intended trigger selects the budget and gives 2000.00 used |
| RecurringItems.RecurringSignedAmount | eo_cashflow_planner_v2/models/eo_cfp_recurring_item.py:54-72 | the signed amount has the size of the amount, is negative for a nonzero payment and positive for nonzero income, and equals the signed amount of every planned item generated from the item |
| RecurringItems.Step | eo_cashflow_planner_v2/models/eo_cfp_recurring_item.py:99-106 | one recurrence step gives a valid date |
| RecurringItems.StepForward | eo_cashflow_planner_v2/models/eo_cfp_recurring_item.py:99-106 | a step with a positive interval moves forward |
| RecurringItems.Iterate | eo_cashflow_planner_v2/models/eo_cfp_recurring_item.py:98-108 | repeated steps, each from the previous date, give valid dates |
| RecurringItems.EffectiveInterval | eo_cashflow_planner_v2/models/eo_cfp_recurring_item.py:94 | an unset interval counts as 1; a set one is used as it is |
| RecurringItems.ComputeNextDate | eo_cashflow_planner_v2/models/eo_cfp_recurring_item.py:74-122 | the loop computes NextDate; there is a next date only for an active item, and it never lies after the end date |
| RecurringItems.AdvancePastIsFirstAfter | eo_cashflow_planner_v2/models/eo_cfp_recurring_item.py:94-108 | the date the loop stops at is the start advanced by k steps, for the least k that gives a date after today |
| RecurringItems.AdvancePastFixedPoints | eo_cashflow_planner_v2/models/eo_cfp_recurring_item.py:98-108 | a start after today is its own next date, and an unknown recurrence type leaves the start as it is |
| RecurringItems.IterateNotBefore | eo_cashflow_planner_v2/models/eo_cfp_recurring_item.py:94-108 | the series never goes before its start |
| RecurringItems.NextDateMonthlyExample | eo_cashflow_planner_v2/models/eo_cfp_recurring_item.py:103-104 | monthly from 2025-10-01, seen on 2025-10-15, is next due on 2025-11-01 |
| RecurringItems.NextDateExpiredExample | eo_cashflow_planner_v2/models/eo_cfp_recurring_item.py:111-118 | a series whose start and end are the same past day has no next date |
| RecurringItems.NextDateClampExample | eo_cashflow_planner_v2/models/eo_cfp_recurring_item.py:103-104 | monthly steps from 31 January go through 28 February to 28 March |
| RecurringItems.Violations | eo_cashflow_planner_v2/models/eo_cfp_recurring_item.py:334-372 | an item is refused for an end before its start, a non-positive amount, and an interval below 1, each exactly on its condition |
| RecurringItems.ValidItemHasNextDate | eo_cashflow_planner_v2/models/eo_cfp_recurring_item.py:74-122 | a valid active item with a known recurrence and no end date has a next date after today and not before its start |
| RecurringItems.StateDecidesNextDate | eo_cashflow_planner_v2/models/eo_cfp_recurring_item.py:86-88 | a suspended or expired item has no next date; as an active item it has one unless the end date cuts it off |
| RecurringItems.StateWritten | eo_cashflow_planner_v2/models/eo_cfp_recurring_item.py:378-400 | a state button sets the state of the chosen items and leaves the others unchanged |
| RecurringItems.RecurringStore.SetState | eo_cashflow_planner_v2/models/eo_cfp_recurring_item.py:378-400 | the state write loop leaves the table as StateWritten describes |
| RecurringItems.RecurringStore.Suspend | eo_cashflow_planner_v2/models/eo_cfp_recurring_item.py:378-384 | action_suspend on the chosen ids |
| RecurringItems.RecurringStore.Activate | eo_cashflow_planner_v2/models/eo_cfp_recurring_item.py:386-392 | action_activate on the chosen ids |
| RecurringItems.RecurringStore.Expire | eo_cashflow_planner_v2/models/eo_cfp_recurring_item.py:394-400 | action_expire on the chosen ids |
| RecurringItems.FromRecurring | eo_cashflow_planner_v2/models/eo_cfp_recurring_item.py:427-438 | a generated planned item has the given id and date, is planned with medium priority, copies the name, type, category, amount, currency and partner, and has no actual date, budget or invoice |
| RecurringItems.ActiveOnly | eo_cashflow_planner_v2/models/eo_cfp_recurring_item.py:418-421 | the items generate-now does not skip: every kept item is an active chosen item, every active chosen item is kept, each as often as it was chosen |
| RecurringItems.GeneratedNowIsOnePerActive | eo_cashflow_planner_v2/models/eo_cfp_recurring_item.py:406-441 | generate-now creates exactly one planned item per active chosen item, in order, dated on its next date or else its start date |
| RecurringItems.GeneratedNowPrefix | eo_cashflow_planner_v2/models/eo_cfp_recurring_item.py:416-441 | the items created for the first chosen items come first among those created for all of them |
| RecurringItems.FromMatchingItemPasses | eo_cashflow_planner_v2/models/eo_cfp_recurring_item.py:427-438 | a planned item generated from an item with a positive amount and its category's type passes the planned item's constraints |
| RecurringItems.GenerateNowPassesWhenTypesMatch | eo_cashflow_planner_v2/models/eo_cfp_recurring_item.py:406-441 | generate-now never fails on items with positive amounts and their categories' types |
| RecurringItems.MismatchedTypeFailsGeneration | eo_cashflow_planner_v2/models/eo_cfp_recurring_item.py:427-441 | a payment under an income category passes the recurring item's constraints, and generating from it fails with the type message |
| RecurringItems.GenerateNowStep | eo_cashflow_planner_v2/models/eo_cfp_recurring_item.py:416-441 | one turn appends the planned item of an active item, dated on its generation date and with the next id, and nothing for any other item |
| RecurringItems.GenerateItems | eo_cashflow_planner_v2/models/eo_cfp_recurring_item.py:416-441 | the loop of the action fails with CreateErrors of the generated items; when that is empty it creates exactly those items, with consecutive ids from the first free one |
| RecurringItems.GenerateNow | eo_cashflow_planner_v2/models/eo_cfp_recurring_item.py:406-460 | the action fails, leaving the planned items unchanged, exactly when CreateErrors of the generated items is non-empty, and with those messages; otherwise it appends the generated items and returns one new id per created item |
| RecurringItems.DueDate | eo_cashflow_planner_v2/models/eo_cfp_recurring_item.py:474-495 | an item is due exactly when it is active, set to auto-generate, and has a next date no later than today plus its days in advance; it is then due on that next date |
| RecurringItems.DueDates | eo_cashflow_planner_v2/models/eo_cfp_recurring_item.py:488-495 | the due date of each item, in order |
| RecurringItems.ComputeDueDate | eo_cashflow_planner_v2/models/eo_cfp_recurring_item.py:490-495 | the horizon test computes DueDate |
| RecurringItems.Exists | eo_cashflow_planner_v2/models/eo_cfp_recurring_item.py:496-505 | the duplicate search finds exactly a planned item with the same name, date and category |
| RecurringItems.SweepOne | eo_cashflow_planner_v2/models/eo_cfp_recurring_item.py:495-526 | one turn of the sweep creates the item exactly when it is due and not yet planned |
| RecurringItems.RunSweepTurn | eo_cashflow_planner_v2/models/eo_cfp_recurring_item.py:489-527 | one turn of the sweep appends what Swept gives for that turn and returns the messages of the run up to it |
| RecurringItems.SweepItems | eo_cashflow_planner_v2/models/eo_cfp_recurring_item.py:489-532 | the sweep loop fails with CreateErrors of the items Swept describes; when that is empty it creates exactly those items, each turn seeing the items created before it |
| RecurringItems.Sweep | eo_cashflow_planner_v2/models/eo_cfp_recurring_item.py:462-534 | the cron run fails, leaving the planned items unchanged, exactly when CreateErrors of the swept items is non-empty, and with those messages; otherwise it appends the swept items and counts them |
| RecurringItems.SweptPrefix | eo_cashflow_planner_v2/models/eo_cfp_recurring_item.py:489-532 | the items created in the first turns come first among those created in later ones |
| RecurringItems.SweptFromItems | eo_cashflow_planner_v2/models/eo_cfp_recurring_item.py:508-520 | every item the sweep creates is generated from one of the recurring items |
| RecurringItems.SweepPassesWhenTypesMatch | eo_cashflow_planner_v2/models/eo_cfp_recurring_item.py:462-534 | the sweep never fails on items with positive amounts and their categories' types |
| RecurringItems.SweptCoversDue | eo_cashflow_planner_v2/models/eo_cfp_recurring_item.py:495-526 | after a sweep every due item has its planned item |
| RecurringItems.SweptNothingWhenCovered | eo_cashflow_planner_v2/models/eo_cfp_recurring_item.py:496-509 | a sweep over planned items that cover every due item creates nothing |
| RecurringItems.SweepIsIdempotent | eo_cashflow_planner_v2/models/eo_cfp_recurring_item.py:462-534 | a second sweep on the same day creates nothing |
| ItemOrder.KeyLeIsTotalPreorder | eo_cashflow_planner_v2/report/eo_cfp_report_overview.py:226-230 | the order by planned date, type and id is total and transitive, and two records equal under it agree on all three keys |
| ItemOrder.Insert | eo_cashflow_planner_v2/report/eo_cfp_report_overview.py:226-230 | putting a record into a sorted list keeps it sorted and adds just that record |
| ItemOrder.SortByKey | eo_cashflow_planner_v2/report/eo_cfp_report_overview.py:226-230 | the search order is sorted by the key and holds the same records as often as before |
| ItemOrder.SortByKeyKeepsRecords | eo_cashflow_planner_v2/report/eo_cfp_report_overview.py:226-230 | sorting neither drops nor adds a record |
| ItemOrder.SortKeepsStrictlySorted | eo_cashflow_planner_v2/report/eo_cfp_report_overview.py:226-230 | records already in strictly increasing key order are returned as they are |
| ReportOverview.Matching | eo_cashflow_planner_v2/report/eo_cfp_report_overview.py:202-223 | the items the search domain matches: exactly the stored items that pass the date, type, state, category and partner filters |
| ReportOverview.PlannedSearch | eo_cashflow_planner_v2/report/eo_cfp_report_overview.py:202-230 | the search returns exactly the matching items, sorted by planned date, type and id |
| ReportOverview.OverviewReport.DisplayItems | eo_cashflow_planner_v2/report/eo_cfp_report_overview.py:177-382 | a reload replaces the lines by the planned lines and the invoice lines of the current data; income and payment totals are the sums over the lines of each type, and net is income minus payments |
| ReportOverview.CollectPlannedLines | eo_cashflow_planner_v2/report/eo_cfp_report_overview.py:232-259 | the loop makes one line per found item and adds each amount to the total of its type |
| ReportOverview.CollectInvoiceSection | eo_cashflow_planner_v2/report/eo_cfp_report_overview.py:262-373 | the loop over customer then supplier invoices, skipping a direction the type filter excludes, makes the invoice lines and their totals |
| ReportOverview.CollectInvoiceLines | eo_cashflow_planner_v2/report/eo_cfp_report_overview.py:314-373 | the loop over one query's rows makes their lines and their totals |
| ReportOverview.NetIsSignedTotal | eo_cashflow_planner_v2/report/eo_cfp_report_overview.py:346-380 | when each line's sign follows its type, the net is the sum of the signed amounts |
| ReportOverview.InvoiceLinesAreTheQueriedRows | eo_cashflow_planner_v2/report/eo_cfp_report_overview.py:262-373 | each invoice line comes from a queried row of its own direction with money due that the type filter allows; each such row yields its line exactly when invoices are included |
| ReportOverview.PlannedLineIff | eo_cashflow_planner_v2/report/eo_cfp_report_overview.py:202-223 | an item gets a line exactly when planned items are included and it passes the date, type, state, category and partner filters |
| ReportOverview.PlannedLinesInDateOrder | eo_cashflow_planner_v2/report/eo_cfp_report_overview.py:226-253 | the planned lines come first and their planned dates never decrease |
| ReportOverview.PlannedLinesComeFromSelectedItems | eo_cashflow_planner_v2/report/eo_cfp_report_overview.py:202-253 | every planned line is the line of a stored item the filters select |
| ReportOverview.LinesAreConsistent | eo_cashflow_planner_v2/report/eo_cfp_report_overview.py:233-367 | for items with positive amounts, every line carries its residual as its amount and a sign that follows its type; an invoice line has money due and an actual date only when paid; so net is the sum of signed amounts |
| ReportOverview.TypeFilterExcludesOtherDirection | eo_cashflow_planner_v2/report/eo_cfp_report_overview.py:209-269 | under a type filter every line has that type |
| ReportOverview.PaidFilterGivesPaidLines | eo_cashflow_planner_v2/report/eo_cfp_report_overview.py:213-343 | under the paid state filter every line is paid |
| ReportOverview.PlannedFilterShowsVerifiedInvoiceAsPaid | eo_cashflow_planner_v2/report/eo_cfp_report_overview.py:276-355 | under the planned state filter an open invoice whose payment is verified shows as a paid line dated on its invoice date |
| ReportOverview.SampleSearch | eo_cashflow_planner_v2/report/eo_cfp_report_overview.py:202-230 | three selected items already in key order are returned as they are |
| ReportOverview.SampleMatching | eo_cashflow_planner_v2/report/eo_cfp_report_overview.py:202-223 | all three sample items pass the filters |
| ReportOverview.OverviewTotalsExample | eo_cashflow_planner_v2/tests/test_reports.py:85-132 | an income of 5000.00 and payments of 2000.00 and 500.00 give three lines, income 5000.00 and payments 2500.00 |
| ReportForecast.Matching | eo_cashflow_planner_v2/report/eo_cfp_report_forecast.py:220-231 | exactly the stored items within the dates and the category filter, restricted to planned and paid only when 'include planned' is set |
| ReportForecast.ForecastSearch | eo_cashflow_planner_v2/report/eo_cfp_report_forecast.py:220-238 | the search returns exactly the matching items, sorted by planned date, type and id |
| ReportForecast.ForecastLines | eo_cashflow_planner_v2/report/eo_cfp_report_forecast.py:243-269 | one line per found item |
| ReportForecast.ForecastLinesAt | eo_cashflow_planner_v2/report/eo_cfp_report_forecast.py:243-265 | the i-th line shows the i-th item, with the opening balance plus the flows of the items up to and including it |
| ReportForecast.ForecastReport.DisplayItems | eo_cashflow_planner_v2/report/eo_cfp_report_forecast.py:201-279 | a reload replaces the lines by the lines of the found items; the totals are the amounts of each type, net is their difference, and closing is opening plus the net flow |
| ReportForecast.WalkItems | eo_cashflow_planner_v2/report/eo_cfp_report_forecast.py:240-269 | the loop with the running balance makes the forecast lines, the totals of each type and the final balance |
| ReportForecast.BalanceSteps | eo_cashflow_planner_v2/report/eo_cfp_report_forecast.py:243-265 | the first balance is opening plus the first flow, and each next balance is the previous one plus the next flow |
| ReportForecast.FlowSumIsIncomeMinusPayments | eo_cashflow_planner_v2/report/eo_cfp_report_forecast.py:246-276 | the net flow is total income minus total payments |
| ReportForecast.ClosingBalance | eo_cashflow_planner_v2/report/eo_cfp_report_forecast.py:243-276 | the closing balance is the last line's balance, or the opening balance without lines, and it is opening plus net |
| ReportForecast.LinesShowSelectedItems | eo_cashflow_planner_v2/report/eo_cfp_report_forecast.py:234-267 | each line shows a stored item that passes the filter |
| ReportForecast.LinesInDateOrder | eo_cashflow_planner_v2/report/eo_cfp_report_forecast.py:234-238 | the lines' dates never decrease |
| ReportForecast.CancelledItemsCountWithoutStateFilter | eo_cashflow_planner_v2/report/eo_cfp_report_forecast.py:230-231 | without 'include planned' a cancelled item in range is listed; with it, the same item is not |
| ReportForecast.EmptyForecast | eo_cashflow_planner_v2/tests/test_reports.py:418-439 | without items there are no lines and the closing balance is the opening balance |
| ReportForecast.RunningBalanceExample | eo_cashflow_planner_v2/tests/test_reports.py:362-401 | 10000.00 opening, plus 5000.00 income, then minus 2000.00 payment gives balances 15000.00, 13000.00 and a closing of 13000.00 |
| ReportForecast.OnchangeForecastMonths | eo_cashflow_planner_v2/report/eo_cfp_report_forecast.py:184-199 | an end date is proposed exactly when a start date and a nonzero number of months are given; it is a valid date that many calendar months after the start |
| ReportForecast.ForecastMonthsMovesForward | eo_cashflow_planner_v2/report/eo_cfp_report_forecast.py:191-195 | a positive number of months proposes a later end date, on the same day of the month or on the month's last day |
| ReportForecast.ForecastMonthsExample | eo_cashflow_planner_v2/report/eo_cfp_report_forecast.py:184-199 | 2025-11-30 plus 3 months proposes 2026-02-28; a missing start or zero months proposes nothing |
| ReportBudget.Search | eo_cashflow_planner_v2/report/eo_cfp_report_budget.py:168-195 | the search returns exactly the stored budgets whose start or end lies in the range and that match the category and state filters |
| ReportBudget.BudgetReport.DisplayItems | eo_cashflow_planner_v2/report/eo_cfp_report_budget.py:149-250 | a reload replaces the lines by the lines of the found budgets the variance filter keeps; the totals are the sums over those lines |
| ReportBudget.WalkBudgets | eo_cashflow_planner_v2/report/eo_cfp_report_budget.py:198-241 | the loop with the skip flag makes the kept lines and their three totals |
| ReportBudget.VarianceSkip | eo_cashflow_planner_v2/report/eo_cfp_report_budget.py:208-221 | the skip flag is set exactly for the budgets the variance filter drops |
| ReportBudget.KeptLinesFacts | eo_cashflow_planner_v2/report/eo_cfp_report_budget.py:208-237 | every kept line is the line of a found budget the filter keeps, and every such budget has its line |
| ReportBudget.LineIff | eo_cashflow_planner_v2/report/eo_cfp_report_budget.py:168-237 | a budget gets a line exactly when the search selects it and the variance filter keeps it |
| ReportBudget.LinesComeFromKeptBudgets | eo_cashflow_planner_v2/report/eo_cfp_report_budget.py:168-237 | every line is the line of a stored budget that is selected and kept |
| ReportBudget.VarianceFilterOnLines | eo_cashflow_planner_v2/report/eo_cfp_report_budget.py:208-221 | over leaves only lines with negative remaining, under only positive remaining, within only usage of 90 % or more |
| ReportBudget.EnclosingBudgetMissed | eo_cashflow_planner_v2/report/eo_cfp_report_budget.py:171-180 | a budget whose period strictly encloses the range is not selected |
| ReportBudget.EnclosingBudgetExample | eo_cashflow_planner_v2/report/eo_cfp_report_budget.py:171-180 | a budget for all of 2025 is missing from a report on March 2025 |
| ReportBudget.TotalsOfFreshLines | eo_cashflow_planner_v2/report/eo_cfp_report_budget.py:239-241 | when each line's remaining is planned minus used, so is the total remaining |
| ReportBudget.ReportTotalsOfFreshBudgets | eo_cashflow_planner_v2/report/eo_cfp_report_budget.py:239-241 | with fresh stored amounts, the report's total remaining is total planned minus total used |
| ReportBudget.SearchFindsNothing | eo_cashflow_planner_v2/report/eo_cfp_report_budget.py:191-195 | with no budget selected the search returns nothing |
| ReportBudget.NothingSelected | eo_cashflow_planner_v2/tests/test_reports.py:628-648 | with no budget selected there are no lines and every total is 0 |
| ReportBudget.UsageExample | eo_cashflow_planner_v2/tests/test_reports.py:520-572 | 3000.00 used of 10000.00 planned is 30 %; a zero planned amount gives 0 % |
| BudgetSheet.Percent | eo_cashflow_planner_v2/report/eo_cfp_report_budget_xls.py:254-257 | the percentage is 0 for a zero planned amount and otherwise satisfies percent × planned = used × 100 |
| BudgetSheet.StatusOf | eo_cashflow_planner_v2/report/eo_cfp_report_budget_xls.py:263-271 | Good below 50, On Track from 50 below 90, Warning from 90 below 100, Over Budget from 100, each exactly on its band |
| BudgetSheet.StylesFollowStatus | eo_cashflow_planner_v2/report/eo_cfp_report_budget_xls.py:72-99 | both cell styles use the status label's four bands, so a row's colours always match its label |
| BudgetSheet.SheetFigures | eo_cashflow_planner_v2/report/eo_cfp_report_budget_xls.py:246-311 | one row per line with its percentage, styles, status and used minus planned; the totals row sums planned, used, remaining and variance, and its percentage is taken over the totals |
| BudgetSheet.VarianceSumIsUsedMinusPlanned | eo_cashflow_planner_v2/report/eo_cfp_report_budget_xls.py:274-280 | the total variance is total used minus total planned |
| BudgetSheet.VarianceIsNegatedRemaining | eo_cashflow_planner_v2/report/eo_cfp_report_budget_xls.py:274 | when remaining is planned minus used, each variance and the total variance are the negated remaining amounts |
| BudgetSheet.PercentMatchesUsage | eo_cashflow_planner_v2/report/eo_cfp_report_budget_xls.py:254-257 | the spreadsheet's percentage equals the screen's usage whenever the planned amount is not negative; for a negative one the screen shows 0 |
| BudgetSheet.PercentMatchesUsageExample | eo_cashflow_planner_v2/report/eo_cfp_report_budget_xls.py:254-257 | a planned amount of -100.00 with 50.00 used gives -50 % in the spreadsheet and 0 % on the screen |
| BudgetSheet.StatusExample | eo_cashflow_planner_v2/report/eo_cfp_report_budget_xls.py:263-271 | 30 % is Good, 70 % On Track, 95 % Warning, 100 % Over Budget, and a zero planned amount is Good |

## Left out

- Database access: the ORM, the search domains and the SQL query against `account_invoice` are not modelled as such.
  - Stores are in-memory sequences of records, and a search is a filter over them.
  - The invoice query's result is an input sequence of rows, in the order the database returns them. The query has no ORDER BY, so that order is the row order.
  - The ORM's default hiding of inactive records (`active = False`) is not modelled.
- Search order of budgets: the budget analysis search (`category_id, name`), the order of its line table, and the spreadsheet's line order (`category_id, budget_id`) are not modelled; the store order is kept. The order affects only the order of the lines, not which lines there are or the totals.
- Float arithmetic: amounts are whole cents. The `digits=(16, 2)` rounding and floating-point error are not modelled; percentages are exact reals.
- `datetime.now()` is a parameter `today`; its time of day is dropped, so "after now" is "after today".
- Category `active`, `sequence`, `description`, `notes` and the `_order` of the category table are not modelled: they take no part in the hierarchy's logic.
- Logging, the swallowed exceptions, and the return values that only open a window (the action of generate-now, the `True` results) are not modelled, with three exceptions:
  - the budget trigger's observable results are modelled by the `registryReady` flag (the whole trigger fails) and the `failing` id set (the search fails for one item); the trigger as written has every search fail (see "## Findings");
  - the exception a failing constraint raises is the set of its messages, returned by the write, generate-now and the sweep, with the store left as it was (the transaction is rolled back);
  - the cron sweep returns its count of created items; the source only logs that count.
- Database ids of created records are the consecutive numbers `nextId`, `nextId + 1`, and so on.
- The `notes` text of generated items is not modelled.
- The cron sweep and generate-now running concurrently is not modelled.
- `onchange_type`, `name_search`, `_get_default_currency`, the default values of new records, the budget's `name_get`, and the report screens' `_get_name`, `_get_report_filename`, `detail` and `button_jump_*` actions are not modelled: they are user-interface plumbing or database searches.
- The wizards, the XLS and PDF rendering of the other reports, `styles.py`, and the cell writing of the budget spreadsheet are not modelled: the model keeps the computed figures and the choice of style only.
- The `ValueError` branch of `onchange_forecast_months` cannot arise: dates are always valid values.
- Required fields:
  - The overview's `if report.date_from` / `if report.date_to` guards are always true, because both fields are required.
  - A planned item always has a planned date, so its display name always ends with the bracketed date.
  - A recurring item always has a start date; the next-date computation requires a valid start date.
- The state buttons of budgets, planned items and recurring items do not re-check the constraints. The ORM re-checks them on every write, but none of them reads the state or the actual date, so on records that pass them a state write cannot fail (`Budgets.StateWriteKeepsValid` for budgets).
- The spreadsheet's test `planned_amount and planned_amount != 0` is the single test `planned != 0`; the two agree on numbers.
- RecurringItems.ComputeNextDate: requires a stored interval of at least 0. On a negative interval the source steps backwards and never ends; the constraint on the interval rules that out.
- RecurringItems.Sweep: the due dates are the items' next dates computed for the sweep's day. The source reads the `next_date` field, which is not stored and is computed on read for the same day.
- Categories.ParentCategories: requires that the chain from the category reaches a root. On a cyclic chain the source loops for ever, and its own recursion constraint excludes that state.
- Categories.DisplayName: requires the same as ParentCategories, for the same reason.

## Findings

| source | as written | input that shows it | evidently intended | confidence | as-written member | corrected member |
|---|---|---|---|---|---|---|
| eo_cashflow_planner_v2/models/eo_cfp_budget.py:136-147 | OpenERP 7 calls a store trigger with `self` bound to the model being written, so `self.search(budget_domain)` searches planned items on `period_start` and `period_end`, which they do not have; the error is swallowed for every item and the trigger returns no budget, so stored usage goes stale | a budget of category 10 for January 2025 with nothing used, and a payment of 2000.00 in category 10 dated 15 January 2025 (`Budgets.StaleAmountsExample`) | the budgets covering a changed item are recomputed, as `eo_cashflow_planner_v2/tests/test_budget.py:40-64` expects; the search runs on the budget model (`self.pool.get('eo.cfp.budget')`) | not executed; high | Budgets.BudgetStore.ItemsChangedAsWritten | Budgets.BudgetStore.ItemsChanged |
