/** Calendar dates as the source handles them: ISO 'YYYY-MM-DD' values compared in
    calendar order, shifted by whole days (timedelta) or by calendar months and years
    (dateutil's relativedelta, which keeps the day of the month and clamps it to the
    length of the target month). */
module Dates {

  datatype Date = Date(year: int, month: int, day: int)

  predicate IsLeapYear(y: int) {
    y % 4 == 0 && (y % 100 != 0 || y % 400 == 0)
  }

  function DaysInMonth(y: int, m: int): (n: int)
    ensures 28 <= n <= 31
    ensures n == 29 <==> m == 2 && IsLeapYear(y)
  {
    if m == 2 then (if IsLeapYear(y) then 29 else 28)
    else if m == 4 || m == 6 || m == 9 || m == 11 then 30
    else 31
  }

  /** A date that exists on the Gregorian calendar. */
  predicate Valid(d: Date) {
    1 <= d.month <= 12 && 1 <= d.day <= DaysInMonth(d.year, d.month)
  }

  /** Strict calendar order: `a` falls on an earlier day than `b`. */
  predicate Before(a: Date, b: Date) {
    a.year < b.year
    || (a.year == b.year && (a.month < b.month || (a.month == b.month && a.day < b.day)))
  }

  /** `a <= b` in calendar order. */
  predicate NotAfter(a: Date, b: Date) {
    !Before(b, a)
  }

  /** The closed interval test `lo <= d <= hi`. */
  predicate InRange(d: Date, lo: Date, hi: Date) {
    NotAfter(lo, d) && NotAfter(d, hi)
  }

  lemma BeforeIsStrictTotalOrder(a: Date, b: Date, c: Date)
    ensures !Before(a, a)
    ensures Before(a, b) ==> !Before(b, a)
    ensures Before(a, b) && Before(b, c) ==> Before(a, c)
    ensures a == b || Before(a, b) || Before(b, a)
  {
  }

  function MonthIndex(d: Date): int {
    d.year * 12 + d.month - 1
  }

  function NextDay(d: Date): (r: Date)
    requires Valid(d)
    ensures Valid(r) && Before(d, r)
  {
    if d.day < DaysInMonth(d.year, d.month) then Date(d.year, d.month, d.day + 1)
    else if d.month < 12 then Date(d.year, d.month + 1, 1)
    else Date(d.year + 1, 1, 1)
  }

  function PrevDay(d: Date): (r: Date)
    requires Valid(d)
    ensures Valid(r) && Before(r, d)
  {
    if d.day > 1 then Date(d.year, d.month, d.day - 1)
    else if d.month > 1 then Date(d.year, d.month - 1, DaysInMonth(d.year, d.month - 1))
    else Date(d.year - 1, 12, 31)
  }

  lemma NextPrevInverse(d: Date)
    requires Valid(d)
    ensures PrevDay(NextDay(d)) == d && NextDay(PrevDay(d)) == d
  {
  }

  /** `d + timedelta(days=n)`: `n` calendar days later (earlier when `n` is negative). */
  function AddDays(d: Date, n: int): (r: Date)
    requires Valid(d)
    ensures Valid(r)
    ensures n == 0 ==> r == d
    ensures n > 0 ==> Before(d, r)
    ensures n < 0 ==> Before(r, d)
    decreases if n >= 0 then n else -n
  {
    if n == 0 then d
    else if n > 0 then AddDays(NextDay(d), n - 1)
    else AddDays(PrevDay(d), n + 1)
  }

  /** `d + relativedelta(months=n)`: the same day `n` calendar months later, clamped
      to the last day of the target month. */
  function AddMonths(d: Date, n: int): (r: Date)
    requires Valid(d)
    ensures Valid(r)
    ensures MonthIndex(r) == MonthIndex(d) + n
    ensures r.day <= d.day && (r.day < d.day ==> r.day == DaysInMonth(r.year, r.month))
  {
    var total := d.year * 12 + (d.month - 1) + n;
    var y := total / 12;
    var m := total % 12 + 1;
    Date(y, m, if d.day <= DaysInMonth(y, m) then d.day else DaysInMonth(y, m))
  }

  /** `d + relativedelta(years=n)`: the same month and day `n` years later, with
      February 29 clamped to February 28 in a common year. */
  function AddYears(d: Date, n: int): (r: Date)
    requires Valid(d)
    ensures Valid(r)
  {
    var dim := DaysInMonth(d.year + n, d.month);
    Date(d.year + n, d.month, if d.day <= dim then d.day else dim)
  }

  lemma AddYearsIsTwelveMonths(d: Date, n: int)
    requires Valid(d)
    ensures AddYears(d, n) == AddMonths(d, 12 * n)
  {
    var r := AddMonths(d, 12 * n);
    assert MonthIndex(r) == (d.year + n) * 12 + d.month - 1;
    assert r.year == d.year + n && r.month == d.month;
  }

  /** A positive number of months moves strictly forward in time and never skips a
      month: the result lies in the n-th month after `d`. */
  lemma AddMonthsForward(d: Date, n: int)
    requires Valid(d) && n >= 1
    ensures Before(d, AddMonths(d, n))
  {
    var r := AddMonths(d, n);
    assert MonthIndex(r) > MonthIndex(d);
  }

  lemma AddYearsForward(d: Date, n: int)
    requires Valid(d) && n >= 1
    ensures Before(d, AddYears(d, n))
  {
  }

  /** Month-end clamping, as relativedelta does it. */
  lemma MonthEndClampExamples()
    ensures AddMonths(Date(2025, 1, 31), 1) == Date(2025, 2, 28)
    ensures AddMonths(Date(2024, 1, 31), 1) == Date(2024, 2, 29)
    ensures AddMonths(Date(2025, 10, 1), 1) == Date(2025, 11, 1)
    ensures AddMonths(Date(2025, 11, 30), 3) == Date(2026, 2, 28)
    ensures AddYears(Date(2024, 2, 29), 1) == Date(2025, 2, 28)
  {
  }
}
