/**
 The proleptic Gregorian calendar as Python's `datetime.date` implements it:
 a date is a (year, month, day) triple, its ordinal is the number of days
 since 0001-01-01 (which has ordinal 1), and adding a `timedelta` of `n`
 days moves the ordinal by `n`. `AddDays` computes the shifted date by
 walking month by month; its contract ties it to the closed-form ordinal.
 */
module Calendar {

  datatype Date = Date(year: int, month: int, day: int)

  /** The smallest year a Python date can hold. */
  const MinYear := 1

  predicate IsLeapYear(y: int) {
    y % 4 == 0 && (y % 100 != 0 || y % 400 == 0)
  }

  function DaysInYear(y: int): int {
    if IsLeapYear(y) then 366 else 365
  }

  /** Month lengths of a common (non-leap) year, January first. */
  const CommonMonthLengths: seq<int> := [31, 28, 31, 30, 31, 30, 31, 31, 30, 31, 30, 31]

  /** Days before the first of each month of a common year, January first. */
  const CommonDaysBeforeMonth: seq<int> := [0, 31, 59, 90, 120, 151, 181, 212, 243, 273, 304, 334]

  function DaysInMonth(y: int, m: int): (n: int)
    requires 1 <= m <= 12
    ensures 28 <= n <= 31
    ensures n == 28 <==> m == 2 && !IsLeapYear(y)
    ensures n == 29 <==> m == 2 && IsLeapYear(y)
    ensures n == 30 <==> m == 4 || m == 6 || m == 9 || m == 11
  {
    if m == 2 && IsLeapYear(y) then 29 else CommonMonthLengths[m - 1]
  }

  /** Days of year `y` that lie before the first of month `m`. */
  function DaysBeforeMonth(y: int, m: int): int
    requires 1 <= m <= 12
  {
    CommonDaysBeforeMonth[m - 1] + (if m > 2 && IsLeapYear(y) then 1 else 0)
  }

  /** Days before January 1 of year `y`, counted from 0001-01-01. */
  function DaysBeforeYear(y: int): int {
    var p := y - 1;
    p * 365 + p / 4 - p / 100 + p / 400
  }

  predicate Valid(d: Date) {
    && MinYear <= d.year
    && 1 <= d.month <= 12
    && 1 <= d.day <= DaysInMonth(d.year, d.month)
  }

  /** Python's `date.toordinal()`. */
  function ToOrdinal(d: Date): int
    requires Valid(d)
  {
    DaysBeforeYear(d.year) + DaysBeforeMonth(d.year, d.month) + d.day
  }

  /** Calendar order: year first, then month, then day. */
  predicate Before(a: Date, b: Date) {
    || a.year < b.year
    || (a.year == b.year && a.month < b.month)
    || (a.year == b.year && a.month == b.month && a.day < b.day)
  }

  /** The first of the month following `d`. */
  function NextMonthStart(d: Date): (r: Date)
    requires Valid(d)
    ensures Valid(r)
    ensures Before(d, r)
    ensures ToOrdinal(r) == ToOrdinal(d) + (DaysInMonth(d.year, d.month) - d.day) + 1
  {
    if d.month == 12 then
      DaysBeforeYearStep(d.year);
      Date(d.year + 1, 1, 1)
    else
      DaysBeforeMonthStep(d.year, d.month);
      Date(d.year, d.month + 1, 1)
  }

  /** `d + timedelta(days=n)` for a non-negative `n`. */
  function AddDays(d: Date, n: nat): (r: Date)
    requires Valid(d)
    ensures Valid(r)
    ensures ToOrdinal(r) == ToOrdinal(d) + n
    decreases n
  {
    var rest := DaysInMonth(d.year, d.month) - d.day;
    if n <= rest then Date(d.year, d.month, d.day + n)
    else AddDays(NextMonthStart(d), n - rest - 1)
  }

  /** The calendar quarter (1..4) a month falls in: `(month - 1) // 3 + 1`. */
  function QuarterOf(month: int): (q: int)
    requires 1 <= month <= 12
    ensures 1 <= q <= 4
    ensures 3 * q - 2 <= month <= 3 * q
  {
    (month - 1) / 3 + 1
  }

  lemma QuarterMonotone(m1: int, m2: int)
    requires 1 <= m1 <= m2 <= 12
    ensures QuarterOf(m1) <= QuarterOf(m2)
  {
  }

  lemma DaysBeforeMonthStep(y: int, m: int)
    requires 1 <= m < 12
    ensures DaysBeforeMonth(y, m + 1) == DaysBeforeMonth(y, m) + DaysInMonth(y, m)
  {
  }

  lemma DaysBeforeYearStep(y: int)
    ensures DaysBeforeYear(y + 1) == DaysBeforeYear(y) + DaysInYear(y)
  {
    var leap := if IsLeapYear(y) then 1 else 0;
    assert y / 4 - (y - 1) / 4 == (if y % 4 == 0 then 1 else 0);
    assert y / 100 - (y - 1) / 100 == (if y % 100 == 0 then 1 else 0);
    assert y / 400 - (y - 1) / 400 == (if y % 400 == 0 then 1 else 0);
    assert y % 400 == 0 ==> y % 100 == 0;
    assert y % 100 == 0 ==> y % 4 == 0;
    assert (y / 4 - (y - 1) / 4) - (y / 100 - (y - 1) / 100) + (y / 400 - (y - 1) / 400) == leap;
  }

  lemma {:induction false} DaysBeforeYearMonotone(y1: int, y2: int)
    requires y1 <= y2
    ensures DaysBeforeYear(y1) <= DaysBeforeYear(y2)
    decreases y2 - y1
  {
    if y1 < y2 {
      DaysBeforeYearStep(y1);
      DaysBeforeYearMonotone(y1 + 1, y2);
    }
  }

  /** A month, with all its days, ends before any later month of the same year starts. */
  lemma {:induction false} DaysBeforeMonthMonotone(y: int, m1: int, m2: int)
    requires 1 <= m1 < m2 <= 12
    ensures DaysBeforeMonth(y, m1) + DaysInMonth(y, m1) <= DaysBeforeMonth(y, m2)
    decreases m2 - m1
  {
    DaysBeforeMonthStep(y, m1);
    if m1 + 1 < m2 {
      DaysBeforeMonthMonotone(y, m1 + 1, m2);
    }
  }

  /** Every date of year `y` has an ordinal within that year's span. */
  lemma {:induction false} OrdinalWithinYear(d: Date)
    requires Valid(d)
    ensures ToOrdinal(Date(d.year, 1, 1)) <= ToOrdinal(d) < ToOrdinal(Date(d.year + 1, 1, 1))
  {
    DaysBeforeYearStep(d.year);
    if d.month < 12 {
      DaysBeforeMonthMonotone(d.year, d.month, 12);
    }
  }

  /** The ordinal orders dates exactly as the calendar does. */
  lemma {:induction false} OrdinalOrder(a: Date, b: Date)
    requires Valid(a) && Valid(b)
    ensures Before(a, b) <==> ToOrdinal(a) < ToOrdinal(b)
    ensures a == b <==> ToOrdinal(a) == ToOrdinal(b)
  {
    if Before(a, b) {
      OrdinalLess(a, b);
    } else if Before(b, a) {
      OrdinalLess(b, a);
    }
  }

  lemma {:induction false} OrdinalLess(a: Date, b: Date)
    requires Valid(a) && Valid(b) && Before(a, b)
    ensures ToOrdinal(a) < ToOrdinal(b)
  {
    if a.year < b.year {
      OrdinalWithinYear(a);
      OrdinalWithinYear(b);
      DaysBeforeYearMonotone(a.year + 1, b.year);
    } else if a.month < b.month {
      DaysBeforeMonthMonotone(a.year, a.month, b.month);
    }
  }

  /** A date whose ordinal lies within year `y`'s span belongs to year `y`. */
  lemma {:induction false} YearOfOrdinal(d: Date, y: int)
    requires Valid(d) && MinYear <= y
    requires ToOrdinal(Date(y, 1, 1)) <= ToOrdinal(d) < ToOrdinal(Date(y + 1, 1, 1))
    ensures d.year == y
  {
    OrdinalOrder(d, Date(y, 1, 1));
    OrdinalOrder(Date(y + 1, 1, 1), d);
  }
}
