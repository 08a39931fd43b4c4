/** Calendar dates as the billing engine uses them: proleptic Gregorian
    (year, month, day) triples ordered lexicographically, the "first day of
    the month" normalisation, the one-month step back used to find the
    previous billing period, and the one-day step back used to close a
    tariff window. */
module Dates {

  datatype Date = Date(year: int, month: int, day: int)

  predicate IsLeapYear(y: int) {
    y % 4 == 0 && (y % 100 != 0 || y % 400 == 0)
  }

  function DaysInMonth(y: int, m: int): (n: int)
    requires 1 <= m <= 12
    ensures 28 <= n <= 31
    ensures m == 2 ==> (n == 29 <==> IsLeapYear(y))
  {
    if m == 2 then (if IsLeapYear(y) then 29 else 28)
    else if m == 4 || m == 6 || m == 9 || m == 11 then 30
    else 31
  }

  /** A date that exists in the calendar. */
  predicate Valid(d: Date) {
    1 <= d.month <= 12 && 1 <= d.day <= DaysInMonth(d.year, d.month)
  }

  /** Strict chronological order. */
  predicate Lt(a: Date, b: Date) {
    a.year < b.year
    || (a.year == b.year && a.month < b.month)
    || (a.year == b.year && a.month == b.month && a.day < b.day)
  }

  /** Chronological order, inclusive. */
  predicate Le(a: Date, b: Date) {
    !Lt(b, a)
  }

  /** Months counted from year 0, so that consecutive billing periods
      differ by one. */
  function MonthIndex(d: Date): int {
    d.year * 12 + (d.month - 1)
  }

  /** `d.replace(day=1)`: the billing period a date falls in. */
  function FirstOfMonth(d: Date): (r: Date)
    requires Valid(d)
    ensures Valid(r) && r.day == 1
    ensures MonthIndex(r) == MonthIndex(d)
    ensures Le(r, d)
  {
    d.(day := 1)
  }

  /** `d - relativedelta(months=1)`: the same day one month earlier, clamped
      to the last day of that month when it is shorter. */
  function PrevMonth(d: Date): (r: Date)
    requires Valid(d)
    ensures Valid(r) && Lt(r, d)
    ensures MonthIndex(r) == MonthIndex(d) - 1
    ensures r.day == if d.day <= DaysInMonth(r.year, r.month) then d.day else DaysInMonth(r.year, r.month)
  {
    var y := if d.month == 1 then d.year - 1 else d.year;
    var m := if d.month == 1 then 12 else d.month - 1;
    var last := DaysInMonth(y, m);
    Date(y, m, if d.day <= last then d.day else last)
  }

  /** `d - timedelta(days=1)`. */
  function PrevDay(d: Date): (r: Date)
    requires Valid(d)
    ensures Valid(r) && Lt(r, d)
  {
    if d.day > 1 then d.(day := d.day - 1)
    else if d.month > 1 then Date(d.year, d.month - 1, DaysInMonth(d.year, d.month - 1))
    else Date(d.year - 1, 12, 31)
  }

  /** No calendar day lies strictly between the day before `d` and `d`:
      a window ending on `PrevDay(d)` and one starting on `d` are adjacent. */
  lemma NoDayBetween(d: Date, x: Date)
    requires Valid(d) && Valid(x)
    ensures Le(x, PrevDay(d)) <==> Lt(x, d)
  {
    if d.day == 1 && d.month > 1 && x.year == d.year && x.month == d.month - 1 {
      assert x.day <= DaysInMonth(d.year, d.month - 1);
    }
  }

  lemma LtIsTransitive(a: Date, b: Date, c: Date)
    requires Lt(a, b) && Lt(b, c)
    ensures Lt(a, c)
  {
  }

  lemma LeIsTransitive(a: Date, b: Date, c: Date)
    requires Le(a, b) && Le(b, c)
    ensures Le(a, c)
  {
  }

  lemma LeIsAntisymmetric(a: Date, b: Date)
    requires Le(a, b) && Le(b, a)
    ensures a == b
  {
  }
}
