/**
 * `java.time.LocalDate` as the backend uses it: a proleptic Gregorian
 * (year, month, day) triple, day-precise comparison, `plusMonths`,
 * `withDayOfMonth` and month differences.
 */
module Dates {
  import opened Wrappers

  datatype Date = Date(year: int, month: int, day: int)

  predicate IsLeapYear(y: int)
  {
    y % 4 == 0 && (y % 100 != 0 || y % 400 == 0)
  }

  function DaysInMonth(y: int, m: int): (n: int)
    requires 1 <= m <= 12
    ensures 28 <= n <= 31
    ensures n == 29 <==> m == 2 && IsLeapYear(y)
  {
    if m == 2 then (if IsLeapYear(y) then 29 else 28)
    else if m == 4 || m == 6 || m == 9 || m == 11 then 30
    else 31
  }

  predicate Valid(d: Date)
  {
    1 <= d.month <= 12 && 1 <= d.day <= DaysInMonth(d.year, d.month)
  }

  /** `a.isBefore(b)`. */
  predicate Before(a: Date, b: Date)
  {
    a.year < b.year
    || (a.year == b.year && (a.month < b.month || (a.month == b.month && a.day < b.day)))
  }

  /** `a.isAfter(b)`. */
  predicate After(a: Date, b: Date) { Before(b, a) }

  /** `a <= b`, as a repository's `LessThanEqual` or `Between` compares dates. */
  predicate NotAfter(a: Date, b: Date) { !Before(b, a) }

  lemma BeforeTrichotomy(a: Date, b: Date)
    ensures Before(a, b) || a == b || Before(b, a)
    ensures !(Before(a, b) && Before(b, a))
    ensures !Before(a, a)
  {
  }

  /** The month count since year 0 that `ChronoUnit.MONTHS` works with. */
  function MonthIndex(d: Date): int
  {
    12 * d.year + d.month - 1
  }

  /**
   * `d.plusMonths(n)`: month arithmetic on the (year, month) pair, with the day
   * clamped to the last day of the resulting month.
   */
  function PlusMonths(d: Date, n: int): (r: Date)
    requires Valid(d)
    ensures Valid(r)
    ensures MonthIndex(r) == MonthIndex(d) + n
    ensures r.day == if d.day <= DaysInMonth(r.year, r.month) then d.day else DaysInMonth(r.year, r.month)
  {
    var idx := MonthIndex(d) + n;
    var y := idx / 12;
    var m := idx % 12 + 1;
    var last := DaysInMonth(y, m);
    Date(y, m, if d.day <= last then d.day else last)
  }

  /** `d.withDayOfMonth(dia)`, which throws when the month has no such day. */
  function WithDayOfMonth(d: Date, dia: int): (r: Option<Date>)
    requires 1 <= d.month <= 12
    ensures r.Some? <==> 1 <= dia <= DaysInMonth(d.year, d.month)
    ensures r.Some? ==> Valid(r.value) && r.value.year == d.year && r.value.month == d.month && r.value.day == dia
  {
    if 1 <= dia <= DaysInMonth(d.year, d.month) then Some(d.(day := dia)) else None
  }

  /**
   * `ChronoUnit.MONTHS.between(a.withDayOfMonth(1), b.withDayOfMonth(1))`:
   * both dates sit on day 1, so the count is exact.
   */
  function MonthsBetweenFirstDays(a: Date, b: Date): int
  {
    MonthIndex(b) - MonthIndex(a)
  }

  /**
   * A number that orders valid dates as time does; it stands for
   * `new Date(s).getTime()` in the front end, which is compared but never shown.
   */
  function Ordinal(d: Date): int
  {
    372 * d.year + 31 * (d.month - 1) + (d.day - 1)
  }

  lemma {:induction false} OrdinalOrder(a: Date, b: Date)
    requires Valid(a) && Valid(b)
    ensures Before(a, b) <==> Ordinal(a) < Ordinal(b)
    ensures a == b <==> Ordinal(a) == Ordinal(b)
  {
    var ka := 31 * (a.month - 1) + (a.day - 1);
    var kb := 31 * (b.month - 1) + (b.day - 1);
    assert 0 <= ka < 372 && 0 <= kb < 372;
    if a.year < b.year {
      assert 372 * a.year + 372 <= 372 * b.year;
    } else if a.year > b.year {
      assert 372 * b.year + 372 <= 372 * a.year;
    }
  }
}
