/**
 Proleptic Gregorian calendar dates, with the year range and the month
 lengths of Python's `datetime.date` and `calendar.monthrange`.
 */
module Calendar {

  /** The smallest and largest year a `datetime.date` can hold. */
  const MinYear: int := 1
  const MaxYear: int := 9999

  datatype Date = Date(year: int, month: int, day: int)

  /** Gregorian leap rule: every fourth year, except centuries not divisible by 400. */
  predicate IsLeapYear(year: int) {
    year % 4 == 0 && (year % 100 != 0 || year % 400 == 0)
  }

  /** Number of days in the given month (the second component of `monthrange`). */
  function DaysInMonth(year: int, month: int): (days: int)
    requires 1 <= month <= 12
    ensures 28 <= days <= 31
    ensures month != 2 ==> 30 <= days
    ensures month == 2 ==> (days == 29 <==> IsLeapYear(year))
  {
    if month == 2 then (if IsLeapYear(year) then 29 else 28)
    else if month == 4 || month == 6 || month == 9 || month == 11 then 30
    else 31
  }

  /** Total length of the months before `month` in `year`. */
  function DaysBeforeMonth(year: int, month: int): int
    requires 1 <= month <= 13
    decreases month
  {
    if month == 1 then 0 else DaysBeforeMonth(year, month - 1) + DaysInMonth(year, month - 1)
  }

  /** The twelve month lengths add up to the length of a Gregorian year. */
  lemma YearLength(year: int)
    ensures DaysBeforeMonth(year, 13) == if IsLeapYear(year) then 366 else 365
  {
  }

  /** A date that `datetime.date` accepts. */
  predicate ValidDate(d: Date) {
    && MinYear <= d.year <= MaxYear
    && 1 <= d.month <= 12
    && 1 <= d.day <= DaysInMonth(d.year, d.month)
  }

  /** The calendar day after `d` (`d + timedelta(days=1)`). */
  function NextDay(d: Date): (r: Date)
    requires ValidDate(d) && d != Date(MaxYear, 12, 31)
    ensures ValidDate(r)
    ensures r.year == d.year || (r.year == d.year + 1 && r.month == 1 && r.day == 1)
    ensures r.day == 1 <==> d.day == DaysInMonth(d.year, d.month)
  {
    if d.day < DaysInMonth(d.year, d.month) then Date(d.year, d.month, d.day + 1)
    else if d.month < 12 then Date(d.year, d.month + 1, 1)
    else Date(d.year + 1, 1, 1)
  }

  /** The calendar day before `d` (`d - timedelta(days=1)`). */
  function PrevDay(d: Date): (r: Date)
    requires ValidDate(d) && d != Date(MinYear, 1, 1)
    ensures ValidDate(r) && r != Date(MaxYear, 12, 31)
    ensures NextDay(r) == d
  {
    if d.day > 1 then Date(d.year, d.month, d.day - 1)
    else if d.month > 1 then Date(d.year, d.month - 1, DaysInMonth(d.year, d.month - 1))
    else Date(d.year - 1, 12, 31)
  }

  /** Stepping forward one day and back again returns the original date. */
  lemma PrevAfterNext(d: Date)
    requires ValidDate(d) && d != Date(MaxYear, 12, 31)
    ensures NextDay(d) != Date(MinYear, 1, 1)
    ensures PrevDay(NextDay(d)) == d
  {
  }

  /** `NextDay` is injective on valid dates, so `PrevDay` is its unique inverse. */
  lemma NextDayInjective(a: Date, b: Date)
    requires ValidDate(a) && a != Date(MaxYear, 12, 31)
    requires ValidDate(b) && b != Date(MaxYear, 12, 31)
    requires NextDay(a) == NextDay(b)
    ensures a == b
  {
    PrevAfterNext(a);
    PrevAfterNext(b);
  }
}
