/**
 Calendar-month arithmetic on (year, month) pairs: the helper
 `calculate_year_month` exactly as the source writes it, and the
 floor-division version that carries years correctly for every offset.
 */
module Months {
  import opened Calendar

  datatype YearMonth = YearMonth(year: int, month: int)

  predicate ValidMonth(ym: YearMonth) {
    1 <= ym.month <= 12
  }

  /** The calendar month a date falls in. */
  function MonthOf(d: Date): YearMonth {
    YearMonth(d.year, d.month)
  }

  /** Months elapsed since January of year 0: consecutive months get consecutive indices. */
  function MonthIndex(ym: YearMonth): int {
    ym.year * 12 + ym.month - 1
  }

  /** Two valid months with the same index are the same month. */
  lemma MonthIndexInjective(a: YearMonth, b: YearMonth)
    requires ValidMonth(a) && ValidMonth(b)
    requires MonthIndex(a) == MonthIndex(b)
    ensures a == b
  {
  }

  /** Python's `int(a / 12)`: the quotient truncated toward zero. */
  function TruncDiv12(a: int): (q: int)
    ensures a >= 0 ==> q * 12 <= a < q * 12 + 12
    ensures a < 0 ==> q * 12 - 12 < a <= q * 12
  {
    if a >= 0 then a / 12 else -((-a) / 12)
  }

  /** Python's `a // 12`: the quotient floored, the partner of Python's `a % 12`. */
  function FloorDiv12(a: int): (q: int)
    ensures q * 12 <= a < q * 12 + 12
  {
    a / 12
  }

  /**
   `calculate_year_month` as written: truncating division for the year
   together with Python's flooring `%` for the month. For every
   non-negative offset the result lies exactly `monthsPassed` months
   after the date's month.
   */
  function CalculateYearMonth(fromDate: Date, monthsPassed: int): (ym: YearMonth)
    requires 1 <= fromDate.month <= 12
    ensures ValidMonth(ym)
    ensures monthsPassed >= 0 ==> MonthIndex(ym) == MonthIndex(MonthOf(fromDate)) + monthsPassed
  {
    var monthsSum := fromDate.month + monthsPassed - 1;
    YearMonth(fromDate.year + TruncDiv12(monthsSum), monthsSum % 12 + 1)
  }

  /**
   Month arithmetic with flooring division for the year, so the carry is
   right for offsets of either sign.
   */
  function AdvanceMonths(ym: YearMonth, n: int): (r: YearMonth)
    requires ValidMonth(ym)
    ensures ValidMonth(r)
    ensures MonthIndex(r) == MonthIndex(ym) + n
  {
    var monthsSum := ym.month + n - 1;
    YearMonth(ym.year + FloorDiv12(monthsSum), monthsSum % 12 + 1)
  }

  /** On every offset the source passes (`monthsPassed >= 0`) both versions agree. */
  lemma CalculateYearMonthAgrees(fromDate: Date, monthsPassed: int)
    requires 1 <= fromDate.month <= 12
    requires monthsPassed >= 0
    ensures CalculateYearMonth(fromDate, monthsPassed) == AdvanceMonths(MonthOf(fromDate), monthsPassed)
  {
    MonthIndexInjective(CalculateYearMonth(fromDate, monthsPassed), AdvanceMonths(MonthOf(fromDate), monthsPassed));
  }

  /** The day of the month plays no part in the result. */
  lemma CalculateYearMonthIgnoresDay(a: Date, b: Date, monthsPassed: int)
    requires 1 <= a.month <= 12
    requires MonthOf(a) == MonthOf(b)
    ensures CalculateYearMonth(a, monthsPassed) == CalculateYearMonth(b, monthsPassed)
  {
  }

  /** Offset zero returns the date's own month; offset 12k adds exactly k years. */
  lemma CalculateYearMonthWholeYears(fromDate: Date, k: nat)
    requires 1 <= fromDate.month <= 12
    ensures CalculateYearMonth(fromDate, 0) == MonthOf(fromDate)
    ensures CalculateYearMonth(fromDate, 12 * k) == YearMonth(fromDate.year + k, fromDate.month)
  {
    MonthIndexInjective(CalculateYearMonth(fromDate, 0), MonthOf(fromDate));
    MonthIndexInjective(CalculateYearMonth(fromDate, 12 * k), YearMonth(fromDate.year + k, fromDate.month));
  }

  /** Advancing by `n` and then by `-n` returns the starting month, for any sign of `n`. */
  lemma AdvanceMonthsRoundTrip(ym: YearMonth, n: int)
    requires ValidMonth(ym)
    ensures AdvanceMonths(AdvanceMonths(ym, n), -n) == ym
  {
    MonthIndexInjective(AdvanceMonths(AdvanceMonths(ym, n), -n), ym);
  }

  /** Advancing by `m` and then by `n` is advancing by `m + n`. */
  lemma AdvanceMonthsCompose(ym: YearMonth, m: int, n: int)
    requires ValidMonth(ym)
    ensures AdvanceMonths(AdvanceMonths(ym, m), n) == AdvanceMonths(ym, m + n)
  {
    MonthIndexInjective(AdvanceMonths(AdvanceMonths(ym, m), n), AdvanceMonths(ym, m + n));
  }

  /**
   As written, a negative month sum that is not a multiple of 12 lands
   exactly one year too late: the truncated quotient is one more than the
   floored one that Python's `%` pairs with.
   */
  lemma NegativeOffsetYearTooLate(fromDate: Date, monthsPassed: int)
    requires 1 <= fromDate.month <= 12
    requires fromDate.month + monthsPassed - 1 < 0
    requires (fromDate.month + monthsPassed - 1) % 12 != 0
    ensures MonthIndex(CalculateYearMonth(fromDate, monthsPassed))
         == MonthIndex(MonthOf(fromDate)) + monthsPassed + 12
  {
    var s := fromDate.month + monthsPassed - 1;
    assert s == 12 * (s / 12) + s % 12;
    assert TruncDiv12(s) == s / 12 + 1;
  }

  /**
   Concrete witness: one month back from December 2022 and from January
   2023. The as-written helper answers (2023, 12) for January 2023, so
   going forward one month and back again does not return to December 2022;
   the corrected helper does.
   */
  lemma NegativeOffsetWitness()
    ensures CalculateYearMonth(Date(2022, 12, 15), 1) == YearMonth(2023, 1)
    ensures CalculateYearMonth(Date(2023, 1, 15), -1) == YearMonth(2023, 12)
    ensures CalculateYearMonth(Date(2022, 1, 1), -1) == YearMonth(2022, 12)
    ensures AdvanceMonths(YearMonth(2023, 1), -1) == YearMonth(2022, 12)
  {
  }

  /** The month-arithmetic table the repository's tests check, all seventeen rows. */
  lemma CalculateYearMonthExamples()
    ensures CalculateYearMonth(Date(2022, 1, 1), 1) == YearMonth(2022, 2)
    ensures CalculateYearMonth(Date(2022, 1, 2), 1) == YearMonth(2022, 2)
    ensures CalculateYearMonth(Date(2022, 1, 2), 11) == YearMonth(2022, 12)
    ensures CalculateYearMonth(Date(2022, 1, 2), 12) == YearMonth(2023, 1)
    ensures CalculateYearMonth(Date(2022, 1, 2), 0) == YearMonth(2022, 1)
    ensures CalculateYearMonth(Date(2022, 12, 2), 0) == YearMonth(2022, 12)
    ensures CalculateYearMonth(Date(2022, 6, 2), 1) == YearMonth(2022, 7)
    ensures CalculateYearMonth(Date(2022, 6, 2), 2) == YearMonth(2022, 8)
    ensures CalculateYearMonth(Date(2022, 6, 2), 3) == YearMonth(2022, 9)
    ensures CalculateYearMonth(Date(2022, 6, 2), 4) == YearMonth(2022, 10)
    ensures CalculateYearMonth(Date(2022, 6, 2), 5) == YearMonth(2022, 11)
    ensures CalculateYearMonth(Date(2022, 6, 2), 6) == YearMonth(2022, 12)
    ensures CalculateYearMonth(Date(2022, 6, 2), 7) == YearMonth(2023, 1)
    ensures CalculateYearMonth(Date(2022, 12, 6), 1) == YearMonth(2023, 1)
    ensures CalculateYearMonth(Date(2022, 12, 31), 120) == YearMonth(2032, 12)
    ensures CalculateYearMonth(Date(2022, 12, 31), 1200) == YearMonth(2122, 12)
    ensures CalculateYearMonth(Date(3022, 12, 31), 1200) == YearMonth(3122, 12)
  {
  }
}
