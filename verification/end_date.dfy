/**
 The end-of-life date of an asset (`calculate_end_date`): advance the
 purchase date by the expected life in months, clamp the day to the
 length of the target month, then step back one day.
 */
module EndDate {
  import opened Wrappers
  import opened Calendar
  import opened Months

  /** The two `ValueError`s the computation can raise. */
  datatype EndDateError =
    | InvalidLife(life: int)       // expected life below one month
    | YearOutOfRange(year: int)    // `date(...)` refuses a year past 9999

  /** The purchase day, clamped to the last day of the target month. */
  function ClampDay(day: int, year: int, month: int): (d: int)
    requires 1 <= month <= 12
    requires 1 <= day
    ensures 1 <= d <= DaysInMonth(year, month)
    ensures d <= day
    ensures d == day || d == DaysInMonth(year, month)
  {
    var days := DaysInMonth(year, month);
    if days < day then days else day
  }

  /**
   `calculate_end_date`. The source advances with `calculate_year_month`;
   the offset here is the life, at least one, where that helper and
   `AdvanceMonths` agree (`CalculateYearMonthAgrees`).
   */
  function CalculateEndDate(purchase: Date, life: int): (r: Result<Date, EndDateError>)
    requires ValidDate(purchase)
    ensures life < 1 ==> r == Failure(InvalidLife(life))
    ensures life >= 1 ==> (r.Failure? <==> AdvanceMonths(MonthOf(purchase), life).year > MaxYear)
    ensures r.Failure? && life >= 1 ==> r.error == YearOutOfRange(AdvanceMonths(MonthOf(purchase), life).year)
    // the end date is the day before the clamped anniversary
    ensures r.Success? ==>
      var target := AdvanceMonths(MonthOf(purchase), life);
      && ValidDate(r.value)
      && r.value != Date(MaxYear, 12, 31)
      && NextDay(r.value) == Date(target.year, target.month, ClampDay(purchase.day, target.year, target.month))
    // hence its month is the advanced month, or the one before it for a purchase on the 1st
    ensures r.Success? ==>
      MonthIndex(MonthOf(r.value)) == MonthIndex(MonthOf(purchase)) + life - (if purchase.day == 1 then 1 else 0)
    ensures r.Success? && purchase.day == 1 ==> r.value.day == DaysInMonth(r.value.year, r.value.month)
  {
    if life < 1 then Failure(InvalidLife(life))
    else
      var target := AdvanceMonths(MonthOf(purchase), life);
      if target.year > MaxYear then Failure(YearOutOfRange(target.year))
      else
        var day := ClampDay(purchase.day, target.year, target.month);
        Success(PrevDay(Date(target.year, target.month, day)))
  }

  /**
   A purchase on the 31st whose target month is shorter is clamped to that
   month's last day before stepping back.
   */
  lemma EndDateClampExamples()
    ensures CalculateEndDate(Date(2022, 1, 31), 3) == Success(Date(2022, 4, 29))
    ensures CalculateEndDate(Date(2020, 1, 31), 1) == Success(Date(2020, 2, 28))
  {
  }

  /** The end dates the repository's tests check. */
  lemma EndDateTestCases()
    ensures CalculateEndDate(Date(2022, 1, 1), 1) == Success(Date(2022, 1, 31))
    ensures CalculateEndDate(Date(2022, 1, 2), 1) == Success(Date(2022, 2, 1))
    ensures CalculateEndDate(Date(2022, 1, 1), 12) == Success(Date(2022, 12, 31))
  {
    assert AdvanceMonths(YearMonth(2022, 1), 1) == YearMonth(2022, 2);
    assert AdvanceMonths(YearMonth(2022, 1), 12) == YearMonth(2023, 1);
  }

  /** The end dates of the repository's schedule test cases. */
  lemma EndDateScheduleCases()
    ensures CalculateEndDate(Date(2020, 3, 6), 8) == Success(Date(2020, 11, 5))
    ensures CalculateEndDate(Date(2021, 6, 7), 9) == Success(Date(2022, 3, 6))
    ensures CalculateEndDate(Date(2020, 5, 12), 2) == Success(Date(2020, 7, 11))
  {
  }

  /** A zero life and a year past 9999 are the two errors. */
  lemma EndDateErrorExamples()
    ensures CalculateEndDate(Date(2022, 1, 1), 0) == Failure(InvalidLife(0))
    ensures CalculateEndDate(Date(9999, 12, 15), 1) == Failure(YearOutOfRange(10000))
    // the end date itself would be 9999-12-31, but `date(10000, 1, 1)` is built first
    ensures CalculateEndDate(Date(9998, 12, 1), 13) == Failure(YearOutOfRange(10000))
  {
  }
}
