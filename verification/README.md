# Depreciation schedule generator — Dafny model

This project models the straight-line depreciation calculator in
`depreciation_calculator.py`. Given an asset's purchase date, its expected
life in whole months, its original value and its salvage value, the
calculator emits one amount per calendar month. The first month is prorated
by days. The months in between each carry the monthly figure, floored to the
cent. The last month carries the residual that makes the amounts add up to
the depreciable base (original value minus salvage value).

The model has five modules:

- `Wrappers`: `Option` and `Result`, used for the source's exceptions.
- `Calendar`: dates in the year range 1..9999 of Python's `datetime.date`,
  the Gregorian leap rule and month lengths of `calendar.monthrange`, and
  one-day steps forward and back (`timedelta(days=1)`).
- `Months`: (year, month) arithmetic. `CalculateYearMonth` is
  `calculate_year_month` exactly as written, with truncating division for the
  year and flooring `%` for the month. `AdvanceMonths` is the floor-division
  version, which `CalculateEndDate` uses; the middle-month loop calls
  `CalculateYearMonth` as the source does. Both agree on every
  non-negative offset, and every caller in the source passes a non-negative
  offset (`CalculateYearMonthAgrees`).
- `EndDate`: `calculate_end_date`. It returns `Result<Date, EndDateError>`.
  The error is `InvalidLife` for a life below one. It is `YearOutOfRange`
  when `date(...)` would reject a year past 9999.
- `Depreciation`: `calculate_depreciation`. Money is integer cents, so
  Dafny's `/` by a positive divisor is `ROUND_FLOOR` at the cent. The rows
  come back as a sequence instead of going to a writer callback. The
  middle-month loop is the method `EmitMiddleMonths`, which carries the
  running sum, and `EmitRemainingMonths` adds the balancing last row.

The source loop does not terminate when the purchase falls on the 1st of a
month, the life is one month, and the end date exists (the month after the
purchase month is not past 9999). In that case the end date lies in the
purchase month itself. For example, 2022-01-01 with life 1 ends on
2022-01-31. The loop starts at offset 1 and only moves forward, so it never
reaches that month. `DayOneLifeOneNeverExits` proves that the loop's exit test is false for
every offset it tries. `CalculateDepreciation` therefore requires
`day > 1 || life >= 2`, or an advanced month past 9999: in that case the
source raises before it reaches the loop, as for a purchase on 9999-12-01
with life 1 (`ScheduleYearOverflow`).

## Model

| member | source | states |
|---|---|---|
| Calendar.DaysInMonth | depreciation_calculator.py:98 | a month has 28 to 31 days, at least 30 outside February, and February has 29 exactly in Gregorian leap years |
| Calendar.YearLength | depreciation_calculator.py:143 | the twelve month lengths add up to 366 in a leap year and 365 otherwise |
| Calendar.NextDay | depreciation_calculator.py:145 | the day after a valid date other than 9999-12-31 is valid, stays in the same year or is 1 January of the next, and is the 1st of a month exactly when the date is the last day of its month |
| Calendar.PrevDay | depreciation_calculator.py:145 | stepping back one day from a valid date other than 0001-01-01 gives a valid date whose next day is the original date |
| Calendar.PrevAfterNext | depreciation_calculator.py:145 | for a valid date other than 9999-12-31, stepping forward one day and back again returns the date, so the two steps are inverse in both orders |
| Calendar.NextDayInjective | depreciation_calculator.py:145 | two valid dates with the same next day are equal, so the day before a date is unique |
| Months.TruncDiv12 | depreciation_calculator.py:152 | `int(a / 12)` rounds toward zero: the floor of a / 12 for non-negative `a` and the ceiling for negative `a` |
| Months.CalculateYearMonth | depreciation_calculator.py:149-156 | the month is always in 1..12; for offsets of zero or more the result is exactly `monthsPassed` calendar months after the date's month |
| Months.AdvanceMonths | depreciation_calculator.py:149-156 | with floor division the result is a valid month exactly `n` months after the input for every sign of `n` |
| Months.CalculateYearMonthAgrees | depreciation_calculator.py:149-156 | on non-negative offsets the as-written helper and the floor-division version give the same (year, month) |
| Months.CalculateYearMonthIgnoresDay | depreciation_calculator.py:149-156 | two dates in the same month give the same result for every offset |
| Months.CalculateYearMonthWholeYears | depreciation_calculator.py:149-156 | offset 0 returns the date's own month and offset 12k adds exactly k to the year |
| Months.AdvanceMonthsRoundTrip | depreciation_calculator.py:149-156 | advancing by `n` and then by `-n` returns the starting month |
| Months.AdvanceMonthsCompose | depreciation_calculator.py:149-156 | advancing by `m` and then by `n` is advancing by `m + n` |
| Months.NegativeOffsetYearTooLate | depreciation_calculator.py:151-153 | when the month sum is negative and not a multiple of 12, the as-written result lands exactly twelve months late |
| Months.NegativeOffsetWitness | depreciation_calculator.py:151-153 | as written, January 2023 minus one month gives (2023, 12), so forward one month from December 2022 and back does not return; the corrected helper gives (2022, 12) |
| Months.CalculateYearMonthExamples | depreciation_calculator_test.py:26-44 | all seventeen rows of the month-offset test table, from offset 0 up to 1200 months from 3022-12 |
| EndDate.ClampDay | depreciation_calculator.py:143-144 | the clamped day is a valid day of the target month, no later than the purchase day, and it is either the purchase day or the month's last day |
| EndDate.CalculateEndDate | depreciation_calculator.py:138-146 | a life below 1 fails with `InvalidLife`; otherwise it fails exactly when the target year passes 9999; on success the result is valid and its next day is the clamped anniversary; its month is the advanced month for a purchase after the 1st and the month before for a purchase on the 1st, in which case it is that month's last day |
| EndDate.EndDateClampExamples | depreciation_calculator.py:142-145 | a purchase on the 31st whose target month is shorter ends the day before that month's last day |
| EndDate.EndDateTestCases | depreciation_calculator_test.py:56-59 | the end-date test cases, including 2022-01-01 with life 1 ending 2022-01-31 |
| EndDate.EndDateScheduleCases | depreciation_calculator_test.py:60-62 | the end dates of the three schedule test assets |
| EndDate.EndDateErrorExamples | depreciation_calculator_test.py:72-75 | life 0 fails with `InvalidLife`; a target year of 10000 fails with `YearOutOfRange`, even for 9998-12-01 with life 13, whose end date would be 9999-12-31 |
| Depreciation.MonthlyLoss | depreciation_calculator.py:91-94 | `monthly * life <= total < (monthly + 1) * life`, the floor of the average at the cent |
| Depreciation.MonthlyLossUnique | depreciation_calculator.py:93-94 | any cent amount within those floor bounds is the monthly figure |
| Depreciation.FirstMonthLoss | depreciation_calculator.py:98-102 | the first amount is the floor of `included / days * monthly` at the cent; it lies between 0 and `monthly` (between `monthly` and 0 when `monthly` is negative), and it equals `monthly` for a purchase on the 1st |
| Depreciation.FirstMonthLossUnique | depreciation_calculator.py:99-102 | any cent amount within the proration's floor bounds is the first-month figure |
| Depreciation.ScheduleFA001 | depreciation_calculator_test.py:80-93 | the complete schedule of FA001 from `CalculateDepreciation`: nine rows, 2020-03 to 2020-11, 4056.41, then seven times 4836.50, then 780.09 |
| Depreciation.ScheduleFA002 | depreciation_calculator_test.py:96-110 | the complete schedule of FA002: ten rows, 2021-06 to 2022-03 across the year end, 2458.43, then eight times 3073.04, then 614.68 |
| Depreciation.ScheduleFA004 | depreciation_calculator_test.py:119-126 | the complete schedule of FA004: 2020-05 6537.92, 2020-06 10133.78, 2020-07 3595.87 |
| Depreciation.ScheduleFA00X | depreciation_calculator_test.py:139-145 | the complete schedule of FA00X: 2020-05 13075.85 and 2020-06 7191.72, the residual rather than a June proration |
| Depreciation.ScheduleYearOverflow | depreciation_calculator.py:96-110 | a purchase on 9999-12-01 with life 1, original 1.00 and salvage 0 emits its first row, the full 1.00 because the purchase is on the 1st, and then fails with `YearOutOfRange(10000)` from `date(10000, 1, 1)` at line 145 |
| Depreciation.TotalAmountAll | depreciation_calculator.py:124-126 | rows that all carry the monthly figure add up to that figure times their number, the running `sum_middle` |
| Depreciation.EmitMiddleMonths | depreciation_calculator.py:112-126 | one row per month strictly between the purchase month and the end month, in consecutive order; each carries the monthly figure, and the running sum is their total |
| Depreciation.EmitRemainingMonths | depreciation_calculator.py:112-135 | the rows after the first cover consecutive months up to and including the end month; all but the last carry the monthly figure; the last carries the base minus the first amount minus the middle months, so the first amount plus these rows add up to the base |
| Depreciation.CalculateDepreciation | depreciation_calculator.py:90-135 | it fails exactly when the year of the purchase month advanced by the life passes 9999, the year `date(...)` is asked to build, with `YearOutOfRange` of that year, after emitting only the first row. Otherwise the rows cover consecutive months from the purchase month to the end-date month, once each. That is `life + 1` rows after a purchase on the 2nd or later and `life` rows after a purchase on the 1st. The first row is the prorated amount, middle rows carry the monthly figure, the last row is the base minus the first row and the full middle months, the amounts sum exactly to `original - salvage`, and no row is negative when that base is non-negative |
| Depreciation.ConsecutiveMonthsIncreasing | depreciation_calculator.py:113-132 | in rows covering consecutive months, a later row's month comes strictly later, so no month is emitted twice |
| Depreciation.ResidualNonNegative | depreciation_calculator.py:129 | with a non-negative base, the first month plus the full middle months never exceed the base, so the balancing amount is non-negative |
| Depreciation.DayOneLifeOneNeverExits | depreciation_calculator.py:113-118 | for a purchase on the 1st with life 1, the end date lies in the purchase month and no loop offset of 1 or more reaches it, so the loop never exits |

## Left out

- Command-line parsing, CSV reading and writing (`parse_args`, `main`, `DictReader`, `DictWriter`) and the SQLite lookup script `lookup.py`: plumbing with no algorithmic content. Rows are returned as a sequence instead of being passed to a writer. The callers also disagree about that writer: `main` passes a `DictWriter` and the test passes its bound `writerow`.
- Input parsing (`AssetItem.__init__`, `date.fromisoformat`, `int(...)`, `Decimal(...)`): the model takes already-parsed dates, integers and cent amounts. Input values with more than two decimal places, which `Decimal` would accept, are not modelled.
- The `YYYY-MM` month string and the decimal rendering of amounts: rows carry a `YearMonth` and an integer cent amount.
- Depreciation.FirstMonthLoss: the source computes the ratio `included / days` as a binary float and converts it with `Decimal(float)`; the model uses the exact rational. For a positive monthly figure below about 2.9·10^14 cents (2^53 / 31, beyond which the float's relative error can move the floor on its own), the source gives one cent less than the model exactly when `included * monthly` is a multiple of `days` and the float for `included / days` is below the true fraction, as it is for 10/30, 20/30, 18/30, 5/30 and 1/31, among others (for a negative monthly figure, when the float is above the fraction; a zero figure gives 0 in both). Example: a purchase on 2022-06-21 (10 of 30 days included) with life 1, original value 3.00 and salvage 0: the float 0.33333333333333331… times 3.00 is 0.99999999999999994…, which `ROUND_FLOOR` makes a first row of 0.99 and a last row of 2.01, where the model has `FirstMonthLoss(300, 21, 30) == 100` and rows of 1.00 and 2.00. For a purchase on such a 10-of-30 day, every positive monthly figure that is a multiple of 3 cents is affected; a negative one such as -0.03 is not, since the float lies below 1/3 and `ROUND_FLOOR` of -0.0099999999999999994… gives -0.01, as `FirstMonthLoss(-3, 21, 30) == -1` does. The balancing last row keeps the total exact either way.
- Depreciation.MonthlyLoss: the source divides under the default 28-significant-digit `Decimal` context. The model divides exactly, which agrees for realistic magnitudes.
- Months.CalculateYearMonth: `int(months_sum / 12)` goes through a float division. The model uses exact truncation, which agrees while the month sum stays below 2^48 in magnitude.
- Depreciation.CalculateDepreciation: requires `expectedLife >= 1`. With life 0 the source raises a `Decimal` division error before emitting anything. With a negative life it emits the first row, then `calculate_end_date` raises. Only the end-date function models the invalid-life error.
- Depreciation.CalculateDepreciation: requires a purchase day after the 1st, a life of at least two months, or a purchase month advanced by the life that lies past 9999. In the remaining case (a purchase on the 1st, life 1, end date in range) the source never terminates (see `DayOneLifeOneNeverExits`).

## Findings

| source | as written | input that shows it | evidently intended | confidence | as-written member | corrected member |
|---|---|---|---|---|---|---|
| depreciation_calculator.py:152-153 | the year is `from_date.year + int(months_sum / 12)` (truncation toward zero) while the month is `months_sum % 12` (floor) | 2023-01-15 with `months_passed = -1` gives (2023, 12) | (2022, 12): floor division, so the year carries correctly for negative offsets; `AdvanceMonthsRoundTrip` proves that a round trip returns the start | high; not executed; every caller in the source passes a non-negative offset, where both versions agree | Months.NegativeOffsetWitness | Months.AdvanceMonths |
