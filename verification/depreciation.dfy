/**
 Straight-line depreciation schedule (`calculate_depreciation`). Money is
 counted in integer cents: a value `v` stands for `v / 100` currency units,
 and Dafny's `/` by a positive divisor is the floor that `ROUND_FLOOR`
 applies at the cent.
 */
module Depreciation {
  import opened Wrappers
  import opened Calendar
  import opened Months
  import opened EndDate

  /** One input record, already parsed. */
  datatype Asset = Asset(
    assetId: string,
    purchaseDate: Date,
    expectedLife: int,     // months
    originalValue: int,    // cents
    salvageValue: int      // cents
  )

  /** One emitted schedule row: the asset, a calendar month and an amount in cents. */
  datatype Row = Row(assetId: string, month: YearMonth, amount: int)

  /** The depreciable base. */
  function TotalLoss(asset: Asset): int {
    asset.originalValue - asset.salvageValue
  }

  /** Sum of the amounts of a sequence of rows. */
  function TotalAmount(rows: seq<Row>): int {
    if rows == [] then 0 else TotalAmount(rows[..|rows| - 1]) + rows[|rows| - 1].amount
  }

  lemma TotalAmountAppend(rows: seq<Row>, row: Row)
    ensures TotalAmount(rows + [row]) == TotalAmount(rows) + row.amount
  {
    assert (rows + [row])[..|rows|] == rows;
  }

  /**
   The monthly figure: total loss over life, floored to the cent. It is the
   largest cent amount whose `life`-fold does not exceed the total.
   */
  function MonthlyLoss(totalLoss: int, life: int): (monthly: int)
    requires life >= 1
    ensures monthly * life <= totalLoss < (monthly + 1) * life
  {
    totalLoss / life
  }

  /**
   The first month's share: the fraction `included / days` of the monthly
   figure, floored to the cent, where `included` counts the purchase day
   through the end of its month.
   */
  function FirstMonthLoss(monthly: int, day: int, days: int): (first: int)
    requires 1 <= day <= days
    ensures first * days <= (1 + days - day) * monthly < (first + 1) * days
    ensures monthly >= 0 ==> 0 <= first <= monthly
    ensures monthly < 0 ==> monthly <= first <= 0
    ensures day == 1 ==> first == monthly
  {
    var included := 1 + days - day;
    FloorBetween(included, days, monthly);
    (included * monthly) / days
  }

  /** Flooring a fraction `included / days <= 1` of `m` lands between 0 and `m`. */
  lemma FloorBetween(included: int, days: int, m: int)
    requires 1 <= included <= days
    ensures m >= 0 ==> 0 <= (included * m) / days <= m
    ensures m < 0 ==> m <= (included * m) / days <= 0
    ensures included == days ==> (included * m) / days == m
  {
    var x := included * m;
    if m >= 0 {
      assert days * m - x == (days - included) * m;
      DivBetween(x, days, 0, m);
    } else {
      assert x - days * m == (days - included) * (-m);
      assert x == -(included * (-m));
      DivBetween(x, days, m, 0);
    }
    if included == days {
      DivBetween(x, days, m, m);
    }
  }

  /** Floor division by a positive `d` keeps a value between `lo * d` and `hi * d` between `lo` and `hi`. */
  lemma DivBetween(x: int, d: int, lo: int, hi: int)
    requires d > 0
    requires lo * d <= x <= hi * d
    ensures lo <= x / d <= hi
  {
    var q := x / d;
    assert q * d <= x < q * d + d by {
      assert x == q * d + x % d;
    }
    assert (hi + 1) * d == hi * d + d;
    assert (q + 1) * d == q * d + d;
    MulMonotone(hi + 1, q, d);
    MulMonotone(q + 1, lo, d);
  }

  /** Multiplying by a positive factor preserves order. */
  lemma MulMonotone(a: int, b: int, d: int)
    requires d > 0
    ensures a <= b ==> a * d <= b * d
  {
    if a <= b {
      assert b * d - a * d == (b - a) * d;
      MulStep(b - a, d);
    }
  }

  lemma MulStep(a: int, d: int)
    requires a >= 0 && d > 0
    ensures a * d >= 0
  {
  }

  /** At most one integer `q` has `q * d <= x < (q + 1) * d`, and floor division finds it. */
  lemma FloorUnique(x: int, d: int, q: int)
    requires d > 0
    requires q * d <= x < (q + 1) * d
    ensures q == x / d
  {
    var f := x / d;
    assert f * d <= x < (f + 1) * d by {
      assert x == f * d + x % d;
    }
    MulMonotone(q + 1, f, d);
    MulMonotone(f + 1, q, d);
  }

  /** Any cent amount meeting the floor bounds is the monthly figure. */
  lemma MonthlyLossUnique(totalLoss: int, life: int, monthly: int)
    requires life >= 1
    requires monthly * life <= totalLoss < (monthly + 1) * life
    ensures monthly == MonthlyLoss(totalLoss, life)
  {
    FloorUnique(totalLoss, life, monthly);
  }

  /** Any cent amount meeting the floor bounds of the proration is the first-month figure. */
  lemma FirstMonthLossUnique(monthly: int, day: int, days: int, first: int)
    requires 1 <= day <= days
    requires first * days <= (1 + days - day) * monthly < (first + 1) * days
    ensures first == FirstMonthLoss(monthly, day, days)
  {
    FloorUnique((1 + days - day) * monthly, days, first);
  }

  /** The month index of the purchase month. */
  function StartIndex(asset: Asset): int {
    MonthIndex(MonthOf(asset.purchaseDate))
  }

  /** How many rows a complete schedule has: one per month from purchase month to end month. */
  function RowCount(asset: Asset): int {
    if asset.purchaseDate.day > 1 then asset.expectedLife + 1 else asset.expectedLife
  }

  /** Sum over a concatenation is the sum of the sums. */
  lemma {:induction false} TotalAmountConcat(a: seq<Row>, b: seq<Row>)
    ensures TotalAmount(a + b) == TotalAmount(a) + TotalAmount(b)
    decreases |b|
  {
    if b == [] {
      assert a + b == a;
    } else {
      var init := b[..|b| - 1];
      assert (a + b)[..|a + b| - 1] == a + init;
      TotalAmountConcat(a, init);
    }
  }

  /** The rows belong to `assetId` and cover consecutive calendar months, the first with index `start`. */
  predicate ConsecutiveMonths(rows: seq<Row>, assetId: string, start: int) {
    forall j :: 0 <= j < |rows| ==>
      && rows[j].assetId == assetId
      && ValidMonth(rows[j].month)
      && MonthIndex(rows[j].month) == start + j
  }

  /** Consecutive months are strictly increasing, so no calendar month appears twice. */
  lemma ConsecutiveMonthsIncreasing(rows: seq<Row>, assetId: string, start: int, i: int, j: int)
    requires ConsecutiveMonths(rows, assetId, start)
    requires 0 <= i < j < |rows|
    ensures MonthIndex(rows[i].month) < MonthIndex(rows[j].month)
    ensures rows[i].month != rows[j].month
  {
  }

  /** Every row carries the same amount. */
  predicate AllAmounts(rows: seq<Row>, amount: int) {
    forall j :: 0 <= j < |rows| ==> rows[j].amount == amount
  }

  /** Rows that all carry the same amount add up to that amount times their number. */
  lemma {:induction false} TotalAmountAll(rows: seq<Row>, amount: int)
    requires AllAmounts(rows, amount)
    ensures TotalAmount(rows) == |rows| * amount
    decreases |rows|
  {
    if rows != [] {
      var init := rows[..|rows| - 1];
      assert AllAmounts(init, amount) by {
        forall j | 0 <= j < |init|
          ensures init[j].amount == amount
        {
          assert init[j] == rows[j];
        }
      }
      TotalAmountAll(init, amount);
      assert |rows| * amount == |init| * amount + amount;
    }
  }

  predicate NonNegativeAmounts(rows: seq<Row>) {
    forall j :: 0 <= j < |rows| ==> rows[j].amount >= 0
  }

  /** Appending the row for the next month keeps the rows consecutive. */
  lemma ConsecutiveAppend(rows: seq<Row>, row: Row, assetId: string, start: int)
    requires ConsecutiveMonths(rows, assetId, start)
    requires row.assetId == assetId && ValidMonth(row.month) && MonthIndex(row.month) == start + |rows|
    ensures ConsecutiveMonths(rows + [row], assetId, start)
  {
  }

  /** Appending a row with the common amount keeps every amount equal. */
  lemma AllAmountsAppend(rows: seq<Row>, row: Row)
    requires AllAmounts(rows, row.amount)
    ensures AllAmounts(rows + [row], row.amount)
  {
  }

  /** Putting the first month's row in front of rows that start one month later keeps the months consecutive. */
  lemma PrependConsecutive(firstRow: Row, rest: seq<Row>, assetId: string, start: int)
    requires firstRow.assetId == assetId && ValidMonth(firstRow.month) && MonthIndex(firstRow.month) == start
    requires ConsecutiveMonths(rest, assetId, start + 1)
    ensures ConsecutiveMonths([firstRow] + rest, assetId, start)
  {
    var rows := [firstRow] + rest;
    forall j | 1 <= j < |rows|
      ensures rows[j] == rest[j - 1]
    {
    }
  }

  /**
   Behind the first row, the rows strictly between first and last are the
   remaining rows but the last; the amounts add up, and they are all
   non-negative when the first, the repeated middle and the last amount are.
   */
  lemma PrependAmounts(firstRow: Row, rest: seq<Row>, monthly: int)
    requires |rest| >= 1
    requires AllAmounts(rest[..|rest| - 1], monthly)
    ensures AllAmounts(([firstRow] + rest)[1..|rest|], monthly)
    ensures TotalAmount([firstRow] + rest) == firstRow.amount + TotalAmount(rest)
    ensures firstRow.amount >= 0 && monthly >= 0 && rest[|rest| - 1].amount >= 0 ==>
      NonNegativeAmounts([firstRow] + rest)
  {
    var rows := [firstRow] + rest;
    assert AllAmounts(rows[1..|rest|], monthly) by {
      assert rows[1..|rest|] == rest[..|rest| - 1];
    }
    if firstRow.amount >= 0 && monthly >= 0 && rest[|rest| - 1].amount >= 0 {
      forall j | 0 <= j < |rows|
        ensures rows[j].amount >= 0
      {
        if j > 0 {
          assert rows[j] == rest[j - 1];
          if j < |rest| {
            assert rest[j - 1] == rest[..|rest| - 1][j - 1];
          }
        }
      }
    }
    assert TotalAmount(rows) == firstRow.amount + TotalAmount(rest) by {
      TotalAmountConcat([firstRow], rest);
      assert [firstRow][..0] == [];
    }
  }

  /**
   The middle-month loop: starting one month after the purchase month,
   emit a full monthly row for every month until the end month is reached,
   keeping the running sum. The end month must lie after the purchase
   month, or the loop would never reach it. The offsets are positive, so
   the contract of `CalculateYearMonth` places each one exactly `i` months
   after the purchase month.
   */
  method EmitMiddleMonths(assetId: string, purchase: Date, endMonth: YearMonth, monthlyLoss: int)
    returns (middle: seq<Row>, sumMiddle: int)
    requires 1 <= purchase.month <= 12
    requires ValidMonth(endMonth)
    requires MonthIndex(endMonth) > MonthIndex(MonthOf(purchase))
    ensures |middle| == MonthIndex(endMonth) - MonthIndex(MonthOf(purchase)) - 1
    ensures ConsecutiveMonths(middle, assetId, MonthIndex(MonthOf(purchase)) + 1)
    ensures AllAmounts(middle, monthlyLoss)
    ensures sumMiddle == TotalAmount(middle)
    ensures sumMiddle == |middle| * monthlyLoss
  {
    ghost var last := MonthIndex(endMonth) - MonthIndex(MonthOf(purchase));
    middle := [];
    sumMiddle := 0;
    var i := 1;
    while true
      invariant 1 <= i <= last
      invariant |middle| == i - 1
      invariant sumMiddle == TotalAmount(middle)
      invariant ConsecutiveMonths(middle, assetId, MonthIndex(MonthOf(purchase)) + 1)
      invariant AllAmounts(middle, monthlyLoss)
      decreases last - i
    {
      var ym := CalculateYearMonth(purchase, i);
      assert ValidMonth(ym) && MonthIndex(ym) == MonthIndex(MonthOf(purchase)) + i;
      if i == last {
        MonthIndexInjective(ym, endMonth);
      }
      if ym.year == endMonth.year && ym.month == endMonth.month {
        break;
      }
      var row := Row(assetId, ym, monthlyLoss);
      TotalAmountAppend(middle, row);
      ConsecutiveAppend(middle, row, assetId, MonthIndex(MonthOf(purchase)) + 1);
      AllAmountsAppend(middle, row);
      middle := middle + [row];
      i := i + 1;
      sumMiddle := sumMiddle + monthlyLoss;
    }
    TotalAmountAll(middle, monthlyLoss);
  }

  /**
   Everything after the first row: the middle months, then the balancing
   last month, whose amount is the base minus the first month minus the
   running sum of the middle months.
   */
  method EmitRemainingMonths(assetId: string, purchase: Date, endMonth: YearMonth,
                             totalLoss: int, monthlyLoss: int, fmLoss: int)
    returns (rest: seq<Row>)
    requires 1 <= purchase.month <= 12
    requires ValidMonth(endMonth)
    requires MonthIndex(endMonth) > MonthIndex(MonthOf(purchase))
    ensures |rest| == MonthIndex(endMonth) - MonthIndex(MonthOf(purchase))
    ensures ConsecutiveMonths(rest, assetId, MonthIndex(MonthOf(purchase)) + 1)
    ensures rest[|rest| - 1].month == endMonth
    ensures AllAmounts(rest[..|rest| - 1], monthlyLoss)
    ensures rest[|rest| - 1].amount == totalLoss - fmLoss - (|rest| - 1) * monthlyLoss
    ensures fmLoss + TotalAmount(rest) == totalLoss
  {
    var middle, sumMiddle := EmitMiddleMonths(assetId, purchase, endMonth, monthlyLoss);
    var lastRow := Row(assetId, endMonth, totalLoss - fmLoss - sumMiddle);
    ConsecutiveAppend(middle, lastRow, assetId, MonthIndex(MonthOf(purchase)) + 1);
    TotalAmountAppend(middle, lastRow);
    rest := middle + [lastRow];
    assert rest[..|rest| - 1] == middle;
  }

  /**
   `calculate_depreciation`. Emits the prorated first month, then every
   full month up to the end-date month, then the balancing last month.
   When the purchase month advanced by the life lies past 9999, the
   end-date computation raises after the first row has already been
   emitted; that row and the error are returned. `failure` is `None` when
   the schedule is complete and `Some` of the end-date error otherwise.

   Requires a purchase after the 1st, a life of at least two months, or an
   advanced month past 9999: for a purchase on the 1st with a life of one
   month whose end date exists, the end date lies in the purchase month
   itself and the source loop never exits (see `DayOneLifeOneNeverExits`).
   */
  method CalculateDepreciation(asset: Asset) returns (rows: seq<Row>, failure: Option<EndDateError>)
    requires ValidDate(asset.purchaseDate)
    requires asset.expectedLife >= 1
    requires (asset.purchaseDate.day > 1 || asset.expectedLife >= 2 ||
              AdvanceMonths(MonthOf(asset.purchaseDate), asset.expectedLife).year > MaxYear)
    ensures failure.Some? <==> AdvanceMonths(MonthOf(asset.purchaseDate), asset.expectedLife).year > MaxYear
    ensures failure.Some? ==>
      failure == Some(YearOutOfRange(AdvanceMonths(MonthOf(asset.purchaseDate), asset.expectedLife).year))
    ensures |rows| >= 1
    ensures rows[0] == Row(asset.assetId, MonthOf(asset.purchaseDate),
                           FirstMonthLoss(MonthlyLoss(TotalLoss(asset), asset.expectedLife),
                                          asset.purchaseDate.day,
                                          DaysInMonth(asset.purchaseDate.year, asset.purchaseDate.month)))
    ensures failure.Some? ==> |rows| == 1
    // coverage: consecutive calendar months from the purchase month to the end-date month, one row each
    ensures failure.None? ==> |rows| == RowCount(asset)
    ensures failure.None? ==> ConsecutiveMonths(rows, asset.assetId, StartIndex(asset))
    ensures failure.None? ==>
      CalculateEndDate(asset.purchaseDate, asset.expectedLife).Success? &&
      rows[|rows| - 1].month == MonthOf(CalculateEndDate(asset.purchaseDate, asset.expectedLife).value)
    // every middle month carries the full monthly figure
    ensures failure.None? ==> AllAmounts(rows[1..|rows| - 1], MonthlyLoss(TotalLoss(asset), asset.expectedLife))
    // the last month carries the base minus the first month and the full middle months
    ensures failure.None? ==>
      rows[|rows| - 1].amount == TotalLoss(asset) - rows[0].amount
        - (|rows| - 2) * MonthlyLoss(TotalLoss(asset), asset.expectedLife)
    // conservation: the amounts add up to the depreciable base exactly
    ensures failure.None? ==> TotalAmount(rows) == TotalLoss(asset)
    // no negative row when the base is non-negative
    ensures failure.None? && TotalLoss(asset) >= 0 ==> NonNegativeAmounts(rows)
  {
    var totalLoss := TotalLoss(asset);
    var monthlyLoss := MonthlyLoss(totalLoss, asset.expectedLife);
    var purchase := asset.purchaseDate;

    var fmDays := DaysInMonth(purchase.year, purchase.month);
    var fmLoss := FirstMonthLoss(monthlyLoss, purchase.day, fmDays);
    var firstRow := Row(asset.assetId, MonthOf(purchase), fmLoss);

    var endResult := CalculateEndDate(purchase, asset.expectedLife);
    if endResult.Failure? {
      return [firstRow], Some(endResult.error);
    }
    var endDate := endResult.value;

    var rest := EmitRemainingMonths(asset.assetId, purchase, MonthOf(endDate), totalLoss, monthlyLoss, fmLoss);
    if totalLoss >= 0 {
      ResidualNonNegative(totalLoss, asset.expectedLife, purchase.day, fmDays, |rest| - 1);
    }
    PrependConsecutive(firstRow, rest, asset.assetId, StartIndex(asset));
    PrependAmounts(firstRow, rest, monthlyLoss);
    rows := [firstRow] + rest;
    failure := None;
  }

  /**
   With a non-negative base the balancing amount cannot go negative: the
   first month and the full middle months together never exceed the base.
   */
  lemma ResidualNonNegative(totalLoss: int, life: int, day: int, days: int, middle: int)
    requires totalLoss >= 0 && life >= 1
    requires 1 <= day <= days
    requires middle == if day > 1 then life - 1 else life - 2
    requires middle >= 0
    ensures MonthlyLoss(totalLoss, life) >= 0
    ensures totalLoss - FirstMonthLoss(MonthlyLoss(totalLoss, life), day, days)
              - middle * MonthlyLoss(totalLoss, life) >= 0
  {
    var monthly := MonthlyLoss(totalLoss, life);
    MulMonotone(monthly + 1, 0, life);
    assert monthly >= 0;
    assert (middle + 1) * monthly == middle * monthly + monthly;
    if day > 1 {
      assert (middle + 1) * monthly == monthly * life;
    } else {
      assert (middle + 2) * monthly == monthly * life;
      MulStep(monthly, 1);
    }
  }

  /**
   For a purchase on the 1st with a life of one month, no offset the loop
   tries (1, 2, 3, ...) reaches the end-date month, so the exit test never
   fires and `calculate_depreciation` does not terminate.
   */
  lemma DayOneLifeOneNeverExits(purchase: Date, i: int)
    requires ValidDate(purchase) && purchase.day == 1
    requires CalculateEndDate(purchase, 1).Success?
    requires i >= 1
    ensures CalculateEndDate(purchase, 1).value.year == purchase.year
    ensures CalculateEndDate(purchase, 1).value.month == purchase.month
    ensures CalculateYearMonth(purchase, i) != MonthOf(CalculateEndDate(purchase, 1).value)
  {
    var endDate := CalculateEndDate(purchase, 1).value;
    MonthIndexInjective(MonthOf(endDate), MonthOf(purchase));
  }

  /**
   The schedule of asset FA001 in the repository's tests: purchased
   2020-03-06, life 8, 42651.76 - 3959.76.
   */
  method ScheduleFA001() returns (rows: seq<Row>, failure: Option<EndDateError>)
    ensures failure.None?
    ensures rows == [Row("FA001", YearMonth(2020, 3), 405641),
                     Row("FA001", YearMonth(2020, 4), 483650),
                     Row("FA001", YearMonth(2020, 5), 483650),
                     Row("FA001", YearMonth(2020, 6), 483650),
                     Row("FA001", YearMonth(2020, 7), 483650),
                     Row("FA001", YearMonth(2020, 8), 483650),
                     Row("FA001", YearMonth(2020, 9), 483650),
                     Row("FA001", YearMonth(2020, 10), 483650),
                     Row("FA001", YearMonth(2020, 11), 78009)]
  {
    var asset := Asset("FA001", Date(2020, 3, 6), 8, 4265176, 395976);
    assert AdvanceMonths(YearMonth(2020, 3), 8) == YearMonth(2020, 11);
    assert MonthlyLoss(TotalLoss(asset), 8) == 483650;
    assert FirstMonthLoss(483650, 6, DaysInMonth(2020, 3)) == 405641;
    rows, failure := CalculateDepreciation(asset);
    assert failure.None?;
    assert |rows| == 9;
    forall k | 1 <= k < 8
      ensures rows[k] == rows[1..8][k - 1]
    {
    }
  }

  /**
   The schedule of asset FA002 in the repository's tests: purchased
   2021-06-07, life 9, 29927.35 - 2269.92; it runs into the next year.
   */
  method ScheduleFA002() returns (rows: seq<Row>, failure: Option<EndDateError>)
    ensures failure.None?
    ensures rows == [Row("FA002", YearMonth(2021, 6), 245843),
                     Row("FA002", YearMonth(2021, 7), 307304),
                     Row("FA002", YearMonth(2021, 8), 307304),
                     Row("FA002", YearMonth(2021, 9), 307304),
                     Row("FA002", YearMonth(2021, 10), 307304),
                     Row("FA002", YearMonth(2021, 11), 307304),
                     Row("FA002", YearMonth(2021, 12), 307304),
                     Row("FA002", YearMonth(2022, 1), 307304),
                     Row("FA002", YearMonth(2022, 2), 307304),
                     Row("FA002", YearMonth(2022, 3), 61468)]
  {
    var asset := Asset("FA002", Date(2021, 6, 7), 9, 2992735, 226992);
    assert AdvanceMonths(YearMonth(2021, 6), 9) == YearMonth(2022, 3);
    assert MonthlyLoss(TotalLoss(asset), 9) == 307304;
    assert FirstMonthLoss(307304, 7, DaysInMonth(2021, 6)) == 245843;
    rows, failure := CalculateDepreciation(asset);
    assert failure.None?;
    assert |rows| == 10;
    forall k | 1 <= k < 9
      ensures rows[k] == rows[1..9][k - 1]
    {
    }
  }

  /**
   The schedule of asset FA004 in the repository's tests: purchased
   2020-05-12, life 2, 22892.05 - 2624.48.
   */
  method ScheduleFA004() returns (rows: seq<Row>, failure: Option<EndDateError>)
    ensures failure.None?
    ensures rows == [Row("FA004", YearMonth(2020, 5), 653792),
                     Row("FA004", YearMonth(2020, 6), 1013378),
                     Row("FA004", YearMonth(2020, 7), 359587)]
  {
    var asset := Asset("FA004", Date(2020, 5, 12), 2, 2289205, 262448);
    assert AdvanceMonths(YearMonth(2020, 5), 2) == YearMonth(2020, 7);
    assert MonthlyLoss(TotalLoss(asset), 2) == 1013378;
    assert FirstMonthLoss(1013378, 12, DaysInMonth(2020, 5)) == 653792;
    rows, failure := CalculateDepreciation(asset);
    assert failure.None?;
    assert |rows| == 3;
    forall k | 1 <= k < 2
      ensures rows[k] == rows[1..2][k - 1]
    {
    }
  }

  /**
   The schedule of asset FA00X in the repository's tests: the same asset
   with a life of one month, so there is no middle month and the last
   month is not prorated by its own days.
   */
  method ScheduleFA00X() returns (rows: seq<Row>, failure: Option<EndDateError>)
    ensures failure.None?
    ensures rows == [Row("FA00X", YearMonth(2020, 5), 1307585),
                     Row("FA00X", YearMonth(2020, 6), 719172)]
  {
    var asset := Asset("FA00X", Date(2020, 5, 12), 1, 2289205, 262448);
    assert AdvanceMonths(YearMonth(2020, 5), 1) == YearMonth(2020, 6);
    assert MonthlyLoss(TotalLoss(asset), 1) == 2026757;
    assert FirstMonthLoss(2026757, 12, DaysInMonth(2020, 5)) == 1307585;
    rows, failure := CalculateDepreciation(asset);
    assert failure.None?;
    assert |rows| == 2;
  }

  /**
   A purchase on 9999-12-01 with a life of one month: the first row is
   emitted, then `date(10000, 1, 1)` raises before the middle-month loop
   is reached.
   */
  method ScheduleYearOverflow() returns (rows: seq<Row>, failure: Option<EndDateError>)
    ensures failure == Some(YearOutOfRange(10000))
    ensures rows == [Row("X", YearMonth(9999, 12), 100)]
  {
    var asset := Asset("X", Date(9999, 12, 1), 1, 100, 0);
    assert AdvanceMonths(YearMonth(9999, 12), 1) == YearMonth(10000, 1);
    assert MonthlyLoss(TotalLoss(asset), 1) == 100;
    rows, failure := CalculateDepreciation(asset);
  }
}
