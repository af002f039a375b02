/**
 * The power-data summary endpoint: a fold over the already grouped
 * (date, breaker) rows into per-row kWh, totals, a per-day map and projections.
 */
module PowerData {
  import opened Wrappers

  const DefaultKwhRate: real := 0.12

  /** One row of the GROUP BY (date, breaker_id) query. */
  datatype GroupedRow = GroupedRow(date: string, breakerId: nat, avgVoltage: real, avgCurrent: real,
                                   avgPower: real, totalPower: real)

  /** A row as returned: the grouped row with its `kwh` column added. */
  datatype KwhRow = KwhRow(row: GroupedRow, kwh: real)

  /** An entry of `daily_averages`. */
  datatype DayTotals = DayTotals(kwh: real, cost: real, count: nat)

  /** `daily_averages` as PHP keeps it: an ordered map, keys in first-insertion order. */
  datatype Daily = Daily(order: seq<string>, totals: map<string, DayTotals>)

  datatype Summary = Summary(totalKwh: real, totalCost: real, avgDailyKwh: real, avgDailyCost: real,
                             projectedMonthlyKwh: real, projectedMonthlyCost: real,
                             projectedYearlyKwh: real, projectedYearlyCost: real, kwhRate: real)

  datatype Response =
    | PreflightOk                                                   // 200, OPTIONS
    | MethodNotAllowed                                              // 405
    | BadRequest(message: string)                                   // 400
    | Report(data: seq<KwhRow>, summary: Summary, daily: Daily)     // 200
    | ServerError(message: string)                                  // 500

  /** The rate: the user's `kwh_rate` when a settings row exists, else 0.12. */
  function RateOf(settings: Option<real>): (r: real)
    ensures settings.Some? ==> r == settings.value
    ensures settings.None? ==> r == DefaultKwhRate
  {
    settings.GetOr(DefaultKwhRate)
  }

  /** PHP truthiness of an optional query parameter: unset, `""` and `"0"` are false. */
  predicate Truthy(p: Option<string>) {
    p.Some? && p.value != "" && p.value != "0"
  }

  /** Treated as one-hour readings: watts summed over the hours are watt-hours. */
  function Kwh(row: GroupedRow): real {
    row.totalPower / 1000.0
  }

  /** The cost of one row: `kwh * kwh_rate`. */
  function Cost(row: GroupedRow, rate: real): real {
    Kwh(row) * rate
  }

  /** Σ kwh over the rows (a left fold, as the loop accumulates). */
  function SumKwh(rows: seq<GroupedRow>): real
    decreases |rows|
  {
    if rows == [] then 0.0 else SumKwh(rows[..|rows| - 1]) + Kwh(rows[|rows| - 1])
  }

  /** Σ kwh·rate over the rows. */
  function SumCost(rows: seq<GroupedRow>, rate: real): real
    decreases |rows|
  {
    if rows == [] then 0.0 else SumCost(rows[..|rows| - 1], rate) + Cost(rows[|rows| - 1], rate)
  }

  /** The rows with their `kwh` column. */
  function WithKwh(rows: seq<GroupedRow>): (r: seq<KwhRow>)
    ensures |r| == |rows|
    ensures forall k :: 0 <= k < |rows| ==> r[k] == KwhRow(rows[k], rows[k].totalPower / 1000.0)
  {
    seq(|rows|, k requires 0 <= k < |rows| => KwhRow(rows[k], Kwh(rows[k])))
  }

  /** One loop iteration on `daily_averages`: a new date starts at zeros, then kwh, cost and count grow. */
  function AddToDay(d: Daily, row: GroupedRow, rate: real): Daily {
    var t := if row.date in d.totals then d.totals[row.date] else DayTotals(0.0, 0.0, 0);
    var order := if row.date in d.totals then d.order else d.order + [row.date];
    Daily(order, d.totals[row.date := DayTotals(t.kwh + Kwh(row), t.cost + Cost(row, rate), t.count + 1)])
  }

  /** The per-day map the loop builds; the date of the row folded last always has an entry. */
  function DailyOf(rows: seq<GroupedRow>, rate: real): (d: Daily)
    ensures rows != [] ==> rows[|rows| - 1].date in d.totals
    decreases |rows|
  {
    if rows == [] then Daily([], map[]) else AddToDay(DailyOf(rows[..|rows| - 1], rate), rows[|rows| - 1], rate)
  }

  /** Number of rows dated `date`. */
  function CountDate(rows: seq<GroupedRow>, date: string): nat
    decreases |rows|
  {
    if rows == [] then 0
    else CountDate(rows[..|rows| - 1], date) + (if rows[|rows| - 1].date == date then 1 else 0)
  }

  /** Σ kwh over the rows dated `date`. */
  function SumKwhOn(rows: seq<GroupedRow>, date: string): real
    decreases |rows|
  {
    if rows == [] then 0.0
    else SumKwhOn(rows[..|rows| - 1], date) + (if rows[|rows| - 1].date == date then Kwh(rows[|rows| - 1]) else 0.0)
  }

  /** Σ of the per-day kwh in key order. */
  function SumDays(order: seq<string>, totals: map<string, DayTotals>): real
    requires forall d :: d in order ==> d in totals
    decreases |order|
  {
    if order == [] then 0.0
    else SumDays(order[..|order| - 1], totals) + totals[order[|order| - 1]].kwh
  }

  predicate NoDuplicates(s: seq<string>) {
    forall i, j :: 0 <= i < j < |s| ==> s[i] != s[j]
  }

  /** The key order lists each key of the map exactly once. */
  ghost predicate WellFormed(d: Daily) {
    NoDuplicates(d.order) && (forall x :: x in d.order <==> x in d.totals)
  }

  /** The summary figures from the totals and the number of distinct days. */
  function SummaryOf(totalKwh: real, totalCost: real, days: nat, rate: real): (s: Summary)
    requires days > 0
    ensures s.avgDailyKwh * days as real == totalKwh && s.avgDailyCost * days as real == totalCost
    ensures s.projectedMonthlyKwh == s.avgDailyKwh * 30.0 && s.projectedYearlyKwh == s.avgDailyKwh * 365.0
    ensures s.projectedMonthlyCost == s.projectedMonthlyKwh * rate && s.projectedYearlyCost == s.projectedYearlyKwh * rate
    ensures s.totalKwh == totalKwh && s.totalCost == totalCost && s.kwhRate == rate
  {
    var avgKwh := totalKwh / days as real;
    var avgCost := totalCost / days as real;
    Summary(totalKwh, totalCost, avgKwh, avgCost, avgKwh * 30.0, avgKwh * 30.0 * rate,
            avgKwh * 365.0, avgKwh * 365.0 * rate, rate)
  }

  /** The all-zero summary of the empty case. */
  function EmptySummary(rate: real): (s: Summary)
    ensures s.kwhRate == rate
    ensures s.totalKwh == 0.0 && s.totalCost == 0.0 && s.avgDailyKwh == 0.0 && s.avgDailyCost == 0.0
    ensures s.projectedMonthlyKwh == 0.0 && s.projectedMonthlyCost == 0.0
    ensures s.projectedYearlyKwh == 0.0 && s.projectedYearlyCost == 0.0
  {
    Summary(0.0, 0.0, 0.0, 0.0, 0.0, 0.0, 0.0, 0.0, rate)
  }

  /** The foreach over the rows: adds `kwh` to each row and accumulates totals and the day map. */
  method Accumulate(rows: seq<GroupedRow>, rate: real)
    returns (data: seq<KwhRow>, totalKwh: real, totalCost: real, daily: Daily)
    ensures data == WithKwh(rows)
    ensures totalKwh == SumKwh(rows) && totalCost == SumCost(rows, rate)
    ensures daily == DailyOf(rows, rate)
  {
    data := [];
    totalKwh, totalCost := 0.0, 0.0;
    daily := Daily([], map[]);
    var i := 0;
    while i < |rows|
      invariant 0 <= i <= |rows|
      invariant data == WithKwh(rows[..i])
      invariant totalKwh == SumKwh(rows[..i]) && totalCost == SumCost(rows[..i], rate)
      invariant daily == DailyOf(rows[..i], rate)
    {
      FoldStep(rows, i, rate);
      var row := rows[i];
      var kwh := Kwh(row);
      data := data + [KwhRow(row, kwh)];
      totalKwh := totalKwh + kwh;
      totalCost := totalCost + Cost(row, rate);
      daily := AddRow(daily, row, kwh, rate);
      i := i + 1;
    }
    assert rows[..i] == rows;
  }

  /** The body's update of `daily_averages` for one row whose kwh is `kwh`. */
  method AddRow(daily: Daily, row: GroupedRow, kwh: real, rate: real) returns (r: Daily)
    requires kwh == Kwh(row)
    ensures r == AddToDay(daily, row, rate)
  {
    var t := if row.date in daily.totals then daily.totals[row.date] else DayTotals(0.0, 0.0, 0);
    var order := daily.order;
    if row.date !in daily.totals {
      order := order + [row.date];
    }
    r := Daily(order, daily.totals[row.date := DayTotals(t.kwh + kwh, t.cost + Cost(row, rate), t.count + 1)]);
    ghost var e := AddToDay(daily, row, rate);
    assert r.totals[row.date] == e.totals[row.date];
  }

  /** Each fold grows by the row at `i` when the prefix grows by it. */
  lemma FoldStep(rows: seq<GroupedRow>, i: nat, rate: real)
    requires i < |rows|
    ensures WithKwh(rows[..i + 1]) == WithKwh(rows[..i]) + [KwhRow(rows[i], Kwh(rows[i]))]
    ensures SumKwh(rows[..i + 1]) == SumKwh(rows[..i]) + Kwh(rows[i])
    ensures SumCost(rows[..i + 1], rate) == SumCost(rows[..i], rate) + Cost(rows[i], rate)
    ensures DailyOf(rows[..i + 1], rate) == AddToDay(DailyOf(rows[..i], rate), rows[i], rate)
  {
    assert rows[..i + 1][..i] == rows[..i];
  }

  /**
   * The script for one request. `settings` is the user's settings row and
   * `rows` what the grouped query returns for the request's filters; `fault`
   * stands for a database exception, answered with 500.
   */
  method GetPowerData(isGet: bool, isOptions: bool, userId: Option<string>,
                      settings: Option<real>, rows: seq<GroupedRow>, fault: bool)
    returns (resp: Response)
    ensures isOptions ==> resp == PreflightOk
    ensures !isOptions && !isGet ==> resp == MethodNotAllowed
    ensures !isOptions && isGet && !Truthy(userId) ==> resp == BadRequest("User ID is required")
    ensures !isOptions && isGet && Truthy(userId) && fault ==> resp.ServerError?
    ensures !isOptions && isGet && Truthy(userId) && !fault && rows == [] ==>
              resp == Report([], EmptySummary(RateOf(settings)), Daily([], map[]))
    ensures !isOptions && isGet && Truthy(userId) && !fault && rows != [] ==>
              var rate := RateOf(settings);
              DailyOf(rows, rate).order != [] &&
              resp == Report(WithKwh(rows),
                             SummaryOf(SumKwh(rows), SumCost(rows, rate), |DailyOf(rows, rate).order|, rate),
                             DailyOf(rows, rate))
  {
    if isOptions {
      return PreflightOk;
    }
    if !isGet {
      return MethodNotAllowed;
    }
    if !Truthy(userId) {
      return BadRequest("User ID is required");
    }
    if fault {
      return ServerError("Failed to fetch power data");
    }
    var rate := if settings.Some? then settings.value else DefaultKwhRate;
    if rows == [] {
      return Report([], Summary(0.0, 0.0, 0.0, 0.0, 0.0, 0.0, 0.0, 0.0, rate), Daily([], map[]));
    }
    var data, totalKwh, totalCost, daily := Accumulate(rows, rate);
    DailyNonEmpty(rows, rate);
    var days := |daily.order|;
    var avgKwh := totalKwh / days as real;
    var avgCost := totalCost / days as real;
    var monthlyKwh := avgKwh * 30.0;
    var yearlyKwh := avgKwh * 365.0;
    resp := Report(data, Summary(totalKwh, totalCost, avgKwh, avgCost, monthlyKwh, monthlyKwh * rate,
                                 yearlyKwh, yearlyKwh * rate, rate), daily);
  }

  // ---------------------------------------------------------------------------
  // Properties of the fold
  // ---------------------------------------------------------------------------

  /** The day map always lists each of its keys once, in the order's positions. */
  lemma {:induction false} DailyWellFormed(rows: seq<GroupedRow>, rate: real)
    ensures WellFormed(DailyOf(rows, rate))
    decreases |rows|
  {
    if rows != [] {
      DailyWellFormed(rows[..|rows| - 1], rate);
    }
  }

  /** With at least one row there is at least one day, so the averages never divide by zero. */
  lemma DailyNonEmpty(rows: seq<GroupedRow>, rate: real)
    requires rows != []
    ensures DailyOf(rows, rate).order != []
  {
    DailyWellFormed(rows, rate);
    assert rows[|rows| - 1].date in DailyOf(rows, rate).totals;
  }

  /** One key per distinct date: a date is a key iff some row carries it. */
  lemma {:induction false} DailyKeys(rows: seq<GroupedRow>, rate: real, date: string)
    ensures date in DailyOf(rows, rate).totals <==> exists k :: 0 <= k < |rows| && rows[k].date == date
    decreases |rows|
  {
    if rows != [] {
      var front := rows[..|rows| - 1];
      DailyKeys(front, rate, date);
      if date in DailyOf(front, rate).totals {
        var k :| 0 <= k < |front| && front[k].date == date;
        assert rows[k].date == date;
      }
      if exists k :: 0 <= k < |rows| && rows[k].date == date {
        var k :| 0 <= k < |rows| && rows[k].date == date;
        if k < |rows| - 1 {
          assert front[k].date == date;
        }
      }
    }
  }

  /** Each day's `count` is the number of its rows and its `kwh` their sum. */
  lemma {:induction false} DailyTotals(rows: seq<GroupedRow>, rate: real, date: string)
    requires date in DailyOf(rows, rate).totals
    ensures DailyOf(rows, rate).totals[date].count == CountDate(rows, date)
    ensures DailyOf(rows, rate).totals[date].kwh == SumKwhOn(rows, date)
    decreases |rows|
  {
    var front := rows[..|rows| - 1];
    if date in DailyOf(front, rate).totals {
      DailyTotals(front, rate, date);
    } else {
      DailyAbsentZero(front, rate, date);
    }
  }

  /** Each day's `cost` is its `kwh` times the rate. */
  lemma {:induction false} DailyCost(rows: seq<GroupedRow>, rate: real, date: string)
    requires date in DailyOf(rows, rate).totals
    ensures DailyOf(rows, rate).totals[date].cost == DailyOf(rows, rate).totals[date].kwh * rate
    decreases |rows|
  {
    var front := rows[..|rows| - 1];
    var last := rows[|rows| - 1];
    var d := DailyOf(front, rate);
    if date in d.totals {
      DailyCost(front, rate, date);
    }
    AddToDayCost(d, last, rate, date);
  }

  /** One fold step keeps a day's cost equal to its kWh times the rate. */
  lemma AddToDayCost(d: Daily, row: GroupedRow, rate: real, date: string)
    requires date in AddToDay(d, row, rate).totals
    requires date in d.totals ==> d.totals[date].cost == d.totals[date].kwh * rate
    ensures AddToDay(d, row, rate).totals[date].cost == AddToDay(d, row, rate).totals[date].kwh * rate
  {
    if date == row.date && date in d.totals {
      Distribute(d.totals[date].kwh, Kwh(row), rate);
    }
  }

  lemma Distribute(a: real, b: real, c: real)
    ensures a * c + b * c == (a + b) * c
  {
  }

  /** A date without a key has no rows, so its count and sum are zero. */
  lemma {:induction false} DailyAbsentZero(rows: seq<GroupedRow>, rate: real, date: string)
    requires date !in DailyOf(rows, rate).totals
    ensures CountDate(rows, date) == 0 && SumKwhOn(rows, date) == 0.0
    decreases |rows|
  {
    if rows != [] {
      DailyAbsentZero(rows[..|rows| - 1], rate, date);
    }
  }

  /** The per-day kWh values add up to `total_kwh`. */
  lemma {:induction false} DailySumIsTotal(rows: seq<GroupedRow>, rate: real)
    ensures WellFormed(DailyOf(rows, rate))
    ensures SumDays(DailyOf(rows, rate).order, DailyOf(rows, rate).totals) == SumKwh(rows)
    decreases |rows|
  {
    if rows != [] {
      var front := rows[..|rows| - 1];
      DailySumIsTotal(front, rate);
      AddToDayWellFormed(DailyOf(front, rate), rows[|rows| - 1], rate);
      AddToDaySum(DailyOf(front, rate), rows[|rows| - 1], rate);
    }
  }

  /** One row keeps the day map well formed. */
  lemma AddToDayWellFormed(d: Daily, row: GroupedRow, rate: real)
    requires WellFormed(d)
    ensures WellFormed(AddToDay(d, row, rate))
  {
    var d' := AddToDay(d, row, rate);
    if row.date !in d.totals {
      assert d'.order == d.order + [row.date];
      assert row.date !in d.order;
      forall i, j | 0 <= i < j < |d'.order| ensures d'.order[i] != d'.order[j] {
        if j == |d.order| {
          assert d'.order[i] == d.order[i];
        } else {
          assert d'.order[i] == d.order[i] && d'.order[j] == d.order[j];
        }
      }
    }
  }

  /** One row grows the sum of the days by the row's kWh. */
  lemma AddToDaySum(d: Daily, row: GroupedRow, rate: real)
    requires WellFormed(d) && WellFormed(AddToDay(d, row, rate))
    ensures SumDays(AddToDay(d, row, rate).order, AddToDay(d, row, rate).totals) == SumDays(d.order, d.totals) + Kwh(row)
  {
    var d' := AddToDay(d, row, rate);
    if row.date in d.totals {
      SumDaysBump(d.order, d.totals, row.date, d'.totals);
    } else {
      SumDaysFresh(d.order, d.totals, row.date, d'.totals);
      assert d'.order[..|d'.order| - 1] == d.order;
    }
  }

  /** Updating a key outside the order leaves the sum unchanged. */
  lemma {:induction false} SumDaysFresh(order: seq<string>, totals: map<string, DayTotals>, date: string,
                                        totals': map<string, DayTotals>)
    requires forall d :: d in order ==> d in totals
    requires date !in order
    requires forall d :: d in order ==> d in totals' && totals'[d] == totals[d]
    ensures SumDays(order, totals') == SumDays(order, totals)
    decreases |order|
  {
    if order != [] {
      SumDaysFresh(order[..|order| - 1], totals, date, totals');
    }
  }

  /** Growing the kWh of a key that occurs once in the order grows the sum by the same amount. */
  lemma {:induction false} SumDaysBump(order: seq<string>, totals: map<string, DayTotals>, date: string,
                                       totals': map<string, DayTotals>)
    requires NoDuplicates(order) && forall d :: d in order ==> d in totals
    requires date in order && date in totals' && date in totals
    requires forall d :: d in order && d != date ==> d in totals' && totals'[d] == totals[d]
    ensures forall d :: d in order ==> d in totals'
    ensures SumDays(order, totals') == SumDays(order, totals) + (totals'[date].kwh - totals[date].kwh)
    decreases |order|
  {
    var front := order[..|order| - 1];
    var last := order[|order| - 1];
    assert forall d :: d in front ==> d in order;
    if last == date {
      assert date !in front by {
        forall k | 0 <= k < |front| ensures front[k] != date {
          assert order[k] == front[k];
        }
      }
      SumDaysFresh(front, totals, date, totals');
    } else {
      assert date in front by {
        var k :| 0 <= k < |order| && order[k] == date;
        assert front[k] == date;
      }
      assert NoDuplicates(front) by {
        forall i, j | 0 <= i < j < |front| ensures front[i] != front[j] {
          assert front[i] == order[i] && front[j] == order[j];
        }
      }
      SumDaysBump(front, totals, date, totals');
    }
  }

  /** `total_cost` is `total_kwh · rate`, so every cost figure is its kWh times the rate. */
  lemma {:induction false} CostIsKwhTimesRate(rows: seq<GroupedRow>, rate: real)
    ensures SumCost(rows, rate) == SumKwh(rows) * rate
    decreases |rows|
  {
    if rows != [] {
      CostIsKwhTimesRate(rows[..|rows| - 1], rate);
    }
  }

  /** The averages: days × avg gives back the totals, and the average cost is avg kWh × rate. */
  lemma SummaryCostsConsistent(totalKwh: real, totalCost: real, days: nat, rate: real)
    requires days > 0 && totalCost == totalKwh * rate
    ensures var s := SummaryOf(totalKwh, totalCost, days, rate);
            s.avgDailyCost == s.avgDailyKwh * rate && s.projectedMonthlyCost == s.avgDailyCost * 30.0
  {
    ScaledAverage(totalKwh, rate, days as real);
    SwapFactors(totalKwh / days as real, rate, 30.0);
  }

  lemma ScaledAverage(total: real, rate: real, n: real)
    requires n > 0.0
    ensures (total * rate) / n == (total / n) * rate
  {
  }

  lemma SwapFactors(a: real, b: real, c: real)
    ensures a * c * b == a * b * c
  {
  }
}
