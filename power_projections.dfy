/**
 * The projection endpoint: a per-day kWh fold over the grouped daily totals,
 * then averages and month, remaining-month and year projections.
 */
module PowerProjections {
  import opened Wrappers

  const DefaultKwhRate: real := 0.12

  /** One row of the GROUP BY DATE(timestamp) query over the last seven days. */
  datatype DayRow = DayRow(date: string, totalPower: real, avgPower: real)

  /** An entry of `daily_consumption`. */
  datatype DayUsage = DayUsage(date: string, kwh: real, cost: real)

  datatype Projection = Projection(daily: seq<DayUsage>, projectedKwh: real, projectedCost: real,
                                   remainingKwh: real, remainingCost: real,
                                   yearlyKwh: real, yearlyCost: real,
                                   avgDailyKwh: real, avgDailyCost: real, kwhRate: real)

  datatype Response =
    | PreflightOk                    // 200, empty body: the OPTIONS exit
    | Success(data: Projection)      // 200, status "success"
    | Failure(message: string)       // 500, status "error": every exception lands here

  const Prefix: string := "Failed to calculate projections: "

  /** The calendar facts the script reads from `date()`: days in the current month and today's day of month. */
  datatype Calendar = Calendar(daysInMonth: nat, dayOfMonth: nat)

  predicate ValidCalendar(c: Calendar) {
    1 <= c.dayOfMonth <= c.daysInMonth
  }

  /** A day's total power over the hours, in kW, scaled by 24 as the script does. */
  function DayKwh(row: DayRow): real {
    row.totalPower / 1000.0 * 24.0
  }

  function Usage(rows: seq<DayRow>, rate: real): (r: seq<DayUsage>)
    ensures |r| == |rows|
    ensures forall k :: 0 <= k < |rows| ==>
              r[k].date == rows[k].date && r[k].kwh == rows[k].totalPower / 1000.0 * 24.0 &&
              r[k].cost == r[k].kwh * rate
  {
    seq(|rows|, k requires 0 <= k < |rows| => DayUsage(rows[k].date, DayKwh(rows[k]), DayKwh(rows[k]) * rate))
  }

  function SumKwh(rows: seq<DayRow>): real
    decreases |rows|
  {
    if rows == [] then 0.0 else SumKwh(rows[..|rows| - 1]) + DayKwh(rows[|rows| - 1])
  }

  /** The straight-line figures after the loop. */
  function Project(daily: seq<DayUsage>, totalKwh: real, days: nat, rate: real, cal: Calendar): (p: Projection)
    requires days > 0 && ValidCalendar(cal)
    ensures p.avgDailyKwh * days as real == totalKwh && p.avgDailyCost == p.avgDailyKwh * rate
    ensures p.projectedKwh == p.avgDailyKwh * cal.daysInMonth as real && p.projectedCost == p.projectedKwh * rate
    ensures p.remainingKwh == p.avgDailyKwh * (cal.daysInMonth - cal.dayOfMonth) as real
    ensures p.remainingCost == p.remainingKwh * rate
    ensures p.yearlyKwh == p.avgDailyKwh * 365.0 && p.yearlyCost == p.yearlyKwh * rate
    ensures p.daily == daily && p.kwhRate == rate
  {
    var avg := totalKwh / days as real;
    var monthly := avg * cal.daysInMonth as real;
    var remaining := avg * (cal.daysInMonth - cal.dayOfMonth) as real;
    var yearly := avg * 365.0;
    Projection(daily, monthly, monthly * rate, remaining, remaining * rate, yearly, yearly * rate,
               avg, avg * rate, rate)
  }

  /** The foreach: appends one entry per day and accumulates the kWh. */
  method DailyConsumption(rows: seq<DayRow>, rate: real) returns (daily: seq<DayUsage>, totalKwh: real)
    ensures daily == Usage(rows, rate) && totalKwh == SumKwh(rows)
  {
    daily := [];
    totalKwh := 0.0;
    var i := 0;
    while i < |rows|
      invariant 0 <= i <= |rows|
      invariant |daily| == i && totalKwh == SumKwh(rows[..i])
      invariant forall k :: 0 <= k < i ==> daily[k] == DayUsage(rows[k].date, DayKwh(rows[k]), DayKwh(rows[k]) * rate)
    {
      assert rows[..i + 1][..i] == rows[..i];
      var kwh := rows[i].totalPower / 1000.0 * 24.0;
      daily := daily + [DayUsage(rows[i].date, kwh, kwh * rate)];
      totalKwh := totalKwh + kwh;
      i := i + 1;
    }
    assert rows[..i] == rows;
    assert forall k :: 0 <= k < |rows| ==> daily[k] == Usage(rows, rate)[k];
  }

  /**
   * The script. A preflight OPTIONS request exits at once. Otherwise a falsy
   * `user_id`, an empty result and a database exception (`fault`) all throw,
   * and the handler answers every exception with 500.
   */
  method GetProjections(isOptions: bool, userId: Option<string>, settings: Option<real>, rows: seq<DayRow>,
                        cal: Calendar, fault: bool)
    returns (resp: Response)
    requires ValidCalendar(cal)
    ensures isOptions <==> resp == PreflightOk
    ensures !isOptions && !(userId.Some? && userId.value != "" && userId.value != "0") ==>
              resp == Failure(Prefix + "User ID is required")
    ensures !isOptions && userId.Some? && userId.value != "" && userId.value != "0" && !fault && rows == [] ==>
              resp == Failure(Prefix + "No power consumption data found")
    ensures resp.Success? <==>
              !isOptions && userId.Some? && userId.value != "" && userId.value != "0" && !fault && rows != []
    ensures resp.Success? ==>
              var rate := if settings.Some? then settings.value else DefaultKwhRate;
              resp.data == Project(Usage(rows, rate), SumKwh(rows), |rows|, rate, cal)
  {
    if isOptions {
      return PreflightOk;
    }
    if !(userId.Some? && userId.value != "" && userId.value != "0") {
      return Failure(Prefix + "User ID is required");
    }
    if fault {
      return Failure(Prefix + "database error");
    }
    var rate := if settings.Some? then settings.value else DefaultKwhRate;
    if rows == [] {
      return Failure(Prefix + "No power consumption data found");
    }
    var daily, totalKwh := DailyConsumption(rows, rate);
    resp := Success(Project(daily, totalKwh, |rows|, rate, cal));
  }

  /** For a non-negative average the remaining-month figure lies between 0 and the month projection. */
  lemma RemainingBounded(daily: seq<DayUsage>, totalKwh: real, days: nat, rate: real, cal: Calendar)
    requires days > 0 && ValidCalendar(cal) && totalKwh >= 0.0
    ensures var p := Project(daily, totalKwh, days, rate, cal);
            0.0 <= p.remainingKwh <= p.projectedKwh
  {
    var p := Project(daily, totalKwh, days, rate, cal);
    var avg := p.avgDailyKwh;
    assert avg >= 0.0;
    MulMonotone(avg, (cal.daysInMonth - cal.dayOfMonth) as real, cal.daysInMonth as real);
  }

  lemma MulMonotone(a: real, x: real, y: real)
    requires a >= 0.0 && 0.0 <= x <= y
    ensures 0.0 <= a * x <= a * y
  {
  }

  /** On the month's last day nothing remains. */
  lemma LastDayNothingRemains(daily: seq<DayUsage>, totalKwh: real, days: nat, rate: real, cal: Calendar)
    requires days > 0 && ValidCalendar(cal) && cal.dayOfMonth == cal.daysInMonth
    ensures Project(daily, totalKwh, days, rate, cal).remainingKwh == 0.0
    ensures Project(daily, totalKwh, days, rate, cal).remainingCost == 0.0
  {
  }

  /** The daily entries sum to the total, and the 24× scale makes each entry 24 times the day's kW sum. */
  lemma {:induction false} UsageSumIsTotal(rows: seq<DayRow>, rate: real)
    ensures SumUsage(Usage(rows, rate)) == SumKwh(rows)
    decreases |rows|
  {
    if rows != [] {
      var front := rows[..|rows| - 1];
      UsageSumIsTotal(front, rate);
      var us := Usage(rows, rate);
      assert us[..|rows| - 1] == Usage(front, rate) by {
        forall k | 0 <= k < |front| ensures us[..|rows| - 1][k] == Usage(front, rate)[k] {
          assert front[k] == rows[k];
        }
      }
    }
  }

  function SumUsage(us: seq<DayUsage>): real
    decreases |us|
  {
    if us == [] then 0.0 else SumUsage(us[..|us| - 1]) + us[|us| - 1].kwh
  }
}
