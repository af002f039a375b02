/**
 * The sample-data seeder: replaces the test user's readings by one reading per
 * (day, hour, breaker) over the last seven days, from fixed base powers and
 * piecewise time and breaker factors. The random draws are a parameter.
 */
module SampleSeeder {
  import opened Wrappers
  import opened PowerSamples

  const BreakerIds: seq<nat> := [1, 2, 3, 4, 5, 6, 7]
  const BaseVoltage: real := 230.0
  const RecordsInserted: nat := 7 * 24 * 7

  /** `mt_rand(-2, 2)` and `mt_rand(-5, 5)`. */
  type PowerVariation = v: int | -2 <= v <= 2
  type VoltageVariation = w: int | -5 <= w <= 5

  /** The draws the loops make at (day, hour, breaker). */
  type Draws = (int, nat, nat) -> (PowerVariation, VoltageVariation)

  type Hour = h: nat | h < 24

  /** The watt baseline of each breaker. */
  function BasePower(id: nat): (w: real)
    requires id in BreakerIds
    ensures 2.0 <= w <= 6.0
  {
    if id == 1 then 5.0 else if id == 2 then 4.0 else if id == 3 then 6.0 else if id == 4 then 3.0
    else if id == 5 then 3.0 else if id == 6 then 5.0 else 2.0
  }

  /** The time-of-day factor: morning and evening peaks, a night trough. */
  function TimeFactor(hour: Hour): (f: real)
    ensures 0.1 <= f <= 1.2
    ensures 6 <= hour <= 9 <==> f == 1.1
    ensures 17 <= hour <= 21 <==> f == 1.2
    ensures (hour >= 23 || hour <= 5) <==> f == 0.1
  {
    if 6 <= hour <= 9 then 1.1
    else if 17 <= hour <= 21 then 1.2
    else if hour >= 23 || hour <= 5 then 0.1
    else 1.0
  }

  /** The per-breaker factor: each room is high in its own hour windows and low otherwise. */
  function BreakerFactor(id: nat, hour: Hour): (f: real)
    requires id in BreakerIds
    ensures 0.1 <= f <= 1.3
  {
    match id
    case 1 => 1.0
    case 2 => if hour >= 22 || hour <= 6 then 1.1 else 0.2
    case 3 => if (7 <= hour <= 9) || (12 <= hour <= 14) || (18 <= hour <= 20) then 1.3 else 0.3
    case 4 => if (7 <= hour <= 9) || (19 <= hour <= 21) then 1.2 else 0.1
    case 5 => if hour >= 22 || hour <= 6 then 1.1 else 0.1
    case 6 => if 18 <= hour <= 23 then 1.2 else 0.1
    case _ => if 8 <= hour <= 18 then 1.1 else 0.1
  }

  /** The Kitchen breaker is high exactly at meal times. */
  lemma KitchenMealTimes(hour: Hour)
    ensures BreakerFactor(3, hour) == 1.3 <==> (7 <= hour <= 9) || (12 <= hour <= 14) || (18 <= hour <= 20)
    ensures BreakerFactor(3, hour) != 1.3 ==> BreakerFactor(3, hour) == 0.3
  {
  }

  /** Base power plus the draw, scaled by both factors; never negative. */
  function Power(id: nat, hour: Hour, v: PowerVariation): (p: real)
    requires id in BreakerIds
    ensures p >= 0.0
  {
    var base := BasePower(id) + v as real;
    NonNegProduct(base, TimeFactor(hour), BreakerFactor(id, hour));
    base * TimeFactor(hour) * BreakerFactor(id, hour)
  }

  /** 230 V plus the draw, so within 225-235 V. */
  function Voltage(w: VoltageVariation): (v: real)
    ensures 225.0 <= v <= 235.0
  {
    BaseVoltage + w as real
  }

  /** The current that gives `power` at `voltage`. */
  function Current(power: real, voltage: real): (c: real)
    requires voltage > 0.0
    ensures c * voltage == power
  {
    DivTimes(power, voltage);
    power / voltage
  }

  /** A reading with non-negative power and a voltage within 225-235 V. */
  predicate InRange(s: Sample) {
    s.power >= 0.0 && 225.0 <= s.voltage <= 235.0
  }

  /** The reading inserted at (day, hour, breaker); `midnight` is today 00:00 on the clock. */
  function SampleAt(userId: nat, midnight: int, day: int, hour: Hour, id: nat, draw: Draws): (s: Sample)
    requires id in BreakerIds
    ensures s.userId == userId && s.breakerId == id
    ensures s.timestamp == midnight - day * 86400 + hour * 3600
    ensures InRange(s)
  {
    var vw := draw(day, hour, id);
    var power := Power(id, hour, vw.0);
    var voltage := Voltage(vw.1);
    Sample(userId, id, voltage, Current(power, voltage), power, midnight - day * 86400 + hour * 3600)
  }

  /** The first `k` breakers' readings at one hour, in `BreakerIds` order. */
  function HourRows(userId: nat, midnight: int, day: int, hour: Hour, k: nat, draw: Draws): (r: seq<Sample>)
    requires k <= |BreakerIds|
    ensures |r| == k
  {
    if k == 0 then [] else HourRows(userId, midnight, day, hour, k - 1, draw) +
                           [SampleAt(userId, midnight, day, hour, BreakerIds[k - 1], draw)]
  }

  /** The readings of hours `0 .. h-1` of one day. */
  function DayRows(userId: nat, midnight: int, day: int, h: nat, draw: Draws): (r: seq<Sample>)
    requires h <= 24
    ensures |r| == 7 * h
  {
    if h == 0 then [] else DayRows(userId, midnight, day, h - 1, draw) + HourRows(userId, midnight, day, h - 1, 7, draw)
  }

  /** The readings of the first `d` days of the loop, which runs from day 6 down to day 0. */
  function WeekRows(userId: nat, midnight: int, d: nat, draw: Draws): (r: seq<Sample>)
    requires d <= 7
    ensures |r| == 7 * 24 * d
  {
    if d == 0 then [] else WeekRows(userId, midnight, d - 1, draw) + DayRows(userId, midnight, 7 - d, 24, draw)
  }

  datatype Response =
    | Seeded(userId: nat, recordsInserted: nat)   // 200, status "success"
    | Failed(message: string)                     // 500, status "error"

  /**
   * The seeder script. `testUser` is the id found for `test@example.com`, if any.
   */
  method InsertSampleData(table: SampleTable, testUser: Option<nat>, midnight: int, draw: Draws)
    returns (resp: Response)
    modifies table
    ensures testUser.None? ==>
              resp == Failed("Failed to insert sample data: Test user not found. Please create a test user first.") &&
              table.rows == old(table.rows)
    ensures testUser.Some? ==>
              resp == Seeded(testUser.value, RecordsInserted) &&
              table.rows == WithoutUser(old(table.rows), testUser.value) + WeekRows(testUser.value, midnight, 7, draw)
  {
    if testUser.None? {
      return Failed("Failed to insert sample data: Test user not found. Please create a test user first.");
    }
    var userId := testUser.value;
    table.DeleteUser(userId);
    InsertWeek(table, userId, midnight, draw);
    assert |BreakerIds| == 7;
    resp := Seeded(userId, 7 * 24 * |BreakerIds|);
  }

  /** The day loop, from six days ago up to today. */
  method InsertWeek(table: SampleTable, userId: nat, midnight: int, draw: Draws)
    modifies table
    ensures table.rows == old(table.rows) + WeekRows(userId, midnight, 7, draw)
  {
    var day := 6;
    while day >= 0
      invariant -1 <= day <= 6
      invariant table.rows == old(table.rows) + WeekRows(userId, midnight, 6 - day, draw)
    {
      InsertDay(table, userId, midnight, day, draw);
      assert WeekRows(userId, midnight, 6 - day + 1, draw) ==
             WeekRows(userId, midnight, 6 - day, draw) + DayRows(userId, midnight, day, 24, draw);
      day := day - 1;
    }
  }

  /** The hour loop of one day. */
  method InsertDay(table: SampleTable, userId: nat, midnight: int, day: int, draw: Draws)
    modifies table
    ensures table.rows == old(table.rows) + DayRows(userId, midnight, day, 24, draw)
  {
    var hour := 0;
    while hour < 24
      invariant 0 <= hour <= 24
      invariant table.rows == old(table.rows) + DayRows(userId, midnight, day, hour, draw)
    {
      InsertHour(table, userId, midnight, day, hour, draw);
      hour := hour + 1;
    }
  }

  /** The foreach over the breakers at one hour. */
  method InsertHour(table: SampleTable, userId: nat, midnight: int, day: int, hour: Hour, draw: Draws)
    modifies table
    ensures table.rows == old(table.rows) + HourRows(userId, midnight, day, hour, 7, draw)
  {
    var j := 0;
    while j < |BreakerIds|
      invariant 0 <= j <= |BreakerIds|
      invariant table.rows == old(table.rows) + HourRows(userId, midnight, day, hour, j, draw)
    {
      var id := BreakerIds[j];
      var vw := draw(day, hour, id);
      var power := Power(id, hour, vw.0);
      var voltage := Voltage(vw.1);
      var current := Current(power, voltage);
      var sample := Sample(userId, id, voltage, current, power, midnight - day * 86400 + hour * 3600);
      assert sample == SampleAt(userId, midnight, day, hour, id, draw);
      table.Append(sample);
      j := j + 1;
    }
  }

  /** `records_inserted` is the number of rows the loops append. */
  lemma RecordsMatchRows(userId: nat, midnight: int, draw: Draws)
    ensures |WeekRows(userId, midnight, 7, draw)| == RecordsInserted == 1176
  {
  }

  /** Every reading of one hour is in range and belongs to the user. */
  lemma {:induction false} HourRowsInRange(userId: nat, midnight: int, day: int, hour: Hour, k: nat, draw: Draws)
    requires k <= |BreakerIds|
    ensures forall s :: s in HourRows(userId, midnight, day, hour, k, draw) ==> InRange(s) && s.userId == userId
  {
    if k > 0 {
      HourRowsInRange(userId, midnight, day, hour, k - 1, draw);
    }
  }

  lemma {:induction false} DayRowsInRange(userId: nat, midnight: int, day: int, h: nat, draw: Draws)
    requires h <= 24
    ensures forall s :: s in DayRows(userId, midnight, day, h, draw) ==> InRange(s) && s.userId == userId
  {
    if h > 0 {
      DayRowsInRange(userId, midnight, day, h - 1, draw);
      HourRowsInRange(userId, midnight, day, h - 1, 7, draw);
    }
  }

  /** Every seeded reading is in range and belongs to the test user. */
  lemma {:induction false} WeekRowsInRange(userId: nat, midnight: int, d: nat, draw: Draws)
    requires d <= 7
    ensures forall s :: s in WeekRows(userId, midnight, d, draw) ==> InRange(s) && s.userId == userId
  {
    if d > 0 {
      WeekRowsInRange(userId, midnight, d - 1, draw);
      DayRowsInRange(userId, midnight, 7 - d, 24, draw);
    }
  }

  lemma NonNegProduct(a: real, b: real, c: real)
    requires a >= 0.0 && b >= 0.0 && c >= 0.0
    ensures a * b * c >= 0.0
  {
    assert a * b >= 0.0;
  }

  lemma DivTimes(p: real, v: real)
    requires v > 0.0
    ensures p / v * v == p
  {
  }
}
