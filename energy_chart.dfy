/**
 * The energy chart: the constant per-room tables the dashboard shares, the
 * 24-point sample series the chart draws, and the chart's own state (series,
 * view mode, rate). `Math.random` draws, the clock and the local hour of a
 * timestamp are parameters.
 */
module EnergyChart {
  import opened Wrappers

  /** Typical wattage of a room: `min`, `max` and the `peak` the dashboard adds up. */
  datatype Consumption = Consumption(min: real, max: real, peak: real)

  /** `TIME_PATTERNS`: the hourly usage factors of each room. */
  const TimePatterns: map<string, seq<real>> := map[
    "Main Panel" := [0.1, 0.1, 0.1, 0.1, 0.1, 0.2, 0.3, 0.4, 0.5, 0.6, 0.7, 0.8, 0.7, 0.6, 0.5, 0.4, 0.3, 0.4, 0.5, 0.6, 0.7, 0.8, 0.9, 1.0],
    "Main Bedroom" := [0.2, 0.1, 0.1, 0.1, 0.1, 0.2, 0.3, 0.4, 0.5, 0.6, 0.7, 0.8, 0.7, 0.6, 0.5, 0.4, 0.3, 0.4, 0.5, 0.6, 0.7, 0.8, 0.9, 1.0],
    "Kitchen" := [0.1, 0.1, 0.1, 0.1, 0.2, 0.3, 0.4, 0.5, 0.6, 0.7, 0.8, 0.9, 1.0, 0.9, 0.8, 0.7, 0.6, 0.7, 0.8, 0.9, 0.8, 0.7, 0.6, 0.5],
    "Bathroom" := [0.2, 0.1, 0.1, 0.1, 0.2, 0.3, 0.4, 0.5, 0.6, 0.7, 0.8, 0.9, 1.0, 0.9, 0.8, 0.7, 0.6, 0.7, 0.8, 0.9, 0.8, 0.7, 0.6, 0.5],
    "Guest Bedroom" := [0.2, 0.1, 0.1, 0.1, 0.1, 0.2, 0.3, 0.4, 0.5, 0.6, 0.7, 0.8, 0.7, 0.6, 0.5, 0.4, 0.3, 0.4, 0.5, 0.6, 0.7, 0.8, 0.9, 1.0],
    "Living Room" := [0.3, 0.2, 0.1, 0.1, 0.1, 0.2, 0.3, 0.4, 0.5, 0.6, 0.7, 0.8, 0.9, 1.0, 0.9, 0.8, 0.7, 0.8, 0.9, 1.0, 0.9, 0.8, 0.7, 0.6],
    "Garage" := [0.1, 0.1, 0.1, 0.1, 0.1, 0.2, 0.3, 0.4, 0.5, 0.6, 0.7, 0.8, 0.9, 1.0, 0.9, 0.8, 0.7, 0.6, 0.5, 0.4, 0.3, 0.2, 0.1, 0.1]
  ]

  /** `ROOM_CONSUMPTION`. */
  const RoomConsumption: map<string, Consumption> := map[
    "Main Panel" := Consumption(5.0, 15.0, 10.0),
    "Main Bedroom" := Consumption(4.0, 12.0, 8.0),
    "Kitchen" := Consumption(6.0, 18.0, 12.0),
    "Bathroom" := Consumption(3.0, 9.0, 6.0),
    "Guest Bedroom" := Consumption(3.0, 9.0, 6.0),
    "Living Room" := Consumption(5.0, 15.0, 10.0),
    "Garage" := Consumption(2.0, 6.0, 4.0)
  ]

  /** A factor table is 24 hourly factors, each within [0.1, 1.0]. */
  ghost predicate HourlyFactors(p: seq<real>) {
    |p| == 24 && forall k :: 0 <= k < |p| ==> 0.1 <= p[k] <= 1.0
  }

  /** Every room's pattern covers 24 hours with factors in [0.1, 1.0]. */
  lemma TimePatternsWellFormed()
    ensures forall name :: name in TimePatterns ==> HourlyFactors(TimePatterns[name])
  {
    forall name | name in TimePatterns
      ensures HourlyFactors(TimePatterns[name])
    {
      var p := TimePatterns[name];
      assert |p| == 24;
      forall k | 0 <= k < 24
        ensures 0.1 <= p[k] <= 1.0
      {
      }
    }
  }

  /** Every room's consumption has `min <= peak <= max`. */
  lemma RoomConsumptionOrdered()
    ensures forall name :: name in RoomConsumption ==>
              RoomConsumption[name].min <= RoomConsumption[name].peak <= RoomConsumption[name].max
  {
  }

  /** `ROOM_CONSUMPTION[name] || ROOM_CONSUMPTION['Main Panel']`. */
  function ConsumptionOf(name: string): (c: Consumption)
    ensures name in RoomConsumption ==> c == RoomConsumption[name]
    ensures name !in RoomConsumption ==> c == Consumption(5.0, 15.0, 10.0)
  {
    if name in RoomConsumption then RoomConsumption[name] else RoomConsumption["Main Panel"]
  }

  /** The wattage range the sample series uses for a breaker. */
  datatype Range = Range(min: real, max: real)

  /** The per-room base range of `generateSampleData`; an unknown name uses 500-1500 W. */
  function BaseConsumption(name: string): (r: Range)
    ensures 0.0 < r.min < r.max
    ensures name !in {"Main Panel", "Kitchen", "Living Room", "Main Bedroom", "Guest Bedroom", "Bathroom", "Garage"} ==>
              r == Range(500.0, 1500.0)
  {
    if name == "Main Panel" then Range(2000.0, 5000.0)
    else if name == "Kitchen" then Range(1500.0, 3000.0)
    else if name == "Living Room" then Range(800.0, 2000.0)
    else if name == "Main Bedroom" then Range(500.0, 1500.0)
    else if name == "Guest Bedroom" then Range(400.0, 1200.0)
    else if name == "Bathroom" then Range(300.0, 1000.0)
    else if name == "Garage" then Range(200.0, 800.0)
    else Range(500.0, 1500.0)
  }

  /** A `Math.random()` value. */
  type Unit = r: real | 0.0 <= r < 1.0

  type Hour = h: int | 0 <= h < 24

  datatype Band = Morning | Evening | Night | Daytime

  /** The hour bands of the series; they partition the day. */
  function BandOf(hour: Hour): (b: Band)
    ensures b == Morning <==> 6 <= hour <= 9
    ensures b == Evening <==> 17 <= hour <= 22
    ensures b == Night <==> hour >= 23 || hour <= 5
    ensures b == Daytime <==> (10 <= hour <= 16)
  {
    if 6 <= hour <= 9 then Morning
    else if 17 <= hour <= 22 then Evening
    else if hour >= 23 || hour <= 5 then Night
    else Daytime
  }

  /** The random time factor of a band; always within [0.2, 1). */
  function BandFactor(b: Band, r: Unit): (f: real)
    ensures 0.2 <= f < 1.0
    ensures b == Morning ==> 0.8 <= f
    ensures b == Evening ==> 0.9 <= f
    ensures b == Night ==> f < 0.4
    ensures b == Daytime ==> 0.5 <= f < 0.8
  {
    match b
    case Morning => 0.8 + r * 0.2
    case Evening => 0.9 + r * 0.1
    case Night => 0.2 + r * 0.2
    case Daytime => 0.5 + r * 0.3
  }

  /** `min + (max - min) * factor`: a point of the range for a factor in [0, 1]. */
  function PowerIn(range: Range, f: real): (p: real)
    requires 0.0 < range.min < range.max && 0.0 <= f <= 1.0
    ensures range.min <= p <= range.max
  {
    ScaleWithin(range.max - range.min, f);
    range.min + (range.max - range.min) * f
  }

  /** `230 + (Math.random() * 10 - 5)`: within [225, 235). */
  function VoltageOf(r: Unit): (v: real)
    ensures 225.0 <= v < 235.0
  {
    230.0 + (r * 10.0 - 5.0)
  }

  /** The current that gives `power` at `voltage`. */
  function CurrentOf(power: real, voltage: real): (c: real)
    requires voltage > 0.0
    ensures c * voltage == power
  {
    DivTimes(power, voltage);
    power / voltage
  }

  /** `calculateCost`: the cost of `power` watts for one hour at `rate` per kWh. */
  function CostAt(power: real, rate: real): (c: real)
    ensures power >= 0.0 && rate >= 0.0 ==> c >= 0.0
    ensures c * 1000.0 == power * rate
  {
    NonNegMul(power / 1000.0, rate);
    (power / 1000.0) * rate
  }

  /** The cost each sample point carries: 12 per kWh. */
  const SampleRate: real := 12.0

  /** One point of the series; `time` is milliseconds on the device clock. */
  datatype Point = Point(time: int, current: real, voltage: real, power: real, cost: real)

  /** The two `Math.random()` draws of the loop step that builds the point `i` hours back. */
  type Draws = nat -> (Unit, Unit)

  /** The point `i` hours before `now`; `hourOf` is the device's local hour of a timestamp. */
  function PointAt(name: string, now: int, i: nat, hourOf: int -> Hour, draw: Draws): (p: Point)
    ensures p.time == now - i * 3600000
    ensures BaseConsumption(name).min <= p.power <= BaseConsumption(name).max
    ensures 225.0 <= p.voltage < 235.0 && p.current * p.voltage == p.power
    ensures p.cost == CostAt(p.power, SampleRate)
  {
    var time := now - i * 3600000;
    var f := BandFactor(BandOf(hourOf(time)), draw(i).0);
    var power := PowerIn(BaseConsumption(name), f);
    var voltage := VoltageOf(draw(i).1);
    Point(time, CurrentOf(power, voltage), voltage, power, CostAt(power, SampleRate))
  }

  /** `generateSampleData`: 24 points, from 23 hours ago up to `now`, one hour apart. */
  method GenerateSampleData(name: string, now: int, hourOf: int -> Hour, draw: Draws) returns (data: seq<Point>)
    ensures |data| == 24
    ensures forall k :: 0 <= k < |data| ==> data[k] == PointAt(name, now, 23 - k, hourOf, draw)
  {
    data := [];
    var i := 23;
    while i >= 0
      invariant -1 <= i <= 23
      invariant |data| == 23 - i
      invariant forall k :: 0 <= k < |data| ==> data[k] == PointAt(name, now, 23 - k, hourOf, draw)
    {
      var time := now - i * 3600000;
      var timeFactor := BandFactor(BandOf(hourOf(time)), draw(i).0);
      var power := PowerIn(BaseConsumption(name), timeFactor);
      var voltage := VoltageOf(draw(i).1);
      var current := CurrentOf(power, voltage);
      var cost := (power / 1000.0) * SampleRate;
      data := data + [Point(time, current, voltage, power, cost)];
      i := i - 1;
    }
  }

  /** The series is hourly and ends at `now`. */
  lemma SeriesHourly(data: seq<Point>, name: string, now: int, hourOf: int -> Hour, draw: Draws)
    requires |data| == 24
    requires forall k :: 0 <= k < |data| ==> data[k] == PointAt(name, now, 23 - k, hourOf, draw)
    ensures data[23].time == now
    ensures forall k :: 0 < k < |data| ==> data[k].time == data[k - 1].time + 3600000
  {
    forall k | 0 < k < |data|
      ensures data[k].time == data[k - 1].time + 3600000
    {
      assert data[k].time == now - (23 - k) * 3600000;
      assert data[k - 1].time == now - (23 - (k - 1)) * 3600000;
    }
  }

  /** The chart state of one `EnergyChart` component. */
  class ChartState {
    var data: seq<Point>
    var viewMode: string
    var kwhRate: real

    /** First render: a fresh series, power view, the saved rate or 12. */
    constructor (name: string, now: int, hourOf: int -> Hour, draw: Draws, savedRate: Option<real>)
      ensures |data| == 24 && forall k :: 0 <= k < |data| ==> data[k] == PointAt(name, now, 23 - k, hourOf, draw)
      ensures viewMode == "power" && kwhRate == savedRate.GetOr(12.0)
    {
      var series := GenerateSampleData(name, now, hourOf, draw);
      data := series;
      viewMode := "power";
      kwhRate := savedRate.GetOr(12.0);
    }

    /** `handleViewModeChange`: a null selection keeps the mode. */
    method SetViewMode(newMode: Option<string>)
      modifies this`viewMode
      ensures viewMode == newMode.GetOr(old(viewMode))
    {
      if newMode.Some? {
        viewMode := newMode.value;
      }
    }

    /** The refresh effect: an off breaker shows no series, an on one a fresh 24-point series. */
    method Refresh(isOn: bool, name: string, now: int, hourOf: int -> Hour, draw: Draws)
      modifies this`data
      ensures !isOn ==> data == []
      ensures isOn ==> |data| == 24 && forall k :: 0 <= k < |data| ==> data[k] == PointAt(name, now, 23 - k, hourOf, draw)
    {
      if !isOn {
        data := [];
        return;
      }
      data := GenerateSampleData(name, now, hourOf, draw);
    }

    /** `calculateCost` at the chart's rate. */
    function CalculateCost(power: real): (c: real)
      reads this
      ensures c * 1000.0 == power * kwhRate
    {
      CostAt(power, kwhRate)
    }
  }

  lemma ScaleWithin(a: real, f: real)
    requires a >= 0.0 && 0.0 <= f <= 1.0
    ensures 0.0 <= a * f <= a
  {
    assert a * f <= a * 1.0;
  }

  lemma DivTimes(p: real, v: real)
    requires v > 0.0
    ensures p / v * v == p
  {
  }

  lemma NonNegMul(a: real, b: real)
    ensures a >= 0.0 && b >= 0.0 ==> a * b >= 0.0
  {
  }
}
