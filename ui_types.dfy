/**
 * Records the dashboard components pass to each other: a breaker as the
 * dashboard holds it, its live reading, the payload of a raised alert, and
 * the watt limit each breaker keeps in the browser's local storage.
 */
module UiTypes {
  import opened Wrappers

  /** `{ current, voltage, power_factor }`. */
  datatype Reading = Reading(current: real, voltage: real, powerFactor: real)

  /** A breaker in component state; `currentData` is often absent. */
  datatype UiBreaker = UiBreaker(id: nat, name: string, location: string, voltageReading: real,
                                 status: string, currentData: Option<Reading>)

  /** The `details` of a power alert, before its numbers are formatted. */
  datatype PowerDetails = PowerDetails(current: real, voltage: real, power: real, location: string,
                                       breaker: string, timestamp: int, recommendations: seq<string>)

  /** What a component hands to `handleAddAlert`; `kind` is the JS `type`, `None` when unset. */
  datatype AlertRequest = AlertRequest(message: string, breaker: string, details: Option<PowerDetails>,
                                       kind: Option<string>)

  /** A `wattLimit_<name>` entry of local storage: a number or text `parseFloat` cannot read. */
  datatype StoredLimit = Parsed(value: real) | Unparsable

  const DefaultLimit: real := 1500.0

  /**
   * `parseFloat(localStorage.getItem('wattLimit_' + name)) || 1500`: a missing
   * or unreadable entry and a stored 0 (falsy) all give the default.
   */
  function LimitOr1500(limits: map<string, StoredLimit>, name: string): (w: real)
    ensures w != 0.0
    ensures (name in limits && limits[name].Parsed? && limits[name].value != 0.0) ==> w == limits[name].value
    ensures !(name in limits && limits[name].Parsed? && limits[name].value != 0.0) ==> w == DefaultLimit
  {
    if name in limits && limits[name].Parsed? && limits[name].value != 0.0 then limits[name].value else DefaultLimit
  }

  /** `currentData.current * currentData.voltage`, with missing data counting as 0 W. */
  function ApparentPower(b: UiBreaker): real {
    match b.currentData
    case None => 0.0
    case Some(r) => r.current * r.voltage
  }

  /** The overload test shared by the dashboard and the overview: on and above its limit. */
  predicate Overloaded(b: UiBreaker, limits: map<string, StoredLimit>) {
    b.status == "On" && ApparentPower(b) > LimitOr1500(limits, b.name)
  }

  /** The number of breakers that are on. */
  function ActiveCount(bs: seq<UiBreaker>): (n: nat)
    ensures n <= |bs|
    ensures n == 0 <==> forall b :: b in bs ==> b.status != "On"
  {
    if bs == [] then 0 else (if bs[0].status == "On" then 1 else 0) + ActiveCount(bs[1..])
  }
}
