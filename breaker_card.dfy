/**
 * One circuit-breaker card: its power figure, the watt limit it keeps in
 * local storage, the warning banner and the throttled alert it hands to the
 * dashboard, and its limit editor. Times are milliseconds on the abstract
 * clock `now`; the local-storage entry is an input (`StoredLimit`).
 */
module BreakerCard {
  import opened Wrappers
  import opened UiTypes

  /** A JS number as the card holds it: a value or NaN (what `parseFloat` gives for unreadable text). */
  datatype Limit = Watts(w: real) | NotANumber

  const DefaultCardLimit: real := 1500.0
  const ThrottleMs: int := 30000

  /** `current * voltage * (power_factor / 100)`, missing data counting as all zeros. */
  function PowerWatts(data: Option<Reading>): (w: real)
    ensures data.None? ==> w == 0.0
    ensures data.Some? ==> w * 100.0 == data.value.current * data.value.voltage * data.value.powerFactor
  {
    match data
    case None => 0.0
    case Some(r) =>
      HundredthTimes(r.current * r.voltage, r.powerFactor);
      r.current * r.voltage * (r.powerFactor / 100.0)
  }

  lemma HundredthTimes(a: real, pf: real)
    ensures a * (pf / 100.0) * 100.0 == a * pf
  {
  }

  /**
   * The initial limit: the stored entry read by `parseFloat` when there is
   * one, else 1500. `saved` is `None` when the entry is missing or empty.
   */
  function InitialLimit(saved: Option<StoredLimit>): (l: Limit)
    ensures saved.None? ==> l == Watts(DefaultCardLimit)
    ensures saved.Some? && saved.value.Parsed? ==> l == Watts(saved.value.value)
    ensures saved.Some? && saved.value.Unparsable? ==> l == NotANumber
  {
    match saved
    case None => Watts(DefaultCardLimit)
    case Some(Parsed(v)) => Watts(v)
    case Some(Unparsable) => NotANumber
  }

  /** What the card writes back to local storage: `wattLimit.toString()`, `"NaN"` for NaN. */
  function Persisted(l: Limit): StoredLimit {
    match l
    case Watts(w) => Parsed(w)
    case NotANumber => Unparsable
  }

  /** JS `>` with NaN on the right: always false. */
  predicate Above(power: real, limit: Limit) {
    limit.Watts? && power > limit.w
  }

  /** JS `limit > 0`, false for NaN. */
  predicate Positive(limit: Limit) {
    limit.Watts? && limit.w > 0.0
  }

  /** The banner condition: the power is above the limit and the breaker is on. */
  predicate Exceeds(power: real, limit: Limit, status: string) {
    Above(power, limit) && status == "On"
  }

  /** `!lastAlertTime || (now - lastAlertTime) > 30000`. */
  predicate AlertDue(last: Option<int>, now: int) {
    last.None? || now - last.value > ThrottleMs
  }

  /** The alert handed to `onAlert`, before its numbers and dates are formatted. */
  function CardAlert(name: string, location: string, data: Option<Reading>, now: int): (a: AlertRequest)
    ensures a.breaker == name && a.kind == Some("warning")
    ensures a.message == "Power limit exceeded in " + name
    ensures a.details.Some? && a.details.value.power == PowerWatts(data)
    ensures a.details.value.location == location && a.details.value.breaker == name
    ensures a.details.value.timestamp == now && |a.details.value.recommendations| == 3
  {
    var r := data.GetOr(Reading(0.0, 0.0, 0.0));
    AlertRequest("Power limit exceeded in " + name, name,
                 Some(PowerDetails(r.current, r.voltage, PowerWatts(data), location, name, now,
                                   ["Check for high-power appliances", "Consider load balancing",
                                    "Review power usage patterns"])),
                 Some("warning"))
  }

  class CardState {
    const name: string
    const location: string
    var wattLimit: Limit
    var isEditing: bool
    var tempLimit: Limit
    var showAlert: bool
    var lastAlertTime: Option<int>

    /** The card's first render; `saved` is its local-storage entry. */
    constructor (name: string, location: string, saved: Option<StoredLimit>)
      ensures this.name == name && this.location == location
      ensures wattLimit == InitialLimit(saved) && tempLimit == wattLimit
      ensures !isEditing && !showAlert && lastAlertTime.None?
    {
      this.name := name;
      this.location := location;
      wattLimit := InitialLimit(saved);
      tempLimit := InitialLimit(saved);
      isEditing := false;
      showAlert := false;
      lastAlertTime := None;
    }

    /**
     * The limit-exceedance effect for the current props. `hasOnAlert` says
     * whether the callback is given; the result is the alert passed to it,
     * `None` when it is not called.
     */
    method CheckLimit(data: Option<Reading>, status: string, now: int, hasOnAlert: bool)
      returns (sent: Option<AlertRequest>)
      modifies this
      ensures showAlert == Exceeds(PowerWatts(data), wattLimit, status)
      ensures sent.Some? <==> showAlert && AlertDue(old(lastAlertTime), now) && hasOnAlert
      ensures sent.Some? ==> sent.value == CardAlert(name, location, data, now) && lastAlertTime == Some(now)
      ensures sent.None? ==> lastAlertTime == old(lastAlertTime)
      ensures wattLimit == old(wattLimit) && tempLimit == old(tempLimit) && isEditing == old(isEditing)
    {
      sent := None;
      var powerWatts := PowerWatts(data);
      if Above(powerWatts, wattLimit) && status == "On" {
        showAlert := true;
        if lastAlertTime.None? || now - lastAlertTime.value > ThrottleMs {
          if hasOnAlert {
            sent := Some(CardAlert(name, location, data, now));
            lastAlertTime := Some(now);
          }
        }
      } else {
        showAlert := false;
      }
    }

    /**
     * The limit effect re-run over a timeline of renders `(data, status, now)`
     * with the callback given: the alerts go out exactly at `AlertTimes` of
     * the renders' exceedance events.
     */
    method CheckTimeline(renders: seq<(Option<Reading>, string, int)>) returns (times: seq<int>)
      modifies this
      ensures times == AlertTimes(old(lastAlertTime), EventsOf(renders, wattLimit))
      ensures wattLimit == old(wattLimit) && tempLimit == old(tempLimit) && isEditing == old(isEditing)
    {
      times := [];
      var i := 0;
      while i < |renders|
        invariant 0 <= i <= |renders|
        invariant wattLimit == old(wattLimit) && tempLimit == old(tempLimit) && isEditing == old(isEditing)
        invariant times + AlertTimes(lastAlertTime, EventsOf(renders[i..], wattLimit)) ==
                  AlertTimes(old(lastAlertTime), EventsOf(renders, wattLimit))
      {
        var (data, status, now) := renders[i];
        EventsOfCons(renders[i..], wattLimit);
        assert renders[i..][1..] == renders[i + 1..];
        var sent := CheckLimit(data, status, now, true);
        if sent.Some? {
          times := times + [now];
        }
        i := i + 1;
      }
      assert renders[i..] == [];
    }

    /** The settings button: `setIsEditing(!isEditing)`. */
    method ToggleEditing()
      modifies this
      ensures isEditing == !old(isEditing)
      ensures wattLimit == old(wattLimit) && tempLimit == old(tempLimit)
      ensures showAlert == old(showAlert) && lastAlertTime == old(lastAlertTime)
    {
      isEditing := !isEditing;
    }

    /** The limit field's `onChange`: the typed text read by `parseFloat`. */
    method SetTempLimit(v: Limit)
      modifies this
      ensures tempLimit == v
      ensures wattLimit == old(wattLimit) && isEditing == old(isEditing)
      ensures showAlert == old(showAlert) && lastAlertTime == old(lastAlertTime)
    {
      tempLimit := v;
    }

    /** `handleSaveLimit`: only a positive entry becomes the limit and closes the editor. */
    method SaveLimit()
      modifies this
      ensures Positive(old(tempLimit)) ==> wattLimit == old(tempLimit) && !isEditing
      ensures !Positive(old(tempLimit)) ==> wattLimit == old(wattLimit) && isEditing == old(isEditing)
      ensures tempLimit == old(tempLimit) && showAlert == old(showAlert) && lastAlertTime == old(lastAlertTime)
    {
      if tempLimit.Watts? && tempLimit.w > 0.0 {
        wattLimit := tempLimit;
        isEditing := false;
      }
    }

    /** `handleToggle`: the name passed to `onToggle`, `None` when no callback is given. */
    function ToggleRequest(hasOnToggle: bool): (r: Option<string>)
      reads this
      ensures r.Some? <==> hasOnToggle
      ensures r.Some? ==> r.value == name
    {
      if hasOnToggle then Some(name) else None
    }
  }

  // ---------------------------------------------------------------------------
  // Properties
  // ---------------------------------------------------------------------------

  /** Writing the limit back and reading it on the next load gives the same limit. */
  lemma PersistRoundTrip(l: Limit)
    ensures InitialLimit(Some(Persisted(l))) == l
  {
  }

  /** A limit the editor accepts is a positive number, so the banner needs more than that many watts. */
  lemma SavedLimitPositive(temp: Limit, power: real, status: string)
    requires Positive(temp)
    ensures temp.Watts? && temp.w > 0.0
    ensures Exceeds(power, temp, status) <==> status == "On" && power > temp.w
  {
  }

  /** A NaN limit never shows the banner; the dashboard and the overview read the same entry as 1500. */
  lemma NaNLimitNeverExceeds(power: real, status: string, limits: map<string, StoredLimit>, name: string)
    requires name in limits && limits[name] == Persisted(NotANumber)
    ensures !Exceeds(power, NotANumber, status)
    ensures LimitOr1500(limits, name) == DefaultLimit
  {
  }

  /** For a saved nonzero limit the card and the dashboard's overload test compare against the same watts. */
  lemma CardAndDashboardAgree(l: Limit, limits: map<string, StoredLimit>, name: string)
    requires l.Watts? && l.w != 0.0
    requires name in limits && limits[name] == Persisted(l)
    ensures LimitOr1500(limits, name) == l.w
  {
  }

  /**
   * The effect run over a timeline of renders with the callback given: each
   * event is a time and whether the limit is exceeded then. The result lists
   * the times at which `onAlert` is called.
   */
  function AlertTimes(last: Option<int>, events: seq<(int, bool)>): seq<int>
    decreases |events|
  {
    if events == [] then []
    else
      var (now, exceeded) := events[0];
      if exceeded && AlertDue(last, now) then [now] + AlertTimes(Some(now), events[1..])
      else AlertTimes(last, events[1..])
  }

  /** The exceedance events of a timeline of renders against a fixed limit. */
  function EventsOf(renders: seq<(Option<Reading>, string, int)>, limit: Limit): (es: seq<(int, bool)>)
    ensures |es| == |renders|
    ensures forall k :: 0 <= k < |es| ==>
              es[k] == (renders[k].2, Exceeds(PowerWatts(renders[k].0), limit, renders[k].1))
  {
    seq(|renders|, k requires 0 <= k < |renders| => (renders[k].2, Exceeds(PowerWatts(renders[k].0), limit, renders[k].1)))
  }

  lemma EventsOfCons(renders: seq<(Option<Reading>, string, int)>, limit: Limit)
    requires renders != []
    ensures EventsOf(renders, limit)[0] == (renders[0].2, Exceeds(PowerWatts(renders[0].0), limit, renders[0].1))
    ensures EventsOf(renders, limit)[1..] == EventsOf(renders[1..], limit)
  {
  }

  /** Consecutive alerts are more than 30 seconds apart, and the first is due after `last`. */
  lemma {:induction false} AlertsSpaced(last: Option<int>, events: seq<(int, bool)>)
    ensures var ts := AlertTimes(last, events);
            (last.Some? && ts != [] ==> ts[0] - last.value > ThrottleMs) &&
            forall k :: 0 < k < |ts| ==> ts[k] - ts[k - 1] > ThrottleMs
    decreases |events|
  {
    if events != [] {
      var (now, exceeded) := events[0];
      if exceeded && AlertDue(last, now) {
        AlertsSpaced(Some(now), events[1..]);
        var ts := AlertTimes(last, events);
        var rest := AlertTimes(Some(now), events[1..]);
        assert ts == [now] + rest;
        forall k | 0 < k < |ts| ensures ts[k] - ts[k - 1] > ThrottleMs {
          if k > 1 {
            assert ts[k] == rest[k - 1] && ts[k - 1] == rest[k - 2];
          }
        }
      } else {
        AlertsSpaced(last, events[1..]);
        assert AlertTimes(last, events) == AlertTimes(last, events[1..]);
      }
    }
  }

  /** Every alert time is the time of an event at which the limit was exceeded. */
  lemma {:induction false} AlertsOnlyWhenExceeded(last: Option<int>, events: seq<(int, bool)>, t: int)
    requires t in AlertTimes(last, events)
    ensures exists k :: 0 <= k < |events| && events[k] == (t, true)
    decreases |events|
  {
    var (now, exceeded) := events[0];
    if exceeded && AlertDue(last, now) && t == now {
      assert events[0] == (t, true);
    } else {
      var next := if exceeded && AlertDue(last, now) then Some(now) else last;
      AlertsOnlyWhenExceeded(next, events[1..], t);
      var k :| 0 <= k < |events[1..]| && events[1..][k] == (t, true);
      assert events[k + 1] == (t, true);
    }
  }
}
