/**
 * The dashboard's own state: the breaker list, the alert list and the unread
 * badge, with the handlers that replace them, the derived metrics and the
 * periodic power-limit check. The clock (`Date.now()`), its display string
 * and the stored limits are parameters.
 */
module Dashboard {
  import opened Wrappers
  import opened UiTypes
  import EnergyChart

  const MainPanel: string := "Main Panel"

  /** `INITIAL_BREAKERS`: seven breakers at 230 V, all on, without readings. */
  const InitialBreakers: seq<UiBreaker> := [
    UiBreaker(1, "Main Panel", "Utility Room", 230.0, "On", None),
    UiBreaker(2, "Main Bedroom", "Main Bedroom", 230.0, "On", None),
    UiBreaker(3, "Kitchen", "Kitchen", 230.0, "On", None),
    UiBreaker(4, "Bathroom", "Bathroom", 230.0, "On", None),
    UiBreaker(5, "Guest Bedroom", "Guest Bedroom", 230.0, "On", None),
    UiBreaker(6, "Living Room", "Living Room", 230.0, "On", None),
    UiBreaker(7, "Garage", "Garage", 230.0, "On", None)
  ]

  /** An entry of the alert list; `kind` and `details` are absent on the initial entries. */
  datatype UiAlert = UiAlert(id: int, message: string, breaker: string, time: string,
                             details: Option<PowerDetails>, kind: Option<string>)

  /** `INITIAL_ALERTS`. */
  const InitialAlerts: seq<UiAlert> := [
    UiAlert(1, "High current detected in Kitchen", "Kitchen", "2024-06-01 14:23", None, None),
    UiAlert(2, "Voltage fluctuation in Living Room", "Living Room", "2024-06-01 09:10", None, None)
  ]

  /** `status === 'On' ? 'Off' : 'On'`: any status other than "On" becomes "On". */
  function Flip(status: string): (r: string)
    ensures r == "On" || r == "Off"
    ensures r != status
    ensures status == "On" <==> r == "Off"
  {
    if status == "On" then "Off" else "On"
  }

  /** `prev.find(b => b.name === name)`. */
  function FindByName(bs: seq<UiBreaker>, name: string): (r: Option<UiBreaker>)
    ensures r.Some? ==> r.value in bs && r.value.name == name
    ensures r.None? <==> forall b :: b in bs ==> b.name != name
  {
    if bs == [] then None
    else if bs[0].name == name then Some(bs[0])
    else FindByName(bs[1..], name)
  }

  function SetAllStatus(bs: seq<UiBreaker>, status: string): (r: seq<UiBreaker>)
    ensures |r| == |bs|
    ensures forall k :: 0 <= k < |bs| ==> r[k] == bs[k].(status := status)
  {
    seq(|bs|, k requires 0 <= k < |bs| => bs[k].(status := status))
  }

  function FlipNamed(bs: seq<UiBreaker>, name: string): (r: seq<UiBreaker>)
    ensures |r| == |bs|
    ensures forall k :: 0 <= k < |bs| ==>
              r[k] == if bs[k].name == name then bs[k].(status := Flip(bs[k].status)) else bs[k]
  {
    seq(|bs|, k requires 0 <= k < |bs| => if bs[k].name == name then bs[k].(status := Flip(bs[k].status)) else bs[k])
  }

  /**
   * The updater of `handleToggleBreaker`. Toggling "Main Panel" when no breaker
   * has that name throws (reading `status` of `undefined`): `None`.
   */
  function Toggled(bs: seq<UiBreaker>, name: string): (r: Option<seq<UiBreaker>>)
    ensures r.None? <==> name == MainPanel && FindByName(bs, MainPanel).None?
    ensures r.Some? ==> |r.value| == |bs|
    ensures r.Some? ==> forall k :: 0 <= k < |bs| ==> r.value[k] == bs[k].(status := r.value[k].status)
    ensures r.Some? && name == MainPanel ==>
              forall k :: 0 <= k < |bs| ==> r.value[k].status == Flip(FindByName(bs, MainPanel).value.status)
    ensures r.Some? && name != MainPanel ==>
              forall k :: 0 <= k < |bs| ==>
                r.value[k].status == (if bs[k].name == name then Flip(bs[k].status) else bs[k].status)
  {
    if name == MainPanel then
      match FindByName(bs, MainPanel)
      case None => None
      case Some(main) => Some(SetAllStatus(bs, Flip(main.status)))
    else Some(FlipNamed(bs, name))
  }

  /** Toggling a breaker other than Main Panel twice restores the list, when its statuses are On/Off. */
  lemma ToggleTwiceRestores(bs: seq<UiBreaker>, name: string)
    requires name != MainPanel
    requires forall b :: b in bs && b.name == name ==> b.status == "On" || b.status == "Off"
    ensures Toggled(bs, name).Some? && Toggled(Toggled(bs, name).value, name) == Some(bs)
  {
    var once := Toggled(bs, name).value;
    var twice := Toggled(once, name).value;
    assert |twice| == |bs|;
    forall k | 0 <= k < |bs|
      ensures twice[k] == bs[k]
    {
      assert once[k].name == bs[k].name;
      if bs[k].name == name {
        assert bs[k] in bs;
      }
    }
    assert twice == bs;
  }

  /** Toggling Main Panel twice leaves every breaker at Main Panel's original status. */
  lemma MainPanelTwice(bs: seq<UiBreaker>)
    requires FindByName(bs, MainPanel).Some?
    requires FindByName(bs, MainPanel).value.status == "On" || FindByName(bs, MainPanel).value.status == "Off"
    ensures Toggled(bs, MainPanel).Some? && Toggled(Toggled(bs, MainPanel).value, MainPanel).Some?
    ensures Toggled(Toggled(bs, MainPanel).value, MainPanel).value ==
            SetAllStatus(bs, FindByName(bs, MainPanel).value.status)
  {
    var status := FindByName(bs, MainPanel).value.status;
    var once := SetAllStatus(bs, Flip(status));
    assert Toggled(bs, MainPanel) == Some(once);
    FindAfterSetAll(bs, MainPanel, Flip(status));
    assert Flip(Flip(status)) == status;
    assert Toggled(once, MainPanel) == Some(SetAllStatus(once, status));
    assert SetAllStatus(once, status) == SetAllStatus(bs, status);
  }

  /** Setting every status leaves the breaker a name finds the same but for its status. */
  lemma {:induction false} FindAfterSetAll(bs: seq<UiBreaker>, name: string, status: string)
    ensures FindByName(SetAllStatus(bs, status), name) ==
            if FindByName(bs, name).None? then None else Some(FindByName(bs, name).value.(status := status))
    decreases |bs|
  {
    if bs != [] {
      assert SetAllStatus(bs, status)[1..] == SetAllStatus(bs[1..], status);
      FindAfterSetAll(bs[1..], name, status);
    }
  }

  /** `handleAddAlert`'s record: the clock as id, `type || 'warning'`. */
  function NewUiAlert(req: AlertRequest, now: int, time: string): (a: UiAlert)
    ensures a.id == now && a.time == time
    ensures a.message == req.message && a.breaker == req.breaker && a.details == req.details
    ensures a.kind == if req.kind.None? || req.kind.value == "" then Some("warning") else req.kind
  {
    UiAlert(now, req.message, req.breaker, time, req.details,
            if req.kind.None? || req.kind.value == "" then Some("warning") else req.kind)
  }

  /** `prev.filter(alert => alert.id !== alertId)`. */
  function RemoveAlert(alerts: seq<UiAlert>, id: int): (r: seq<UiAlert>)
    ensures forall a :: a in r <==> a in alerts && a.id != id
    ensures |r| <= |alerts|
    ensures (forall a :: a in alerts ==> a.id != id) ==> r == alerts
  {
    if alerts == [] then []
    else (if alerts[0].id == id then [] else [alerts[0]]) + RemoveAlert(alerts[1..], id)
  }

  /** `filter` keeps order and multiplicity: filtering a joined list is filtering each part. */
  lemma {:induction false} RemoveAlertAppend(xs: seq<UiAlert>, ys: seq<UiAlert>, id: int)
    ensures RemoveAlert(xs + ys, id) == RemoveAlert(xs, id) + RemoveAlert(ys, id)
    decreases |xs|
  {
    if xs == [] {
      assert xs + ys == ys;
    } else {
      assert (xs + ys)[0] == xs[0];
      assert (xs + ys)[1..] == xs[1..] + ys;
      RemoveAlertAppend(xs[1..], ys, id);
    }
  }

  /** A single element is kept iff the filter's test holds. */
  lemma RemoveAlertSingle(a: UiAlert, id: int)
    ensures RemoveAlert([a], id) == if a.id == id then [] else [a]
  {
    assert [a][1..] == [];
  }

  /** The sum of the `peak` wattage of the breakers that are on. */
  function PeakSum(bs: seq<UiBreaker>): (w: real)
    ensures 0.0 <= w <= 12.0 * ActiveCount(bs) as real
  {
    if bs == [] then 0.0
    else (if bs[0].status == "On" then EnergyChart.ConsumptionOf(bs[0].name).peak else 0.0) + PeakSum(bs[1..])
  }

  datatype Metrics = Metrics(totalBreakers: nat, activeBreakers: nat, activeAlerts: nat, totalPower: real)

  /** `dashboardMetrics`. */
  function MetricsOf(bs: seq<UiBreaker>, alerts: seq<UiAlert>): (m: Metrics)
    ensures m.activeBreakers == ActiveCount(bs) <= m.totalBreakers == |bs| && m.activeAlerts == |alerts|
    ensures m.totalPower == PeakSum(bs)
    ensures m.activeBreakers == 0 ==> m.totalPower == 0.0
  {
    Metrics(|bs|, ActiveCount(bs), |alerts|, PeakSum(bs))
  }

  /** The peak sum of two lists joined is the sum of their peak sums: each breaker counts on its own. */
  lemma {:induction false} PeakSumAppend(xs: seq<UiBreaker>, ys: seq<UiBreaker>)
    ensures PeakSum(xs + ys) == PeakSum(xs) + PeakSum(ys)
    decreases |xs|
  {
    if xs != [] {
      assert (xs + ys)[1..] == xs[1..] + ys;
      PeakSumAppend(xs[1..], ys);
    } else {
      assert xs + ys == ys;
    }
  }

  /** Switching Main Panel off switches every breaker off, so nothing is active and no load remains. */
  lemma MainPanelOffClearsLoad(bs: seq<UiBreaker>, alerts: seq<UiAlert>)
    requires FindByName(bs, MainPanel).Some? && FindByName(bs, MainPanel).value.status == "On"
    ensures MetricsOf(Toggled(bs, MainPanel).value, alerts).activeBreakers == 0
    ensures MetricsOf(Toggled(bs, MainPanel).value, alerts).totalPower == 0.0
  {
    var after := Toggled(bs, MainPanel).value;
    forall b | b in after
      ensures b.status != "On"
    {
    }
  }

  /** The alert `checkPowerLimits` raises for an overloaded breaker. */
  function LimitAlert(b: UiBreaker, now: int, time: string): (a: UiAlert)
    ensures a.id == now && a.time == time && a.breaker == b.name && a.kind == Some("warning")
    ensures a.message == "Power limit exceeded in " + b.name
    ensures a.details.Some? && a.details.value.power == ApparentPower(b) && a.details.value.breaker == b.name
    ensures a.details.value.location == b.location && |a.details.value.recommendations| == 2
  {
    var data := b.currentData.GetOr(Reading(0.0, 0.0, 0.0));
    NewUiAlert(AlertRequest("Power limit exceeded in " + b.name, b.name,
                            Some(PowerDetails(data.current, data.voltage, ApparentPower(b), b.location, b.name, now,
                                              ["Consider load balancing", "Review power usage patterns"])),
                            Some("warning")), now, time)
  }

  /** The alerts one check prepends, newest first: one per overloaded breaker, in reverse list order. */
  function LimitAlerts(bs: seq<UiBreaker>, limits: map<string, StoredLimit>, now: int, time: string): (r: seq<UiAlert>)
    ensures |r| <= |bs|
    ensures forall k :: 0 <= k < |r| ==>
              r[k].id == now && r[k].time == time && r[k].message == "Power limit exceeded in " + r[k].breaker
    decreases |bs|
  {
    if bs == [] then []
    else
      var last := bs[|bs| - 1];
      (if Overloaded(last, limits) then [LimitAlert(last, now, time)] else []) +
      LimitAlerts(bs[..|bs| - 1], limits, now, time)
  }

  /** A check raises an alert for a breaker iff it is on and above its limit. */
  lemma {:induction false} LimitAlertsExact(bs: seq<UiBreaker>, limits: map<string, StoredLimit>, now: int, time: string)
    ensures forall a :: a in LimitAlerts(bs, limits, now, time) <==>
              exists b :: b in bs && Overloaded(b, limits) && a == LimitAlert(b, now, time)
    decreases |bs|
  {
    if bs != [] {
      var init := bs[..|bs| - 1];
      var last := bs[|bs| - 1];
      LimitAlertsExact(init, limits, now, time);
      assert bs == init + [last];
      forall a | a in LimitAlerts(bs, limits, now, time)
        ensures exists b :: b in bs && Overloaded(b, limits) && a == LimitAlert(b, now, time)
      {
        if !(Overloaded(last, limits) && a == LimitAlert(last, now, time)) {
          assert a in LimitAlerts(init, limits, now, time);
          var b :| b in init && Overloaded(b, limits) && a == LimitAlert(b, now, time);
          assert b in bs;
        }
      }
      forall b | b in bs && Overloaded(b, limits)
        ensures LimitAlert(b, now, time) in LimitAlerts(bs, limits, now, time)
      {
        if b != last {
          assert b in init;
        }
      }
    }
  }

  /** Without readings nothing draws power, so no non-negative limit is ever exceeded. */
  lemma {:induction false} NoReadingsNoAlerts(bs: seq<UiBreaker>, limits: map<string, StoredLimit>, now: int, time: string)
    requires forall b :: b in bs ==> b.currentData.None?
    requires forall name :: name in limits && limits[name].Parsed? ==> limits[name].value >= 0.0
    ensures LimitAlerts(bs, limits, now, time) == []
    decreases |bs|
  {
    if bs != [] {
      assert bs[|bs| - 1] in bs;
      forall b | b in bs[..|bs| - 1]
        ensures b.currentData.None?
      {
        assert b in bs;
      }
      NoReadingsNoAlerts(bs[..|bs| - 1], limits, now, time);
    }
  }

  class DashboardState {
    var breakers: seq<UiBreaker>
    var alerts: seq<UiAlert>
    var unread: nat
    var menuOpen: bool

    /** The badge: 0 while the menu is open, the number of alerts while it is closed. */
    ghost predicate Valid()
      reads this
    {
      if menuOpen then unread == 0 else unread == |alerts|
    }

    /** First render, after the unread effect has run. */
    constructor ()
      ensures breakers == InitialBreakers && alerts == InitialAlerts
      ensures !menuOpen && unread == 2 && Valid()
    {
      breakers := InitialBreakers;
      alerts := InitialAlerts;
      menuOpen := false;
      unread := |InitialAlerts|;
    }

    /** The unread effect: with the menu closed the badge follows the alert count. */
    method SyncUnread()
      modifies this`unread
      ensures menuOpen ==> unread == old(unread)
      ensures !menuOpen ==> unread == |alerts|
    {
      if !menuOpen {
        unread := |alerts|;
      }
    }

    /** `handleToggleBreaker`; `ok` is false when the updater throws, leaving the list unchanged. */
    method ToggleBreaker(name: string) returns (ok: bool)
      modifies this`breakers
      ensures ok <==> Toggled(old(breakers), name).Some?
      ensures breakers == Toggled(old(breakers), name).GetOr(old(breakers))
    {
      var next := Toggled(breakers, name);
      if next.None? {
        return false;
      }
      breakers := next.value;
      ok := true;
    }

    /** `handleAddAlert`: prepend one alert, then the unread effect. */
    method AddAlert(req: AlertRequest, now: int, time: string)
      requires Valid()
      modifies this`alerts, this`unread
      ensures Valid()
      ensures alerts == [NewUiAlert(req, now, time)] + old(alerts)
    {
      alerts := [NewUiAlert(req, now, time)] + alerts;
      SyncUnread();
    }

    /** `handleCloseAlert`. */
    method CloseAlert(id: int)
      requires Valid()
      modifies this`alerts, this`unread
      ensures Valid()
      ensures alerts == RemoveAlert(old(alerts), id)
    {
      alerts := RemoveAlert(alerts, id);
      SyncUnread();
    }

    /** `handleClearAllAlerts`: empty the list and close the menu. */
    method ClearAllAlerts()
      modifies this`alerts, this`unread, this`menuOpen
      ensures Valid()
      ensures alerts == [] && !menuOpen && unread == 0
    {
      alerts := [];
      menuOpen := false;
      SyncUnread();
    }

    /** `handleBellClick`: open the menu and reset the badge. */
    method OpenMenu()
      modifies this`unread, this`menuOpen
      ensures Valid()
      ensures menuOpen && unread == 0
    {
      menuOpen := true;
      unread := 0;
    }

    /** `handleNotificationClose`, then the unread effect. */
    method CloseMenu()
      modifies this`unread, this`menuOpen
      ensures Valid()
      ensures !menuOpen && unread == |alerts|
    {
      menuOpen := false;
      SyncUnread();
    }

    /** `checkPowerLimits`: one `handleAddAlert` per overloaded breaker, in list order. */
    method CheckPowerLimits(limits: map<string, StoredLimit>, now: int, time: string)
      requires Valid()
      modifies this`alerts, this`unread
      ensures Valid()
      ensures alerts == LimitAlerts(breakers, limits, now, time) + old(alerts)
    {
      var i := 0;
      while i < |breakers|
        invariant 0 <= i <= |breakers|
        invariant Valid()
        invariant alerts == LimitAlerts(breakers[..i], limits, now, time) + old(alerts)
      {
        assert breakers[..i + 1][..i] == breakers[..i];
        CheckBreaker(breakers[i], limits, now, time);
        i := i + 1;
      }
      assert breakers[..i] == breakers;
    }

    /** The body of the `forEach`: alert on one breaker if it is on and above its limit. */
    method CheckBreaker(b: UiBreaker, limits: map<string, StoredLimit>, now: int, time: string)
      requires Valid()
      modifies this`alerts, this`unread
      ensures Valid()
      ensures alerts == (if Overloaded(b, limits) then [LimitAlert(b, now, time)] else []) + old(alerts)
    {
      if b.status == "On" {
        var data := b.currentData.GetOr(Reading(0.0, 0.0, 0.0));
        var powerWatts := data.current * data.voltage;
        var wattLimit := LimitOr1500(limits, b.name);
        assert powerWatts == ApparentPower(b);
        if powerWatts > wattLimit {
          AddAlert(AlertRequest("Power limit exceeded in " + b.name, b.name,
                                Some(PowerDetails(data.current, data.voltage, powerWatts, b.location, b.name, now,
                                                  ["Consider load balancing", "Review power usage patterns"])),
                                Some("warning")), now, time);
        }
      }
    }
  }
}
