/**
 * The power-overview panel: the colour band of an overload percentage and the
 * statistics computed from the breaker list and the stored watt limits.
 */
module PowerOverview {
  import opened Wrappers
  import opened UiTypes

  datatype Color = SuccessMain | WarningMain | ErrorMain | ErrorDark

  /** `getOverloadColor`. */
  function OverloadColor(percentage: real): (c: Color)
    ensures c == SuccessMain <==> percentage <= 100.0
    ensures c == WarningMain <==> 100.0 < percentage <= 110.0
    ensures c == ErrorMain <==> 110.0 < percentage <= 120.0
    ensures c == ErrorDark <==> 120.0 < percentage
  {
    if percentage <= 100.0 then SuccessMain
    else if percentage <= 110.0 then WarningMain
    else if percentage <= 120.0 then ErrorMain
    else ErrorDark
  }

  /** The watts drawn by the breakers that are on. */
  function ActivePower(bs: seq<UiBreaker>): (w: real)
    ensures (forall b :: b in bs ==> b.status != "On") ==> w == 0.0
  {
    if bs == [] then 0.0
    else (if bs[0].status == "On" then ApparentPower(bs[0]) else 0.0) + ActivePower(bs[1..])
  }

  /** `circuitBreakers.filter(isOverloaded)`, in list order. */
  function OverloadedOf(bs: seq<UiBreaker>, limits: map<string, StoredLimit>): (r: seq<UiBreaker>)
    ensures forall b :: b in r <==> b in bs && Overloaded(b, limits)
    ensures |r| <= |bs|
  {
    if bs == [] then []
    else (if Overloaded(bs[0], limits) then [bs[0]] else []) + OverloadedOf(bs[1..], limits)
  }

  /** `filter` keeps order and multiplicity: filtering a joined list is filtering each part. */
  lemma {:induction false} OverloadedAppend(xs: seq<UiBreaker>, ys: seq<UiBreaker>, limits: map<string, StoredLimit>)
    ensures OverloadedOf(xs + ys, limits) == OverloadedOf(xs, limits) + OverloadedOf(ys, limits)
    decreases |xs|
  {
    if xs == [] {
      assert xs + ys == ys;
    } else {
      assert (xs + ys)[0] == xs[0];
      assert (xs + ys)[1..] == xs[1..] + ys;
      OverloadedAppend(xs[1..], ys, limits);
    }
  }

  /** A single element is kept iff the filter's test holds. */
  lemma OverloadedSingle(b: UiBreaker, limits: map<string, StoredLimit>)
    ensures OverloadedOf([b], limits) == if Overloaded(b, limits) then [b] else []
  {
    assert [b][1..] == [];
  }

  /** An entry of `overloadedBreakerNames`, before rounding and formatting. */
  datatype OverloadEntry = OverloadEntry(name: string, percentage: real, currentPowerKw: real, limitKw: real)

  /** The entry of one overloaded breaker. */
  function EntryOf(b: UiBreaker, limits: map<string, StoredLimit>): (e: OverloadEntry)
    ensures e.name == b.name
    ensures Overloaded(b, limits) && LimitOr1500(limits, b.name) > 0.0 ==> e.percentage > 100.0
  {
    var power := ApparentPower(b);
    var limit := LimitOr1500(limits, b.name);
    AbovePercent(power, limit);
    OverloadEntry(b.name, power / limit * 100.0, power / 1000.0, limit / 1000.0)
  }

  datatype Stats = Stats(totalPowerKw: real, activeBreakers: nat, totalBreakers: nat, avgPowerPerBreakerKw: real,
                         overloadedBreakers: nat, overloadedBreakerNames: seq<OverloadEntry>,
                         utilization: Option<real>)

  /**
   * `calculateStats`. `utilization` is `None` for an empty list, where the
   * source divides 0 by 0 and shows NaN.
   */
  function CalculateStats(bs: seq<UiBreaker>, limits: map<string, StoredLimit>): (s: Stats)
    ensures s.totalPowerKw == ActivePower(bs) / 1000.0
    ensures s.activeBreakers == ActiveCount(bs) <= s.totalBreakers == |bs|
    ensures s.avgPowerPerBreakerKw == Average(s.totalPowerKw, s.activeBreakers)
    ensures s.overloadedBreakers == |OverloadedOf(bs, limits)| == |s.overloadedBreakerNames|
    ensures forall k :: 0 <= k < |s.overloadedBreakerNames| ==>
              s.overloadedBreakerNames[k] == EntryOf(OverloadedOf(bs, limits)[k], limits)
    ensures s.utilization.None? <==> |bs| == 0
    ensures s.utilization.Some? ==> 0.0 <= s.utilization.value <= 100.0
  {
    var total := ActivePower(bs) / 1000.0;
    var active := ActiveCount(bs);
    var over := OverloadedOf(bs, limits);
    Stats(total, active, |bs|, Average(total, active), |over|, Entries(over, limits),
          if |bs| == 0 then None else Some(Percent(active, |bs|)))
  }

  /**
   * `totalPower / (activeBreakers || 1)`; with no breaker on the total is 0,
   * so the average is 0 too.
   */
  function Average(total: real, active: nat): (a: real)
    requires active == 0 ==> total == 0.0
    ensures active == 0 ==> a == 0.0
    ensures active > 0 ==> a * active as real == total
  {
    if active == 0 then total
    else
      DivTimes(total, active as real);
      total / active as real
  }

  /** The entries of the overloaded breakers, in list order. */
  function Entries(over: seq<UiBreaker>, limits: map<string, StoredLimit>): (r: seq<OverloadEntry>)
    ensures |r| == |over|
    ensures forall k :: 0 <= k < |r| ==> r[k] == EntryOf(over[k], limits)
  {
    seq(|over|, k requires 0 <= k < |over| => EntryOf(over[k], limits))
  }

  /** `active / total * 100` for `0 <= active <= total`, `total > 0`. */
  function Percent(active: nat, total: nat): (p: real)
    requires 0 < total && active <= total
    ensures 0.0 <= p <= 100.0
  {
    FractionAtMostOne(active as real, total as real);
    active as real / total as real * 100.0
  }

  /** A breaker that is off is never in the overloaded list. */
  lemma OffNeverOverloaded(bs: seq<UiBreaker>, limits: map<string, StoredLimit>, b: UiBreaker)
    requires b in bs && b.status != "On"
    ensures b !in OverloadedOf(bs, limits)
  {
  }

  /** Every listed overload is above 100 percent when its limit is positive. */
  lemma ListedAbove100(bs: seq<UiBreaker>, limits: map<string, StoredLimit>)
    ensures forall k ::
              (0 <= k < |CalculateStats(bs, limits).overloadedBreakerNames| &&
               LimitOr1500(limits, CalculateStats(bs, limits).overloadedBreakerNames[k].name) > 0.0) ==>
              CalculateStats(bs, limits).overloadedBreakerNames[k].percentage > 100.0
  {
    var s := CalculateStats(bs, limits);
    var over := OverloadedOf(bs, limits);
    forall k | 0 <= k < |s.overloadedBreakerNames| &&
               LimitOr1500(limits, s.overloadedBreakerNames[k].name) > 0.0
      ensures s.overloadedBreakerNames[k].percentage > 100.0
    {
      assert over[k] in over;
    }
  }

  lemma AbovePercent(power: real, limit: real)
    requires limit != 0.0
    ensures power > limit && limit > 0.0 ==> power / limit * 100.0 > 100.0
  {
    if power > limit && limit > 0.0 {
      assert power / limit > 1.0;
    }
  }

  lemma DivTimes(p: real, n: real)
    ensures n > 0.0 ==> p / n * n == p
  {
  }

  lemma FractionAtMostOne(a: real, b: real)
    requires 0.0 <= a <= b && b > 0.0
    ensures 0.0 <= a / b <= 1.0
  {
  }
}
